/** A value viewed through named bit masks: looking a name up yields the
    value with every bit outside that name's mask cleared. */
module AddressMasks {
  import opened Wrappers
  import opened Bits

  /** Field name to bit mask. */
  type Mapping = map<string, int>

  datatype Address = Address(address: int, mapping: Option<Mapping>)

  /** Construction keeps the value and the mapping; the mapping defaults to
      none. */
  function NewAddress(value: int, mapping: Option<Mapping> := None): (r: Address)
    ensures r.address == value
    ensures r.mapping == mapping
  {
    Address(value, mapping)
  }

  /** Replaces the mapping; the value stays. */
  function SetMapping(addr: Address, mapping: Option<Mapping>): (r: Address)
    ensures r.address == addr.address
    ensures r.mapping == mapping
  {
    addr.(mapping := mapping)
  }

  /** Attribute lookup by field name. A name in the mapping yields the value
      masked by that name's mask: a bit is set in the result iff it is set in
      both, so the result carries no bit outside the mask and never exceeds a
      non-negative value or mask. A name not in the mapping yields nothing. */
  function GetAttr(addr: Address, item: string): (r: Option<int>)
    requires addr.mapping.Some?
    ensures r.Some? <==> item in addr.mapping.value
    ensures r.Some? ==> forall i: nat ::
      Bit(r.value, i) == Bit(addr.address, i) * Bit(addr.mapping.value[item], i)
    ensures r.Some? ==> And(r.value, addr.mapping.value[item]) == r.value
    ensures r.Some? && addr.address >= 0 ==> 0 <= r.value <= addr.address
    ensures r.Some? && addr.mapping.value[item] >= 0 ==> 0 <= r.value <= addr.mapping.value[item]
  {
    var m := addr.mapping.value;
    if item in m then
      AndBits(addr.address, m[item]);
      AndMaskIdempotent(addr.address, m[item]);
      AndAtMostOperands(addr.address, m[item]);
      Some(And(addr.address, m[item]))
    else
      None
  }

  /** After `SetMapping`, lookups consult the new mapping and the old value. */
  lemma SetMappingThenGetAttr(addr: Address, mapping: Mapping, item: string)
    ensures GetAttr(SetMapping(addr, Some(mapping)), item)
         == if item in mapping then Some(And(addr.address, mapping[item])) else None
  {
  }

  /** A lookup on a newly constructed address combines the given value with
      the given mapping's mask. */
  lemma NewAddressThenGetAttr(value: int, mapping: Mapping, item: string)
    ensures GetAttr(NewAddress(value, Some(mapping)), item)
         == if item in mapping then Some(And(value, mapping[item])) else None
  {
  }
}
