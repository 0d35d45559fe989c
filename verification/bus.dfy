/** The memory bus: a fixed store of 64 KiB, a range-checked and
    type-checked `write`, and a total `read`. */
module MemoryBus {
  import opened Wrappers
  import opened Exceptions

  /** Number of cells of the store (64 * 1024). */
  const MemorySize: nat := 64 * 1024

  /** Lowest and highest address the bus accepts. */
  const FirstAddress: int := 0x0000
  const LastAddress: int := MemorySize - 1

  /** A 16-bit address, the type the bus's `read` is annotated with. */
  type Addr16 = a: int | 0 <= a < MemorySize

  /** The store: always exactly 64 KiB of bytes. */
  type Ram = s: seq<bv8> | |s| == MemorySize witness seq(MemorySize, _ => 0 as bv8)

  datatype Bus = Bus(ram: Ram)

  /** A value handed to `write`: either a numpy `uint8`, or any other
      Python value (a plain int, a `uint16`, ...), which the bus rejects. */
  datatype Datum = UInt8(byte: bv8) | NonUInt8

  /** A fresh bus: every cell of the store holds zero. */
  function NewBus(): (b: Bus)
    ensures |b.ram| == MemorySize
    ensures forall a: Addr16 :: Read(b, a, false) == 0
  {
    Bus(seq(MemorySize, _ => 0 as bv8))
  }

  /** The range guard of `write`: accepts exactly the indexes of the store. */
  function AddressInRange(address: int): (r: bool)
    ensures r <==> 0 <= address < MemorySize
  {
    if FirstAddress > address || address > LastAddress then false else true
  }

  /** The byte stored at `address`. The `readOnly` flag is accepted and
      ignored: the plain bus has no location whose read has a side effect. */
  function Read(b: Bus, address: Addr16, readOnly: bool := false): (r: bv8)
    ensures r == b.ram[address]
  {
    b.ram[address]
  }

  /** Stores a byte. The range is checked first and the datum's type second,
      each check with its own error; a failed write yields no new bus, so the
      caller's bus is what the store holds afterwards. */
  function Write(b: Bus, address: int, data: Datum): (r: Result<Bus, Error>)
    ensures !(0 <= address < MemorySize) ==> r == Failure(AddressOutOfBoundsError(address))
    ensures 0 <= address < MemorySize && data.NonUInt8? ==> r == Failure(TypeError(Uint8Required))
    ensures r.Success? <==> 0 <= address < MemorySize && data.UInt8?
    ensures r.Success? ==> 0 <= address < MemorySize && Read(r.value, address, false) == data.byte
    ensures r.Success? ==> forall a: Addr16 :: a != address ==> Read(r.value, a, false) == Read(b, a, false)
  {
    if AddressInRange(address) then
      if data.UInt8? then
        Success(Bus(b.ram[address := data.byte]))
      else
        Failure(TypeError(Uint8Required))
    else
      Failure(AddressOutOfBoundsError(address))
  }

  /** The range check precedes the type check: an out-of-range address with
      a bad datum is reported as out of bounds. */
  lemma BoundsErrorPrecedesTypeError(b: Bus, address: int)
    requires !(0 <= address < MemorySize)
    ensures Write(b, address, NonUInt8) == Failure(AddressOutOfBoundsError(address))
  {
  }

  /** Reading does not depend on the read-only flag. */
  lemma ReadIgnoresReadOnly(b: Bus, address: Addr16)
    ensures Read(b, address, true) == Read(b, address, false)
  {
  }

  /** Every in-range address and every uint8 can be written, and reading the
      address back returns the byte, whatever the flag. */
  lemma ReadAfterWrite(b: Bus, address: Addr16, v: bv8, readOnly: bool)
    ensures Write(b, address, UInt8(v)).Success?
    ensures Read(Write(b, address, UInt8(v)).value, address, readOnly) == v
  {
  }

  /** A second write to the same address overrides the first. */
  lemma WriteOverwrites(b: Bus, address: Addr16, v: bv8, w: bv8)
    ensures Write(Write(b, address, UInt8(v)).value, address, UInt8(w)) == Write(b, address, UInt8(w))
  {
    assert b.ram[address := v][address := w] == b.ram[address := w];
  }

  /** Writes to different addresses commute. */
  lemma WritesCommute(b: Bus, a1: Addr16, v1: bv8, a2: Addr16, v2: bv8)
    requires a1 != a2
    ensures Write(Write(b, a1, UInt8(v1)).value, a2, UInt8(v2))
         == Write(Write(b, a2, UInt8(v2)).value, a1, UInt8(v1))
  {
    assert b.ram[a1 := v1][a2 := v2] == b.ram[a2 := v2][a1 := v1];
  }
}
