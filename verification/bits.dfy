/** Python's bitwise AND on unbounded integers. Python treats an int as an
    infinite two's-complement bit string; `Bit` reads one position of it and
    `And` combines two strings position by position. */
module Bits {

  function Abs(x: int): nat
  {
    if x < 0 then -x else x
  }

  /** Bit `i` of `x`, Python's `(x >> i) & 1`: Dafny's `/` and `%` by 2 round
      toward negative infinity here, as Python's shift does. */
  function Bit(x: int, i: nat): (r: int)
    ensures r == 0 || r == 1
    decreases i
  {
    if i == 0 then x % 2 else Bit(x / 2, i - 1)
  }

  /** Python's `a & b`. Zero and minus one (all bits clear, all bits set)
      end the recursion; otherwise the lowest bits are combined and the rest
      shifted right. The result is non-negative as soon as one operand is. */
  function And(a: int, b: int): (r: int)
    ensures a >= 0 || b >= 0 ==> r >= 0
    decreases Abs(a) + Abs(b)
  {
    if a == 0 || b == 0 then 0
    else if a == -1 then b
    else if b == -1 then a
    else 2 * And(a / 2, b / 2) + (a % 2) * (b % 2)
  }

  lemma {:induction false} BitOfZero(i: nat)
    ensures Bit(0, i) == 0
  {
    if i > 0 {
      BitOfZero(i - 1);
    }
  }

  lemma {:induction false} BitOfMinusOne(i: nat)
    ensures Bit(-1, i) == 1
  {
    if i > 0 {
      BitOfMinusOne(i - 1);
    }
  }

  /** `And` is bitwise: each bit of the result is set iff it is set in both
      operands. */
  lemma {:induction false} AndBit(a: int, b: int, i: nat)
    ensures Bit(And(a, b), i) == Bit(a, i) * Bit(b, i)
    decreases i
  {
    if a == 0 || b == 0 {
      BitOfZero(i);
    } else if a == -1 {
      BitOfMinusOne(i);
    } else if b == -1 {
      BitOfMinusOne(i);
    } else {
      var q := And(a / 2, b / 2);
      var s := (a % 2) * (b % 2);
      assert s == 0 || s == 1;
      assert And(a, b) == 2 * q + s;
      if i > 0 {
        assert (2 * q + s) / 2 == q;
        AndBit(a / 2, b / 2, i - 1);
      }
    }
  }

  lemma AndBits(a: int, b: int)
    ensures forall i: nat :: Bit(And(a, b), i) == Bit(a, i) * Bit(b, i)
  {
    forall i: nat
      ensures Bit(And(a, b), i) == Bit(a, i) * Bit(b, i)
    {
      AndBit(a, b, i);
    }
  }

  /** Two integers with the same bits are equal. */
  lemma {:induction false} BitsDetermine(x: int, y: int)
    requires forall i: nat :: Bit(x, i) == Bit(y, i)
    ensures x == y
    decreases Abs(x) + Abs(y)
  {
    assert Bit(x, 0) == Bit(y, 0);
    if (x == 0 || x == -1) && (y == 0 || y == -1) {
    } else {
      forall i: nat
        ensures Bit(x / 2, i) == Bit(y / 2, i)
      {
        assert Bit(x, i + 1) == Bit(y, i + 1);
      }
      BitsDetermine(x / 2, y / 2);
    }
  }

  /** A non-negative operand bounds the result from above. */
  lemma {:induction false} AndAtMostOperands(a: int, b: int)
    ensures a >= 0 ==> And(a, b) <= a
    ensures b >= 0 ==> And(a, b) <= b
    decreases Abs(a) + Abs(b)
  {
    if a == 0 || b == 0 || a == -1 || b == -1 {
    } else {
      AndAtMostOperands(a / 2, b / 2);
      assert (a % 2) * (b % 2) <= a % 2 && (a % 2) * (b % 2) <= b % 2 by {
        assert a % 2 == 0 || a % 2 == 1;
        assert b % 2 == 0 || b % 2 == 1;
      }
    }
  }

  /** Masking a second time with the same mask changes nothing: the result
      has no bit outside the mask. */
  lemma AndMaskIdempotent(a: int, m: int)
    ensures And(And(a, m), m) == And(a, m)
  {
    AndBits(a, m);
    AndBits(And(a, m), m);
    BitsDetermine(And(And(a, m), m), And(a, m));
  }
}
