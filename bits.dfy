/** Bitwise OR on non-negative integers and the packing of a row of flags
    into the low bits of an integer: the arithmetic behind the debug-level
    option, whose value is built with `|=` on an `Idx` that never leaves
    the range [0, 511]. */
module Bits {

  function Pow2(k: nat): (p: nat)
    ensures p >= 1
  {
    if k == 0 then 1 else 2 * Pow2(k - 1)
  }

  /** Bit `i` of `v` (bit 0 is the least significant one). */
  function Bit(v: nat, i: nat): bool
  {
    if i == 0 then v % 2 == 1 else Bit(v / 2, i - 1)
  }

  /** `a | b` on non-negative integers, defined digit by digit. */
  function Or(a: nat, b: nat): nat
    decreases a + b
  {
    if a == 0 then b
    else if b == 0 then a
    else 2 * Or(a / 2, b / 2) + (if a % 2 == 1 || b % 2 == 1 then 1 else 0)
  }

  /** Reference meaning of `Or`: a bit of `a | b` is set exactly when it is
      set in `a` or in `b`. */
  lemma {:induction false} BitOfOr(a: nat, b: nat, i: nat)
    ensures Bit(Or(a, b), i) == (Bit(a, i) || Bit(b, i))
    decreases i
  {
    if a == 0 {
      ZeroHasNoBits(i);
    } else if b == 0 {
      ZeroHasNoBits(i);
    } else if i > 0 {
      BitOfOr(a / 2, b / 2, i - 1);
    }
  }

  lemma {:induction false} ZeroHasNoBits(i: nat)
    ensures !Bit(0, i)
  {
    if i > 0 {
      ZeroHasNoBits(i - 1);
    }
  }

  /** OR-ing in a bit above every bit of `a` is an addition. */
  lemma {:induction false} OrHighBit(a: nat, k: nat)
    requires a < Pow2(k)
    ensures Or(a, Pow2(k)) == a + Pow2(k)
  {
    if k > 0 && a != 0 {
      OrHighBit(a / 2, k - 1);
    }
  }

  /** `2^k` has bit `k` and no other. */
  lemma {:induction false} BitOfPow2(k: nat, i: nat)
    ensures Bit(Pow2(k), i) == (i == k)
  {
    if i == 0 {
    } else if k == 0 {
      ZeroHasNoBits(i - 1);
    } else {
      BitOfPow2(k - 1, i - 1);
    }
  }
}
