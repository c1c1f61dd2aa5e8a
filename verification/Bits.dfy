/** Masking with a power of two, as buffer.c uses it for ring indices. */
module Bits {

  type byte = b: int | 0 <= b < 256

  function Pow2(k: nat): (p: nat)
    ensures p > 0
  {
    if k == 0 then 1 else 2 * Pow2(k - 1)
  }

  /** Bitwise AND of two naturals, bit by bit. */
  function And(a: nat, b: nat): nat {
    if a == 0 || b == 0 then 0
    else (if a % 2 == 1 && b % 2 == 1 then 1 else 0) + 2 * And(a / 2, b / 2)
  }

  /** The test of the NOT_POWER_OF_2 macro. */
  predicate NotPowerOf2(x: nat) {
    x == 0 || And(x, x - 1) != 0
  }

  /** q shifted left by k bits. */
  function Shift(q: nat, k: nat): nat {
    if k == 0 then q else 2 * Shift(q, k - 1)
  }

  lemma {:induction false} ShiftIsProduct(q: nat, k: nat)
    ensures Shift(q, k) == q * Pow2(k)
  {
    if k > 0 {
      ShiftIsProduct(q, k - 1);
      TwiceProduct(q, Pow2(k - 1));
    }
  }

  lemma TwiceProduct(q: nat, h: nat)
    ensures 2 * (q * h) == q * (2 * h)
  {
  }

  /** Masking with 2^k - 1 drops every multiple of 2^k. */
  lemma {:induction false} MaskDropsMultiples(q: nat, r: nat, k: nat)
    requires r < Pow2(k)
    ensures And(Shift(q, k) + r, Pow2(k) - 1) == r
    decreases k
  {
    if k > 0 {
      var h, m := Pow2(k - 1), Shift(q, k - 1);
      MaskDropsMultiples(q, r / 2, k - 1);
      MaskStep(2 * m + r, 2 * h - 1);
    }
  }

  lemma MaskStep(x: nat, odd: nat)
    requires odd % 2 == 1
    ensures And(x, odd) == x % 2 + 2 * And(x / 2, odd / 2)
  {
  }

  /** Masking equals modulo, for every power of two. */
  lemma MaskIsModulo(x: nat, k: nat)
    ensures And(x, Pow2(k) - 1) == x % Pow2(k)
  {
    DivisionTheorem(x, Pow2(k));
    ShiftIsProduct(x / Pow2(k), k);
    MaskDropsMultiples(x / Pow2(k), x % Pow2(k), k);
  }

  lemma DivisionTheorem(x: nat, n: nat)
    requires n > 0
    ensures x == (x / n) * n + x % n && x / n >= 0
  {
  }

  /** The macro's test decides exactly the powers of two. */
  lemma PowerOf2Test(x: nat)
    ensures !NotPowerOf2(x) <==> exists k: nat :: x == Pow2(k)
  {
    if !NotPowerOf2(x) {
      var k := Exponent(x);
    }
    forall k: nat | x == Pow2(k)
      ensures !NotPowerOf2(x)
    {
      ShiftIsProduct(1, k);
      MaskDropsMultiples(1, 0, k);
    }
  }

  lemma {:induction false} Exponent(x: nat) returns (k: nat)
    requires !NotPowerOf2(x)
    ensures x == Pow2(k)
  {
    if x == 1 {
      k := 0;
    } else if x % 2 == 1 {
      // both operands share their leading bits
      assert (x - 1) / 2 == x / 2;
      AndSelf(x / 2);
      assert false;
    } else {
      assert (x - 1) / 2 == x / 2 - 1;
      k := Exponent(x / 2);
      k := k + 1;
    }
  }

  lemma {:induction false} AndSelf(x: nat)
    ensures And(x, x) == x
  {
    if x > 0 { AndSelf(x / 2); }
  }

  /** An index below 2n reduced modulo n without division. */
  function Wrap(x: nat, n: nat): (r: nat)
    requires x < 2 * n
    ensures r < n
  {
    if x < n then x else x - n
  }

  /** For a power-of-two size, the mask used by buffer.c is the wrapped index. */
  lemma MaskIsWrap(x: nat, size: nat)
    requires !NotPowerOf2(size) && x < 2 * size
    ensures And(x, size - 1) == Wrap(x, size)
  {
    PowerOf2Test(size);
    var k: nat :| size == Pow2(k);
    var q := if x < size then 0 else 1;
    ShiftIsProduct(q, k);
    assert x == q * size + Wrap(x, size);
    MaskDropsMultiples(q, Wrap(x, size), k);
  }
}
