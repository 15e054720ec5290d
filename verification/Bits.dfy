/**
  Bitwise operations on natural numbers, for the places where the source works on
  machine words: masks in the C layout, and the words of a bit set.
*/
module Bits {

  function And(x: nat, y: nat): nat
    decreases x
  {
    if x == 0 then 0 else (if x % 2 == 1 && y % 2 == 1 then 1 else 0) + 2 * And(x / 2, y / 2)
  }

  function Pow2(k: nat): (p: nat)
    ensures p > 0
  {
    if k == 0 then 1 else 2 * Pow2(k - 1)
  }

  /** The complement of a `width`-bit word. */
  function Not(width: nat, x: nat): nat
    requires x < Pow2(width)
  {
    Pow2(width) - 1 - x
  }

  lemma {:induction false} AndOnes(x: nat, width: nat)
    requires x < Pow2(width)
    ensures And(x, Pow2(width) - 1) == x
    decreases width
  {
    if x > 0 {
      assert width > 0;
      assert (Pow2(width) - 1) % 2 == 1 && (Pow2(width) - 1) / 2 == Pow2(width - 1) - 1;
      AndOnes(x / 2, width - 1);
    }
  }

  lemma {:induction false} PowGrows(k: nat, width: nat)
    requires k <= width
    ensures Pow2(k) <= Pow2(width)
    decreases width
  {
    if k < width { PowGrows(k, width - 1); }
  }

  lemma HalvedMod(x: nat, m: nat)
    requires m > 0
    ensures x % (2 * m) == 2 * ((x / 2) % m) + x % 2
  {
    var q, r := (x / 2) / m, (x / 2) % m;
    assert x / 2 == q * m + r;
    assert x == 2 * (q * m + r) + x % 2;
    assert 2 * (q * m) == q * (2 * m);
    ModIs(x, 2 * m, q, 2 * r + x % 2);
  }

  /** A product whose factors matter only where it is unfolded. */
  function Times(x: nat, n: nat): nat {
    x * n
  }

  lemma OneMore(x: nat, n: nat)
    requires n > 0
    ensures Times(x, n) == x + Times(x, n - 1)
  {}

  lemma TimesZero(x: nat)
    ensures Times(x, 0) == 0
  {}

  lemma TimesOne(n: nat)
    ensures Times(1, n) == n
  {}

  lemma FarMultiple(d: int, m: nat)
    requires m > 0
    ensures (d > 0 ==> d * m >= m) && (d < 0 ==> d * m + m <= 0)
  {}

  lemma ModIs(x: int, m: nat, q: int, r: nat)
    requires r < m && x == q * m + r
    ensures x % m == r && x / m == q
  {
    var d := x / m - q;
    assert x == (x / m) * m + x % m;
    assert d * m == (x / m) * m - q * m;
    assert d * m == r - x % m;
    FarMultiple(d, m);
  }

  /** Masking off the low `k` bits of a word takes the remainder away. */
  lemma {:induction false} MaskDropsLowBits(x: nat, k: nat, width: nat)
    requires k <= width && x < Pow2(width)
    ensures Pow2(k) - 1 < Pow2(width) && And(x, Not(width, Pow2(k) - 1)) == x - x % Pow2(k)
    decreases k
  {
    hide And;
    PowGrows(k, width);
    if k == 0 {
      AndOnes(x, width);
    } else {
      PowGrows(k - 1, width - 1);
      var p, half := Pow2(k - 1), Pow2(width - 1) - Pow2(k - 1);
      MaskDropsLowBits(x / 2, k - 1, width - 1);
      HalvedMod(x, p);
      AndEven(x, half);
      assert Not(width, Pow2(k) - 1) == 2 * half;
      assert And(x, 2 * half) == 2 * (x / 2 - (x / 2) % p);
    }
  }

  lemma AndEven(x: nat, half: nat)
    ensures And(x, 2 * half) == 2 * And(x / 2, half)
  {
    assert 2 * half % 2 == 0 && 2 * half / 2 == half;
  }

  // ----- one bit --------------------------------------------------------------------------------------

  function Or(x: nat, y: nat): nat
    decreases x
  {
    if x == 0 then y else (if x % 2 == 1 || y % 2 == 1 then 1 else 0) + 2 * Or(x / 2, y / 2)
  }

  predicate Bit(x: nat, i: nat)
    decreases i
  {
    if i == 0 then x % 2 == 1 else Bit(x / 2, i - 1)
  }

  lemma {:induction false} BitOfZero(i: nat)
    ensures !Bit(0, i)
  {
    if i > 0 { BitOfZero(i - 1); }
  }

  lemma {:induction false} BitOfPow(j: nat, i: nat)
    ensures Bit(Pow2(j), i) <==> i == j
    decreases i
  {
    if i > 0 && j > 0 {
      BitOfPow(j - 1, i - 1);
    } else if i > 0 {
      BitOfZero(i - 1);
    }
  }

  lemma {:induction false} BitOfOr(x: nat, y: nat, i: nat)
    ensures Bit(Or(x, y), i) <==> Bit(x, i) || Bit(y, i)
    decreases i
  {
    if x == 0 {
      BitOfZero(i);
    } else if i > 0 {
      BitOfOr(x / 2, y / 2, i - 1);
    }
  }

  lemma {:induction false} BitOfAnd(x: nat, y: nat, i: nat)
    ensures Bit(And(x, y), i) <==> Bit(x, i) && Bit(y, i)
    decreases i
  {
    if x == 0 {
      BitOfZero(i);
    } else {
      AndParity(x, y);
      if i > 0 { BitOfAnd(x / 2, y / 2, i - 1); }
    }
  }

  lemma AndParity(x: nat, y: nat)
    requires x > 0
    ensures (And(x, y) % 2 == 1 <==> x % 2 == 1 && y % 2 == 1) && And(x, y) / 2 == And(x / 2, y / 2)
  {}

  lemma {:induction false} BitOfNot(width: nat, x: nat, i: nat)
    requires x < Pow2(width) && i < width
    ensures Bit(Not(width, x), i) <==> !Bit(x, i)
    decreases i
  {
    assert Not(width, x) == 2 * Not(width - 1, x / 2) + (1 - x % 2);
    if i > 0 { BitOfNot(width - 1, x / 2, i - 1); }
  }

  /** The test `x & (1 << i) != 0`. */
  lemma {:induction false} MaskedBit(x: nat, i: nat)
    ensures And(x, Pow2(i)) != 0 <==> Bit(x, i)
    decreases i
  {
    if x == 0 {
      BitOfZero(i);
    } else if i > 0 {
      AndParity(x, Pow2(i));
      MaskedBit(x / 2, i - 1);
    } else {
      AndParity(x, 1);
      AndZero(x / 2);
    }
  }

  lemma {:induction false} AndZero(x: nat)
    ensures And(x, 0) == 0
    decreases x
  {
    if x > 0 { AndZero(x / 2); }
  }

  /** Words with the same bits are the same word. */
  lemma {:induction false} SameBits(width: nat, x: nat, y: nat)
    requires x < Pow2(width) && y < Pow2(width) && forall i :: 0 <= i < width ==> Bit(x, i) == Bit(y, i)
    ensures x == y
    decreases width
  {
    if width > 0 {
      assert Bit(x, 0) == Bit(y, 0);
      forall i | 0 <= i < width - 1 ensures Bit(x / 2, i) == Bit(y / 2, i) {
        assert Bit(x, i + 1) == Bit(y, i + 1);
      }
      SameBits(width - 1, x / 2, y / 2);
    }
  }

  lemma {:induction false} OrStays(width: nat, x: nat, y: nat)
    requires x < Pow2(width) && y < Pow2(width)
    ensures Or(x, y) < Pow2(width)
    decreases width
  {
    if x > 0 { OrStays(width - 1, x / 2, y / 2); }
  }

  lemma {:induction false} AndStays(x: nat, y: nat)
    ensures And(x, y) <= x
    decreases x
  {
    if x > 0 {
      AndParity(x, y);
      AndStays(x / 2, y / 2);
    }
  }
}
