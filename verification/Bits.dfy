/**
 Unbounded non-negative integers read as bit masks.  Python integers have no
 fixed width, so a sum of action values can carry past the highest action bit;
 the operators below are therefore defined on `nat`.
 */
module Bits {

  function Pow2(n: nat): (r: nat)
    ensures r > 0
  {
    if n == 0 then 1 else 2 * Pow2(n - 1)
  }

  predicate Bit(m: nat, i: nat) {
    if i == 0 then m % 2 == 1 else Bit(m / 2, i - 1)
  }

  function And(a: nat, b: nat): nat {
    if a == 0 || b == 0 then 0
    else (if a % 2 == 1 && b % 2 == 1 then 1 else 0) + 2 * And(a / 2, b / 2)
  }

  function Or(a: nat, b: nat): nat
    decreases a + b
  {
    if a == 0 then b
    else if b == 0 then a
    else (if a % 2 == 1 || b % 2 == 1 then 1 else 0) + 2 * Or(a / 2, b / 2)
  }

  lemma {:induction false} ZeroHasNoBits(i: nat)
    ensures !Bit(0, i)
  {
    if i > 0 { ZeroHasNoBits(i - 1); }
  }

  lemma {:induction false} OrBit(a: nat, b: nat, i: nat)
    ensures Bit(Or(a, b), i) <==> Bit(a, i) || Bit(b, i)
    decreases a + b
  {
    ZeroHasNoBits(i);
    if a != 0 && b != 0 {
      var c := if a % 2 == 1 || b % 2 == 1 then 1 else 0;
      assert Or(a, b) % 2 == c && Or(a, b) / 2 == Or(a / 2, b / 2);
      if i > 0 { OrBit(a / 2, b / 2, i - 1); }
    }
  }

  lemma {:induction false} Pow2Bit(n: nat, i: nat)
    ensures Bit(Pow2(n), i) <==> i == n
  {
    if n == 0 {
      if i > 0 { ZeroHasNoBits(i - 1); }
    } else if i > 0 {
      assert Pow2(n) / 2 == Pow2(n - 1);
      Pow2Bit(n - 1, i - 1);
    }
  }

  /** Testing a mask against a single-bit mask tests that bit. */
  lemma {:induction false} AndPow2(m: nat, n: nat)
    ensures And(m, Pow2(n)) != 0 <==> Bit(m, n)
    decreases n
  {
    if m == 0 {
      ZeroHasNoBits(n);
    } else if n > 0 {
      assert Pow2(n) / 2 == Pow2(n - 1);
      if m / 2 == 0 { ZeroHasNoBits(n - 1); }
      AndPow2(m / 2, n - 1);
    } else {
      assert And(m / 2, 0) == 0;
    }
  }

  /** Or-ing in one bit adds its value exactly when the bit was clear. */
  lemma {:induction false} OrPow2(n: nat, m: nat)
    ensures Or(Pow2(n), m) == if Bit(m, n) then m else m + Pow2(n)
    decreases n
  {
    if m == 0 {
      ZeroHasNoBits(n);
    } else if n > 0 {
      assert Pow2(n) / 2 == Pow2(n - 1);
      OrPow2(n - 1, m / 2);
    } else {
      assert Or(0, m / 2) == m / 2;
    }
  }

  /** The value of the n lowest bits. */
  function Low(m: nat, n: nat): nat {
    if n == 0 then 0 else m % 2 + 2 * Low(m / 2, n - 1)
  }

  /** Two masks have the same low n bits exactly when those bits have the same value. */
  lemma {:induction false} LowBits(x: nat, y: nat, n: nat)
    ensures Low(x, n) == Low(y, n) <==> SameBits(x, y, n)
  {
    if n > 0 {
      LowBits(x / 2, y / 2, n - 1);
      SameBitsStep(x, y, n);
      assert Low(x, n) == x % 2 + 2 * Low(x / 2, n - 1);
      assert Low(y, n) == y % 2 + 2 * Low(y / 2, n - 1);
    }
  }

  predicate SameBits(x: nat, y: nat, n: nat) {
    forall i: nat | i < n :: Bit(x, i) == Bit(y, i)
  }

  lemma SameBitsStep(x: nat, y: nat, n: nat)
    requires n > 0
    ensures SameBits(x, y, n) <==> x % 2 == y % 2 && SameBits(x / 2, y / 2, n - 1)
  {
    if SameBits(x, y, n) {
      assert Bit(x, 0) == Bit(y, 0);
      forall i: nat | i < n - 1 ensures Bit(x / 2, i) == Bit(y / 2, i) {
        assert Bit(x, i + 1) == Bit(y, i + 1);
      }
    }
    if x % 2 == y % 2 && SameBits(x / 2, y / 2, n - 1) {
      forall i: nat | i < n ensures Bit(x, i) == Bit(y, i) {
        if i > 0 { assert Bit(x / 2, i - 1) == Bit(y / 2, i - 1); }
      }
    }
  }

  /** The n lowest bits are the residue modulo 2^n. */
  lemma {:induction false} LowIsResidue(m: nat, n: nat)
    ensures Low(m, n) == m % Pow2(n)
  {
    if n > 0 {
      LowIsResidue(m / 2, n - 1);
      ResidueOfDouble(m, Pow2(n - 1));
    }
  }

  lemma ResidueOfDouble(m: nat, p: nat)
    requires p > 0
    ensures m % (2 * p) == m % 2 + 2 * ((m / 2) % p)
  {
    var q, r := (m / 2) / p, (m / 2) % p;
    Split(m / 2, p);
    Associate(q, p);
    ResidueUnique(m, 2 * p, q, m % 2 + 2 * r);
  }

  lemma Associate(q: int, p: int)
    ensures q * (2 * p) == 2 * (q * p)
  {}

  lemma Split(x: nat, d: nat)
    requires d > 0
    ensures x == (x / d) * d + x % d
  {}

  lemma ResidueUnique(x: nat, d: nat, q: nat, r: nat)
    requires r < d && x == q * d + r
    ensures x % d == r
  {
    var k := q - x / d;
    assert k * d == x % d - r by { Split(x, d); Distribute(q, x / d, d); }
    if k >= 1 { Multiple(k, d); }
    if k <= -1 { Multiple(-k, d); Distribute(0, k, d); }
  }

  lemma Distribute(a: int, b: int, d: int)
    ensures (a - b) * d == a * d - b * d
  {}

  lemma Multiple(k: int, d: nat)
    requires k >= 1
    ensures k * d >= d
  {}

  lemma Low12(m: nat)
    ensures Low(m, 12) == m % 4096
  {
    LowIsResidue(m, 12);
    Pow12();
  }

  /** Masks agree on the twelve flags exactly when they agree modulo 4096. */
  lemma Same12(x: nat, y: nat)
    ensures SameBits(x, y, 12) <==> x % 4096 == y % 4096
  {
    LowBits(x, y, 12);
    Low12(x);
    Low12(y);
  }

  lemma Pow12()
    ensures Pow2(12) == 4096
  {}
}
