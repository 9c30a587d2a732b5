/** Bits of integers in two's complement, and the low-bit facts behind the
    `std::bitset<10>` rewrite of a subscriber's `bits` field. */
module Bits {

  function Pow2(n: nat): (p: nat)
    ensures p >= 1
  {
    if n == 0 then 1 else 2 * Pow2(n - 1)
  }

  /** Bit i of v in two's complement (floor division, so negative values have
      their sign bits set). */
  function Bit(v: int, i: nat): (b: int)
    ensures b == 0 || b == 1
    decreases i
  {
    if i == 0 then v % 2 else Bit(v / 2, i - 1)
  }

  /** Zero has no bit set. */
  lemma {:induction false} BitOfZero(i: nat)
    ensures Bit(0, i) == 0
  {
    if i > 0 {
      BitOfZero(i - 1);
    }
  }

  /** A nonzero multiple of a positive d is at least d away from zero. */
  lemma MulAwayFromZero(d: int, k: int)
    requires d > 0
    ensures k >= 1 ==> d * k >= d
    ensures k <= -1 ==> d * k <= -d
  {
    if k >= 1 {
      assert d * k == d + d * (k - 1);
    } else if k <= -1 {
      assert d * k == -d + d * (k + 1);
    }
  }

  /** Euclidean division is determined by quotient and remainder. */
  lemma DivModUnique(v: int, d: int, q: int, r: int)
    requires d > 0 && v == d * q + r && 0 <= r < d
    ensures v / d == q && v % d == r
  {
    var q', r' := v / d, v % d;
    assert d * (q' - q) == r - r' by {
      assert d * (q' - q) == d * q' - d * q;
    }
    MulAwayFromZero(d, q' - q);
  }

  /** Reducing modulo 2^n keeps bit 0 and halves to a reduction modulo 2^(n-1). */
  lemma ModPow2Step(v: int, n: nat)
    requires n >= 1
    ensures (v % Pow2(n)) % 2 == v % 2
    ensures (v % Pow2(n)) / 2 == (v / 2) % Pow2(n - 1)
  {
    var p := Pow2(n - 1);
    var m := v % Pow2(n);
    var q := v / Pow2(n);
    assert v == Pow2(n) * q + m && 0 <= m < 2 * p;
    assert v == 2 * (p * q + m / 2) + m % 2 by {
      assert Pow2(n) * q == 2 * (p * q);
    }
    DivModUnique(v, 2, p * q + m / 2, m % 2);
    DivModUnique(v / 2, p, q, m / 2);
  }

  /** The value modulo 2^n keeps exactly the bits below n. */
  lemma {:induction false} BitOfMod(v: int, n: nat, i: nat)
    ensures Bit(v % Pow2(n), i) == if i < n then Bit(v, i) else 0
    decreases n
  {
    if n == 0 {
      assert v % 1 == 0;
      BitOfZero(i);
    } else {
      ModPow2Step(v, n);
      if i > 0 {
        BitOfMod(v / 2, n - 1, i - 1);
      }
    }
  }

  /** A value in [0, 2^n) has no bit set from n upward. */
  lemma BitAboveWidth(v: int, n: nat, i: nat)
    requires 0 <= v < Pow2(n) && n <= i
    ensures Bit(v, i) == 0
  {
    DivModUnique(v, Pow2(n), 0, v);
    BitOfMod(v, n, i);
  }

  /** v with bit 0 replaced by b. */
  function WithBit0(v: int, b: int): (r: int)
    requires b == 0 || b == 1
    ensures Bit(r, 0) == b
    ensures forall i: nat | i >= 1 :: Bit(r, i) == Bit(v, i)
  {
    var r := v - v % 2 + b;
    assert r / 2 == v / 2 && r % 2 == b;
    r
  }

  /** Truncating modulo 2^64 (the conversion to `unsigned long long`) does
      not change the bits below 64, so the low ten bits survive it. */
  lemma Low10AfterUint64(v: int)
    ensures (v % 0x1_0000_0000_0000_0000) % 1024 == v % 1024
  {
    var big := 0x1_0000_0000_0000_0000;
    var q := v / big;
    assert v == big * q + v % big;
    assert big * q == 1024 * (0x40_0000_0000_0000 * q);
    DivModUnique(v, 1024, 0x40_0000_0000_0000 * q + (v % big) / 1024, (v % big) % 1024);
  }
}
