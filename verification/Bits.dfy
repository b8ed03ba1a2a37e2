/** Fixed-width bit masks, as the C sources use them to round sizes up. */
module Bits {

  const W32: nat := 0x1_0000_0000
  const W64: nat := 0x1_0000_0000_0000_0000

  /** A 32-bit unsigned integer. */
  type Word = x: int | 0 <= x < 0x1_0000_0000

  function Pow2(w: nat): (p: nat)
    ensures p > 0
  {
    if w == 0 then 1 else 2 * Pow2(w - 1)
  }

  /** `x & y`. */
  function BitAnd(x: nat, y: nat): nat {
    if x == 0 then 0
    else 2 * BitAnd(x / 2, y / 2) + if x % 2 == 1 && y % 2 == 1 then 1 else 0
  }

  /** `~m` on unsigned integers below `size`, a power of two. */
  function BitNot(size: nat, m: nat): nat
    requires m < size
  {
    size - 1 - m
  }

  /** `(x + m) & ~m` in unsigned arithmetic modulo `size`, wrapping like C. */
  function RoundUp(size: nat, x: nat, m: nat): nat
    requires m < size
  {
    BitAnd((x + m) % size, BitNot(size, m))
  }

  lemma Widths()
    ensures Pow2(32) == W32
    ensures Pow2(64) == W64
  {
    assert Pow2(8) == 256;
    Pow2Sum(8, 8);
    Pow2Sum(16, 16);
    Pow2Sum(32, 32);
  }

  lemma {:induction false} Pow2Sum(a: nat, b: nat)
    ensures Pow2(a + b) == Pow2(a) * Pow2(b)
  {
    if a > 0 {
      Pow2Sum(a - 1, b);
      DoubleProduct(Pow2(a - 1), Pow2(b));
      assert Pow2(a + b) == 2 * Pow2(a - 1 + b);
    }
  }

  lemma DoubleProduct(x: nat, y: nat)
    ensures (2 * x) * y == 2 * (x * y)
  {
  }

  /** A mask splits a word in two: the bits under it, which are at most the mask, and the rest. */
  lemma {:induction false} MaskSplits(w: nat, y: nat, m: nat)
    requires y < Pow2(w) && m < Pow2(w)
    ensures BitAnd(y, m) + BitAnd(y, BitNot(Pow2(w), m)) == y
    ensures BitAnd(y, m) <= m
  {
    if w > 0 {
      MaskSplits(w - 1, y / 2, m / 2);
      assert BitNot(Pow2(w), m) / 2 == BitNot(Pow2(w - 1), m / 2);
      assert BitNot(Pow2(w), m) % 2 == 1 - m % 2;
    }
  }

  /** What a mask clears has no bit in common with it. */
  lemma {:induction false} MaskClears(w: nat, y: nat, m: nat)
    requires y < Pow2(w) && m < Pow2(w)
    ensures BitAnd(BitAnd(y, BitNot(Pow2(w), m)), m) == 0
  {
    if w > 0 {
      MaskClears(w - 1, y / 2, m / 2);
      assert BitNot(Pow2(w), m) / 2 == BitNot(Pow2(w - 1), m / 2);
      assert BitNot(Pow2(w), m) % 2 == 1 - m % 2;
    }
  }

  lemma RoundUp64Clears(x: nat, m: nat)
    requires x < W64 && m < W64
    ensures BitAnd(RoundUp64(x, m), m) == 0
  {
    Widths();
    var y := (x + m) % W64;
    MaskClears(64, y, m);
  }

  /** For any mask at all, contiguous or not, rounding up lands within the mask of the argument
      when nothing overflows, and far below it when the addition wraps. */
  lemma RoundUpBounds(w: nat, x: nat, m: nat)
    requires x < Pow2(w) && m < Pow2(w)
    ensures x + m < Pow2(w) ==> x <= RoundUp(Pow2(w), x, m) <= x + m
    ensures x + m >= Pow2(w) ==> RoundUp(Pow2(w), x, m) <= x + m - Pow2(w)
  {
    var p := Pow2(w);
    if x + m < p {
      ModUnique(x + m, p, 0, x + m);
      MaskSplits(w, x + m, m);
    } else {
      ModUnique(x + m, p, 1, x + m - p);
      MaskSplits(w, x + m - p, m);
    }
  }

  /** `(x + m) & ~m` on a 32-bit `unsigned int`. */
  function RoundUp32(x: Word, m: Word): (r: Word)
    ensures x + m < W32 ==> x <= r <= x + m
    ensures x + m >= W32 ==> r <= x + m - W32
  {
    Widths(); RoundUpBounds(32, x, m); RoundUp(W32, x, m)
  }

  /** `(x + m) & ~m` on a 64-bit `size_t`. */
  function RoundUp64(x: nat, m: nat): (r: nat)
    requires x < W64 && m < W64
    ensures x + m < W64 ==> x <= r <= x + m
    ensures x + m >= W64 ==> r <= x + m - W64
  {
    Widths(); RoundUpBounds(64, x, m); RoundUp(W64, x, m)
  }

  /** Rounding up under the mask 2047 gives whole pages of 2048. */
  lemma RoundUp32Pages(x: Word)
    requires x + 2047 < W32
    ensures RoundUp32(x, 2047) % 2048 == 0
  {
    assert Pow2(11) == 2048;
    RoundUp32Aligned(11, x, 2047);
  }

  /** Rounding up under the mask 15 takes 4 to 16, and 16 no further. */
  lemma RoundUp32Sixteen()
    ensures RoundUp32(4, 15) == 16 && RoundUp32(16, 15) == 16
  {
    assert Pow2(4) == 16;
    RoundUp32Aligned(4, 4, 15);
    RoundUp32Aligned(4, 16, 15);
  }

  lemma RoundUp32Aligned(k: nat, x: Word, m: Word)
    requires Pow2(k) == m + 1 && k <= 32
    requires x + m < W32
    ensures RoundUp32(x, m) % (m + 1) == 0
  {
    Widths();
    RoundUpAligned(32, k, x);
  }

  /** Clearing the low `k` bits leaves a multiple of `2^k`. */
  lemma {:induction false} LowMaskAligns(w: nat, k: nat, y: nat)
    requires k <= w && y < Pow2(w)
    ensures Pow2(k) <= Pow2(w)
    ensures BitAnd(y, BitNot(Pow2(w), Pow2(k) - 1)) == y - y % Pow2(k)
  {
    if k == 0 {
      AllOnes(w, y);
    } else {
      LowMaskAligns(w - 1, k - 1, y / 2);
      var m := Pow2(k) - 1;
      assert m / 2 == Pow2(k - 1) - 1 && m % 2 == 1;
      assert BitNot(Pow2(w), m) / 2 == BitNot(Pow2(w - 1), m / 2);
      assert BitNot(Pow2(w), m) % 2 == 0;
      HalfMod(y, Pow2(k - 1));
    }
  }

  lemma {:induction false} AllOnes(w: nat, y: nat)
    requires y < Pow2(w)
    ensures BitAnd(y, Pow2(w) - 1) == y
  {
    if w > 0 {
      AllOnes(w - 1, y / 2);
      assert (Pow2(w) - 1) / 2 == Pow2(w - 1) - 1;
      assert (Pow2(w) - 1) % 2 == 1;
    }
  }

  lemma HalfMod(y: nat, p: nat)
    requires p > 0
    ensures 2 * ((y / 2) % p) + y % 2 == y % (2 * p)
  {
    var q := (y / 2) / p;
    var r := 2 * ((y / 2) % p) + y % 2;
    assert y / 2 == q * p + (y / 2) % p;
    assert y == q * (2 * p) + r by {
      assert 2 * (q * p) == q * (2 * p);
    }
    ModUnique(y, 2 * p, q, r);
  }

  lemma NoSmallMultiple(e: int, d: nat)
    requires 0 - d < e * d < d
    ensures e == 0
  {
  }

  lemma ModUnique(y: nat, d: nat, q: nat, r: nat)
    requires d > 0 && r < d && y == q * d + r
    ensures y % d == r && y / d == q
  {
    var e := q - y / d;
    assert e * d == q * d - (y / d) * d;
    NoSmallMultiple(e, d);
  }

  /** With an all-ones mask the result is the least multiple of `2^k` that is at least `x`. */
  lemma RoundUpAligned(w: nat, k: nat, x: nat)
    requires k <= w && x + Pow2(k) - 1 < Pow2(w)
    ensures Pow2(k) <= Pow2(w)
    ensures RoundUp(Pow2(w), x, Pow2(k) - 1) % Pow2(k) == 0
    ensures x <= RoundUp(Pow2(w), x, Pow2(k) - 1) < x + Pow2(k)
  {
    var p := Pow2(k);
    var y := x + p - 1;
    assert RoundUp(Pow2(w), x, p - 1) == y - y % p by {
      LowMaskAligns(w, k, y);
      ModUnique(y, Pow2(w), 0, y);
    }
    DropRemainder(x, p);
  }

  lemma DropRemainder(x: nat, p: nat)
    requires p > 0
    ensures var y := x + p - 1; x <= y - y % p < x + p && (y - y % p) % p == 0
  {
    var y := x + p - 1;
    var q := y / p;
    assert y == q * p + y % p;
    ModUnique(q * p, p, q, 0);
  }
}
