/** Integer arithmetic behind the bloom pyramid: how deep the pyramid is for a
    given half-resolution target, and how large each level is. Widths and
    heights are non-negative (the engine never hands out negative sizes), so the
    source's `>>` on them is division by a power of two. */
module Pyramid {

  /** Capacity of the per-level render-target arrays (k_MaxPyramidSize). */
  const MaxPyramidSize: nat := 16

  /** The source always starts the pyramid at half resolution (downres = 1). */
  const Downres: nat := 1

  /** What the float-to-int conversion of negative infinity yields: the
      logarithm of a zero size is negative infinity, and the unchecked
      conversion on the supported platforms gives int.MinValue. */
  const IntMinValue: int := -0x8000_0000

  function Max(a: int, b: int): int { if a >= b then a else b }

  function Min(a: int, b: int): int { if a <= b then a else b }

  function Pow2(k: nat): (r: nat)
    ensures r >= 1
  {
    if k == 0 then 1 else 2 * Pow2(k - 1)
  }

  /** `x >> k` for a non-negative x, as k single-bit shifts. */
  function Shr(x: nat, k: nat): nat
  {
    if k == 0 then x else Shr(x, k - 1) / 2
  }

  /** The first shift of the pyramid is a plain halving. */
  lemma HalfResolution(x: nat)
    ensures Shr(x, Downres) == x / 2
  {
  }

  lemma {:induction false} Pow2Monotone(a: nat, b: nat)
    requires a <= b
    ensures Pow2(a) <= Pow2(b)
    decreases b - a
  {
    if a < b {
      Pow2Monotone(a + 1, b);
    }
  }

  /** floor(log2(n)) for n >= 1: the unique r with 2^r <= n < 2^(r+1). */
  function FloorLog2(n: nat): (r: nat)
    requires n >= 1
    ensures Pow2(r) <= n < Pow2(r + 1)
    decreases n
  {
    if n == 1 then 0 else 1 + FloorLog2(n / 2)
  }

  /** The bracket of FloorLog2 pins it down: any k with 2^k <= n < 2^(k+1) is it. */
  lemma FloorLog2Unique(n: nat, k: nat)
    requires n >= 1
    requires Pow2(k) <= n < Pow2(k + 1)
    ensures FloorLog2(n) == k
  {
    var r := FloorLog2(n);
    if r < k {
      Pow2Monotone(r + 1, k);
    } else if r > k {
      Pow2Monotone(k + 1, r);
    }
  }

  /** Mathf.Clamp(int value, int min, int max) with UnityEngine's order of
      tests: the lower bound is checked first, so when min > max a value
      above max yields max. */
  function ClampInt(v: int, lo: int, hi: int): (r: int)
    ensures Min(lo, hi) <= r <= Max(lo, hi)
    ensures lo <= hi ==> r == Min(Max(v, lo), hi)
  {
    if v < lo then lo else if v > hi then hi else v
  }

  /** Mathf.FloorToInt(Mathf.Log(maxSize, 2) - 1), with the logarithm taken
      exactly; a zero size takes the negative-infinity path. For a non-empty
      target, r + 1 is the exponent of the largest power of two that fits. */
  function NaturalIterations(maxSize: nat): (r: int)
    ensures maxSize == 0 ==> r < 0
    ensures maxSize >= 1 ==> r >= -1 && Pow2(r + 1) <= maxSize < Pow2(r + 2)
  {
    if maxSize == 0 then IntMinValue else FloorLog2(maxSize) - 1
  }

  /** Pyramid depth for a half-resolution target tw x th.

      For maxIterations >= 1 the result is the deepest pyramid, at most
      maxIterations deep, whose level m-1 still spans at least four pixels in
      the larger dimension (2^(m+1) <= maxSize), falling back to a single level
      when even that fails. */
  function MipCount(tw: nat, th: nat, maxIterations: nat): (m: nat)
    ensures m <= Max(1, maxIterations)
    ensures maxIterations >= 1 ==> 1 <= m <= maxIterations
    ensures maxIterations >= 1 ==> m == 1 || Pow2(m + 1) <= Max(tw, th)
    ensures maxIterations >= 1 && m < maxIterations ==> Max(tw, th) < Pow2(m + 2)
    ensures maxIterations == 0 ==> (m == 0 <==> Max(tw, th) >= 4)
  {
    var maxSize := Max(tw, th);
    DepthFacts(maxSize, maxIterations);
    ClampInt(NaturalIterations(maxSize), 1, maxIterations)
  }

  /** The facts MipCount promises, for the clamped natural depth. */
  lemma DepthFacts(maxSize: nat, maxIterations: nat)
    ensures var c := ClampInt(NaturalIterations(maxSize), 1, maxIterations);
      && (maxIterations >= 1 ==> c == 1 || Pow2(c + 1) <= maxSize)
      && (maxIterations >= 1 && c < maxIterations ==> maxSize < Pow2(c + 2))
      && (maxIterations == 0 ==> (c == 0 <==> maxSize >= 4))
  {
    var c := ClampInt(NaturalIterations(maxSize), 1, maxIterations);
    if maxSize >= 1 {
      var l := FloorLog2(maxSize);
      if l >= 2 {
        Pow2Monotone(2, l);
      } else {
        Pow2Monotone(l + 1, 2);
      }
      if maxIterations >= 1 && c < maxIterations {
        Pow2Monotone(l + 1, c + 2);
      }
      if maxIterations >= 1 && c > 1 {
        Pow2Monotone(c + 1, l);
      }
    }
  }

  /** The depth formula as the source writes it, for targets of at least one
      pixel: clamp(floor(log2(max(tw, th))) - 1, 1, maxIterations). */
  lemma MipCountFormula(tw: nat, th: nat, maxIterations: nat)
    requires maxIterations >= 1
    requires Max(tw, th) >= 1
    ensures MipCount(tw, th, maxIterations)
            == Min(Max(FloorLog2(Max(tw, th)) - 1, 1), maxIterations)
  {
  }

  /** A 1920 x 1080 camera is halved to 960 x 540; log2(960) is 9.9, so the
      natural depth is 8 and the default cap of 6 applies. */
  lemma MipCountFullHd()
    ensures MipCount(1920 / 2, 1080 / 2, 6) == 6
    ensures NaturalIterations(960) == 8
  {
  }

  /** Extent of pyramid level i along one axis: level 0 is the half-resolution
      base itself, every further level halves the previous one but never drops
      below one pixel. */
  function LevelExtent(base: nat, i: nat): (e: nat)
    ensures i >= 1 ==> e >= 1
  {
    if i == 0 then base else Max(1, LevelExtent(base, i - 1) / 2)
  }

  /** Closed form of the level recurrence: level i is max(1, base >> i), except
      that level 0 of an empty base is left at zero. */
  lemma {:induction false} LevelExtentClosedForm(base: nat, i: nat)
    requires i >= 1 || base >= 1
    ensures LevelExtent(base, i) == Max(1, Shr(base, i))
  {
    if i == 0 {
      assert Shr(base, 0) == base;
    } else if i == 1 {
      assert Shr(base, 1) == base / 2;
    } else {
      LevelExtentClosedForm(base, i - 1);
    }
  }

  /** Levels shrink (or stay at one pixel) as the index grows. */
  lemma {:induction false} LevelExtentNonIncreasing(base: nat, i: nat, j: nat)
    requires i <= j
    requires i >= 1 || base >= 1
    ensures LevelExtent(base, j) <= LevelExtent(base, i)
    decreases j - i
  {
    if i < j {
      LevelExtentNonIncreasing(base, i, j - 1);
    }
  }
}
