/** Randomised delays. Real arithmetic stands in for `f64`; integer casts keep the source's widths. */
module Retry {

  const U64_MAX: nat := 0xFFFF_FFFF_FFFF_FFFF
  const U32_MAX: nat := 0xFFFF_FFFF
  const I64_MAX: nat := 0x7FFF_FFFF_FFFF_FFFF

  type U64 = n: nat | n <= U64_MAX
  type U32 = n: nat | n <= U32_MAX

  /** A random draw of the source's generator: at least 0 and below 1. */
  type Draw = r: real | 0.0 <= r < 1.0

  /** Two's complement reading of an integer as `i64`. */
  function AsI64(n: int): (i: int)
    ensures -(I64_MAX as int) - 1 <= i <= I64_MAX
    ensures -(I64_MAX as int) - 1 <= n <= I64_MAX ==> i == n
    ensures 0 <= n ==> i <= n
  {
    if -(I64_MAX as int) - 1 <= n <= I64_MAX then n
    else (n + I64_MAX + 1) % (U64_MAX + 1) - I64_MAX - 1
  }

  /** `f64::round` on a non-negative value: halves go up. */
  function Round(x: real): int {
    (x + 0.5).Floor
  }

  function Spread(base: nat, ratio: real): int {
    Round(base as real * ratio)
  }

  /** How far one draw moves the base: between minus and plus one spread. */
  function Delta(spread: int, draw: Draw): int {
    Round(draw * (spread as real * 2.0)) - spread
  }

  function Jitter(base: U64, ratio: real, draw: Draw): U64 {
    if ratio <= 0.0 then base
    else
      var sum := AsI64(AsI64(base) + Delta(Spread(base, ratio), draw));
      if sum < 0 then 0 else sum
  }

  /** A jittered delay stays within one spread of its base, as long as the sum fits an `i64`. */
  lemma JitterStaysWithinSpread(base: U64, ratio: real, draw: Draw)
    requires ratio > 0.0
    requires base + Spread(base, ratio) <= I64_MAX
    ensures 0 <= Spread(base, ratio)
    ensures base - Spread(base, ratio) <= Jitter(base, ratio, draw) <= base + Spread(base, ratio)
  {
    SpreadIsNatural(base, ratio);
    DeltaStaysWithin(Spread(base, ratio), draw);
  }

  lemma SpreadIsNatural(base: nat, ratio: real)
    requires ratio > 0.0
    ensures 0 <= Spread(base, ratio)
  {
    ScaleStaysWithin(ratio, base as real);
  }

  lemma DeltaStaysWithin(spread: nat, draw: Draw)
    ensures 0 - spread <= Delta(spread, draw) <= spread
  {
    var wide := spread as real * 2.0;
    var scaled := draw * wide;
    ScaleStaysWithin(draw, wide);
    assert 0.0 <= scaled <= wide;
    assert wide == (2 * spread) as real;
    RoundStaysWithin(scaled, 2 * spread);
  }

  lemma ScaleStaysWithin(factor: real, x: real)
    requires 0.0 <= factor && 0.0 <= x
    ensures 0.0 <= factor * x
    ensures 0.0 <= x * factor
    ensures factor <= 1.0 ==> factor * x <= x
  {
    if factor <= 1.0 {
      assert (1.0 - factor) * x >= 0.0;
    }
  }

  lemma RoundStaysWithin(x: real, n: nat)
    requires 0.0 <= x <= n as real
    ensures 0 <= Round(x) <= n
  {
  }

  lemma JitterIsIdentityWithoutRatio(base: U64, ratio: real, draw: Draw)
    requires ratio <= 0.0
    ensures Jitter(base, ratio, draw) == base
  {
  }

  /** At the default ratio of one fifth the spread never exceeds half the base, rounding included. */
  lemma DefaultSpreadIsAtMostHalf(base: nat)
    ensures 2 * Spread(base, 0.2) <= base
  {
    if base >= 2 {
      assert base as real * 0.2 + 0.5 <= base as real / 2.0 + 0.5;
      var f := Spread(base, 0.2);
      assert f as real <= base as real * 0.2 + 0.5;
      assert 10 * f <= 2 * base + 5;
    }
  }

  /** The spread is the share of the base, to the nearest whole. */
  lemma SpreadMeaning(base: nat, ratio: real)
    ensures base as real * ratio - 0.5 < Spread(base, ratio) as real <= base as real * ratio + 0.5
  {
  }

  /** The jittered delay lies, to the nearest whole, where the draw puts it between base minus and plus the spread. */
  lemma JitterMeaning(base: U64, ratio: real, draw: Draw)
    requires ratio > 0.0 && base + Spread(base, ratio) <= I64_MAX && Spread(base, ratio) <= base
    ensures var target := base as real - Spread(base, ratio) as real + draw * (2 * Spread(base, ratio)) as real;
      target - 0.5 < Jitter(base, ratio, draw) as real <= target + 0.5
  {
    SpreadIsNatural(base, ratio);
    DeltaStaysWithin(Spread(base, ratio), draw);
    var spread := Spread(base, ratio);
    assert spread as real * 2.0 == (2 * spread) as real;
    hide Spread;
  }

  // ----- When jitter keeps at least half -----

  /** Spread at most half the base, and base plus spread within an `i64`. */
  predicate KeepsHalf(base: U64, ratio: real) {
    ratio <= 0.0 || (2 * Spread(base, ratio) <= base && base + Spread(base, ratio) <= I64_MAX)
  }

  lemma QuotientTimes(x: real, wide: real)
    requires 0.0 < wide
    ensures x / wide * wide == x
  {
  }

  lemma QuotientIsADraw(x: real, wide: real)
    requires 0.0 <= x < wide
    ensures 0.0 <= x / wide < 1.0
  {
  }

  /** Any shift within the spread is the outcome of some draw. */
  lemma SomeDrawGives(spread: nat, target: real) returns (draw: Draw)
    requires 0.0 <= target < (2 * spread) as real
    ensures Delta(spread, draw) == Round(target) - spread
  {
    var wide := spread as real * 2.0;
    assert wide == (2 * spread) as real;
    QuotientIsADraw(target, wide);
    QuotientTimes(target, wide);
    draw := target / wide;
  }

  /** The middle draw does not move the base at all. */
  lemma MiddleDraw(spread: int)
    ensures Delta(spread, 0.5) == 0
  {
    var scaled := 0.5 * (spread as real * 2.0);
    assert scaled == spread as real;
  }

  /** A base beyond the largest `i64` wraps into a delay of nothing at the middle draw, whatever the ratio. */
  lemma WrappedBaseIsLost(base: U64, ratio: real)
    requires 0.0 < ratio && I64_MAX < base
    ensures Jitter(base, ratio, 0.5) == 0
  {
    MiddleDraw(Spread(base, ratio));
    assert AsI64(base) == base - U64_MAX - 1;
  }

  lemma LowestDrawHalves(base: U64, ratio: real)
    requires 0.0 < ratio && base <= I64_MAX && base < 2 * Spread(base, ratio) && Spread(base, ratio) < base
    ensures 2 * Jitter(base, ratio, 0.0) < base
  {
    var spread := Spread(base, ratio);
    var wide := spread as real * 2.0;
    assert 0.0 * wide == 0.0;
    assert Delta(spread, 0.0) == 0 - spread;
  }

  lemma SomeDrawLosesAll(base: U64, ratio: real) returns (draw: Draw)
    requires 0.0 < ratio && 0 < base <= I64_MAX && base <= Spread(base, ratio)
    ensures Jitter(base, ratio, draw) == 0
  {
    hide Spread, Delta;
    var spread := Spread(base, ratio);
    draw := SomeDrawGives(spread, (spread - base) as real);
    assert Round((spread - base) as real) == spread - base;
  }

  lemma SomeDrawOverflows(base: U64, ratio: real) returns (draw: Draw)
    requires 0.0 < ratio && base <= I64_MAX && 2 * Spread(base, ratio) <= base && I64_MAX < base + Spread(base, ratio)
    ensures Jitter(base, ratio, draw) == 0
  {
    hide Spread, Delta;
    var spread := Spread(base, ratio);
    var target := (2 * spread) as real - 0.25;
    draw := SomeDrawGives(spread, target);
    assert Round(target) == 2 * spread;
    assert AsI64(base + spread) < 0;
  }

  lemma NoBaseNoSpread(ratio: real)
    ensures Spread(0, ratio) == 0
  {
    assert (0 as real) * ratio == 0.0;
  }

  lemma SomeDrawHalves(base: U64, ratio: real) returns (draw: Draw)
    requires !KeepsHalf(base, ratio)
    ensures 2 * Jitter(base, ratio, draw) < base
  {
    SpreadIsNatural(base, ratio);
    NoBaseNoSpread(ratio);
    hide Spread, Jitter;
    if I64_MAX < base {
      WrappedBaseIsLost(base, ratio);
      draw := 0.5;
    } else if base <= Spread(base, ratio) {
      draw := SomeDrawLosesAll(base, ratio);
    } else if base < 2 * Spread(base, ratio) {
      LowestDrawHalves(base, ratio);
      draw := 0.0;
    } else {
      draw := SomeDrawOverflows(base, ratio);
    }
  }

  /** Whatever the draw, at least half the base is left: exactly when the spread is at most half the base and the
      sum of the two fits an `i64`, or there is no jitter. */
  lemma JitterKeepsHalfIff(base: U64, ratio: real)
    ensures (forall draw: Draw :: base <= 2 * Jitter(base, ratio, draw)) <==> KeepsHalf(base, ratio)
  {
    if KeepsHalf(base, ratio) {
      forall draw: Draw ensures base <= 2 * Jitter(base, ratio, draw) {
        if 0.0 < ratio {
          JitterStaysWithinSpread(base, ratio, draw);
        } else {
          JitterIsIdentityWithoutRatio(base, ratio, draw);
        }
        hide Jitter, Spread;
      }
    } else {
      var draw := SomeDrawHalves(base, ratio);
    }
  }
}
