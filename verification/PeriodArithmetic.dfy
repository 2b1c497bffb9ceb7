/** Exclusive-mode period arithmetic: frames to 100 ns units, rounded to nearest,
    and back, rounded up. The source computes in f64; here every quotient is the
    exact rational. Frame counts and rates are u32, periods are i64. */
module PeriodArithmetic {
  import opened Arithmetic
  import opened Wrappers

  const U32_MAX: nat := 0xFFFF_FFFF
  const HNS_PER_SECOND: nat := 10_000_000
  const MIN_PERIOD_FRAMES: nat := 32
  const MAX_PERIOD_FRAMES: nat := 4_800

  /** The largest rate at which half a 100 ns unit is still within one frame. */
  const MAX_EXACT_RATE: nat := 20_000_000

  function ClampPeriodFrames(requested: nat): nat {
    if requested < MIN_PERIOD_FRAMES then MIN_PERIOD_FRAMES
    else if requested > MAX_PERIOD_FRAMES then MAX_PERIOD_FRAMES
    else requested
  }

  /** floor(10^7 * frames / rate + 1/2), and nothing at rate zero. */
  function Period100ns(frames: nat, rate: nat): int {
    if rate == 0 then 0 else (2 * HNS_PER_SECOND * frames + rate) / (2 * rate)
  }

  function CeilDiv(a: nat, b: nat): nat
    requires b > 0
  {
    (a + b - 1) / b
  }

  function PeriodFrames(hns: int, rate: nat): nat {
    if hns <= 0 then 0 else Min(CeilDiv(hns * rate, HNS_PER_SECOND), U32_MAX)
  }

  function ExclusivePeriodBounds(minHns: int, rate: nat): Option<(nat, nat)> {
    var deviceMin := PeriodFrames(minHns, rate);
    if deviceMin <= MAX_PERIOD_FRAMES then Some((Max(deviceMin, MIN_PERIOD_FRAMES), MAX_PERIOD_FRAMES)) else None
  }

  lemma CeilDivBounds(a: nat, b: nat, q: int)
    requires b > 0
    ensures a <= q * b ==> CeilDiv(a, b) <= q
    ensures (q - 1) * b < a ==> q <= CeilDiv(a, b)
  {
    var c := CeilDiv(a, b);
    assert a + b - 1 == c * b + (a + b - 1) % b;
    if a <= q * b {
      assert (c - 1) * b == c * b - b < q * b;
      Cancels(c - 1, q, b);
    }
    if (q - 1) * b < a {
      assert (q - 1) * b < c * b;
      Cancels(q - 1, c, b);
    }
  }

  /** Rounding to nearest: the period is within half a unit of the exact time. */
  lemma NearestUnit(frames: nat, rate: nat)
    requires rate > 0
    ensures var p := Period100ns(frames, rate);
      p >= 0 && 2 * p * rate <= 2 * HNS_PER_SECOND * frames + rate < 2 * p * rate + 2 * rate
  {
    var n := 2 * HNS_PER_SECOND * frames + rate;
    assert n == n / (2 * rate) * (2 * rate) + n % (2 * rate);
  }

  lemma RoundTripWithinOne(frames: nat, rate: nat)
    requires frames <= U32_MAX && 1 <= rate <= MAX_EXACT_RATE
    ensures frames <= PeriodFrames(Period100ns(frames, rate), rate) <= frames + 1
  {
    var p := Period100ns(frames, rate);
    NearestUnit(frames, rate);
    if p > 0 {
      CeilDivBounds(p * rate, HNS_PER_SECOND, frames);
      CeilDivBounds(p * rate, HNS_PER_SECOND, frames + 1);
    }
  }

  /** Above that rate a single frame is less than half a unit, and is lost. */
  lemma OneFrameIsLost(rate: nat)
    requires rate > MAX_EXACT_RATE
    ensures PeriodFrames(Period100ns(1, rate), rate) == 0
  {
    NearestUnit(1, rate);
    assert (Period100ns(1, rate) - 1) * rate < 0;
  }

  /** The advertised ceiling on the round trip is exact: it holds for every u32
      frame count at a rate if and only if the rate is from 1 to 20 MHz. */
  lemma RoundTripIffRate(rate: nat)
    ensures (forall f: nat :: f <= U32_MAX ==> f <= PeriodFrames(Period100ns(f, rate), rate) <= f + 1)
       <==> 1 <= rate <= MAX_EXACT_RATE
  {
    if 1 <= rate <= MAX_EXACT_RATE {
      forall f: nat | f <= U32_MAX
        ensures f <= PeriodFrames(Period100ns(f, rate), rate) <= f + 1
      {
        RoundTripWithinOne(f, rate);
      }
    } else if rate > MAX_EXACT_RATE {
      OneFrameIsLost(rate);
    } else {
      assert PeriodFrames(Period100ns(1, rate), rate) == 0;
    }
  }

  lemma NearestIsDownIff(p: int, q: int, m: nat, r: nat)
    requires m < r && 2 * (p * r) <= 2 * (q * r) + 2 * m + r < 2 * (p * r) + 2 * r
    ensures p * r <= q * r + m <==> 2 * m < r
  {
    Cancels(p, q + 2, r);
    Cancels(q, p + 1, r);
    assert p == q || p == q + 1;
  }

  /** The conversion to 100 ns units rounds down exactly when less than half a
      unit is left over. */
  lemma RoundsDownIff(frames: nat, rate: nat)
    requires rate > 0
    ensures Period100ns(frames, rate) * rate <= frames * HNS_PER_SECOND
       <==> 2 * (HNS_PER_SECOND * frames % rate) < rate
  {
    var n := HNS_PER_SECOND * frames;
    NearestUnit(frames, rate);
    NearestIsDownIff(Period100ns(frames, rate), n / rate, n % rate, rate);
  }

  /** Which of the two answers comes back: the count itself exactly when the
      conversion rounded down. */
  lemma RoundTripExactIff(frames: nat, rate: nat)
    requires frames < U32_MAX && 1 <= rate <= MAX_EXACT_RATE
    ensures PeriodFrames(Period100ns(frames, rate), rate) == frames
       <==> 2 * (HNS_PER_SECOND * frames % rate) < rate
  {
    RoundTripWithinOne(frames, rate);
    RoundsDownIff(frames, rate);
    var p := Period100ns(frames, rate);
    NearestUnit(frames, rate);
    if p > 0 {
      CeilDivBounds(p * rate, HNS_PER_SECOND, frames);
      CeilDivBounds(p * rate, HNS_PER_SECOND, frames + 1);
    }
  }

  /** Advertised bounds are never inverted, lie inside the range this backend
      asks for, start at the larger of its own floor and the driver's minimum, and
      are absent exactly when that minimum is above the ceiling. */
  lemma BoundsAreAskable(minHns: int, rate: nat)
    ensures var b := ExclusivePeriodBounds(minHns, rate);
      && (b.None? <==> PeriodFrames(minHns, rate) > MAX_PERIOD_FRAMES)
      && (b.Some? ==>
            && MIN_PERIOD_FRAMES <= b.value.0 <= b.value.1 <= MAX_PERIOD_FRAMES
            && b.value.0 == Max(32, PeriodFrames(minHns, rate)) && b.value.1 == 4_800
            && forall f: nat :: ClampPeriodFrames(f) == f <==> MIN_PERIOD_FRAMES <= f <= b.value.1)
    ensures forall f: nat :: ClampPeriodFrames(f) == if f < 32 then 32 else if f <= 4_800 then f else 4_800
  {
  }

  /** Outside the ordinary range: no period is no frames, no rate is no period, and
      a count past u32 saturates. */
  lemma PeriodsOutOfRange(hns: int, frames: nat, rate: nat)
    ensures Period100ns(frames, 0) == 0
    ensures hns <= 0 || rate == 0 ==> PeriodFrames(hns, rate) == 0
    ensures hns > 0 && hns * rate > U32_MAX * HNS_PER_SECOND ==> PeriodFrames(hns, rate) == U32_MAX
  {
    if hns > 0 {
      CeilDivBounds(hns * rate, HNS_PER_SECOND, U32_MAX + 1);
      CeilDivBounds(0, HNS_PER_SECOND, 0);
    }
  }

  /** Asking a driver for its own minimum never falls short of it: a period
      converted to frames covers at least the time it was converted from. */
  lemma PeriodFramesCovers(hns: int, rate: nat)
    requires 0 < hns && hns * rate <= U32_MAX * HNS_PER_SECOND
    ensures var f := PeriodFrames(hns, rate);
      (f - 1) * HNS_PER_SECOND < hns * rate <= f * HNS_PER_SECOND
  {
    var n := hns * rate;
    var c := CeilDiv(n, HNS_PER_SECOND);
    CeilDivBounds(n, HNS_PER_SECOND, U32_MAX);
    assert n + HNS_PER_SECOND - 1 == c * HNS_PER_SECOND + (n + HNS_PER_SECOND - 1) % HNS_PER_SECOND;
  }
}
