/** The peak hold of one level meter. A level is its reading in decibels, already
    clamped to the scale; what the logarithm does is not part of this model.
    Fractions and alphas are read as exact. */
module PeakHold {
  import opened Wrappers

  const FLOOR_DB: real := -60.0
  const HOLD_SECS: real := 1.5
  const HOLD_FADE_SECS: real := 0.5

  type Decibels = d: real | -60.0 <= d <= 0.0 witness 0.0

  // -------------------------------------------------------------------------
  // Durations in frames
  // -------------------------------------------------------------------------

  function RoundHalfAway(x: real): int {
    if x >= 0.0 then (x + 0.5).Floor else -((-x + 0.5).Floor)
  }

  /** A duration in frames: never zero, and within half a frame of the duration
      unless that is below half a frame itself. */
  function FramesFor(secs: real, fps: nat): (n: nat)
    ensures n >= 1
    ensures secs * fps as real >= 0.5 ==> -0.5 <= n as real - secs * fps as real <= 0.5
    ensures secs * fps as real < 0.5 ==> n == 1
  {
    Max(RoundHalfAway(secs * fps as real), 1)
  }

  datatype Timing = Timing(hold: nat, fade: nat) {
    predicate Positive() { hold > 0 && fade > 0 }
    function Total(): nat { hold + fade }
  }

  function TimingFor(fps: nat): (t: Timing)
    ensures t.Positive()
    ensures fps > 0 ==> -0.5 <= t.hold as real - 1.5 * fps as real <= 0.5
    ensures fps > 0 ==> -0.5 <= t.fade as real - 0.5 * fps as real <= 0.5
  {
    Timing(FramesFor(HOLD_SECS, fps), FramesFor(HOLD_FADE_SECS, fps))
  }

  // -------------------------------------------------------------------------
  // The hold automaton
  // -------------------------------------------------------------------------

  datatype Hold = Hold(frac: real, setFrame: nat, active: bool)

  const IDLE: Hold := Hold(0.0, 0, false)

  /** One drawing of the meter: for which frame, of which peak, and whether the
      member was connected. */
  datatype Tick = Tick(frame: nat, peak: Decibels, connected: bool)

  function Frac(db: Decibels): (f: real)
    ensures 0.0 <= f <= 1.0
  {
    (db - FLOOR_DB) / -FLOOR_DB
  }

  /** The scale is linear from the floor to the ceiling, and a level is live from half
      a decibel above the floor. */
  lemma ScaleIs(a: Decibels, b: Decibels)
    ensures Frac(-60.0) == 0.0 && Frac(0.0) == 1.0 && 60.0 * (Frac(a) - Frac(b)) == a - b
    ensures Frac(a) < Frac(b) <==> a < b
    ensures Live(a) <==> a > -59.5
  {
  }

  predicate Live(db: Decibels) {
    db > FLOOR_DB + 0.5
  }

  /** Saturating subtraction: a frame before the set frame is of age zero. */
  function Age(h: Hold, frame: nat): nat {
    if frame < h.setFrame then 0 else frame - h.setFrame
  }

  predicate Resets(h: Hold, t: Timing, tick: Tick) {
    !h.active || Frac(tick.peak) >= h.frac || Age(h, tick.frame) >= t.Total()
  }

  function Settled(h: Hold, t: Timing, tick: Tick): Hold {
    if !tick.connected then h.(active := false)
    else if Resets(h, t, tick) then Hold(Frac(tick.peak), tick.frame, Live(tick.peak)) else h
  }

  function Alpha(h: Hold, t: Timing, frame: nat): real
    requires t.Positive()
  {
    var age := Age(h, frame);
    if age <= t.hold then 1.0 else 1.0 - (age - t.hold) as real / t.fade as real
  }

  /** A meter drawn for every tick of a run, from the idle hold. The frames of a
      run may come in any order. */
  function After(t: Timing, run: seq<Tick>): Hold {
    if run == [] then IDLE else Settled(After(t, run[..|run| - 1]), t, run[|run| - 1])
  }

  predicate StaysBelow(h: Hold, t: Timing, tick: Tick) {
    tick.connected && Frac(tick.peak) < h.frac && Age(h, tick.frame) < t.hold + t.fade
  }

  /** Tick j set the hold, and nothing since has reached it or outlived it. */
  ghost predicate HeldSince(t: Timing, run: seq<Tick>, j: nat, h: Hold) {
    && j < |run|
    && h == Hold(Frac(run[j].peak), run[j].frame, true) && Live(run[j].peak) && run[j].connected
    && forall k | j < k < |run| :: StaysBelow(h, t, run[k])
  }

  /** While a hold is active it is the peak of the tick that set it and strictly
      above every peak since; and it is inactive only on a silent or absent meter. */
  lemma {:induction false} HeldPeakDominates(t: Timing, run: seq<Tick>)
    requires run != []
    ensures var h := After(t, run); h.active ==> exists j :: HeldSince(t, run, j, h)
    ensures !After(t, run).active ==> !Live(run[|run| - 1].peak) || !run[|run| - 1].connected
  {
    var last := |run| - 1;
    var before := After(t, run[..last]);
    if !run[last].connected {
    } else if Resets(before, t, run[last]) {
      if Live(run[last].peak) {
        assert HeldSince(t, run, last, After(t, run));
      }
    } else {
      HeldPeakDominates(t, run[..last]);
      var j :| HeldSince(t, run[..last], j, before);
      assert HeldSince(t, run, j, before);
    }
  }

  /** A held peak stays, whole, through every lower peak inside its time. */
  lemma {:induction false} HoldPersists(t: Timing, run: seq<Tick>, later: seq<Tick>)
    requires After(t, run).active
    requires forall k | 0 <= k < |later| :: StaysBelow(After(t, run), t, later[k])
    ensures After(t, run + later) == After(t, run)
    decreases |later|
  {
    if later == [] {
      assert run + later == run;
    } else {
      var last := |later| - 1;
      HoldPersists(t, run, later[..last]);
      assert (run + later)[..|run + later| - 1] == run + later[..last];
    }
  }

  /** Drawn, a hold is never invisible and never brighter than the segment. */
  lemma AlphaStaysVisible(h: Hold, t: Timing, tick: Tick)
    requires t.Positive() && tick.connected
    ensures var now := Settled(h, t, tick);
      && 0.0 < Alpha(now, t, tick.frame) <= 1.0
      && (Alpha(now, t, tick.frame) == 1.0 <==> Age(now, tick.frame) <= t.hold)
  {
    var now := Settled(h, t, tick);
    var age := Age(now, tick.frame);
    assert age < t.Total();
    if age > t.hold {
      FractionIsProper(age - t.hold, t.fade);
    }
  }

  /** How a hold fades once its span is over: by equal steps a frame, to nothing when
      the fade is. */
  lemma AlphaFades(h: Hold, t: Timing, frame: nat, j: nat)
    requires t.Positive() && frame == h.setFrame + t.hold + j && j <= t.fade
    ensures Alpha(h, t, frame) == 1.0 - j as real / t.fade as real
    ensures j == t.fade ==> Alpha(h, t, frame) == 0.0
  {
  }

  /** A frame drawn out of order, from before the hold was set, counts as its first. */
  lemma EarlierFramesAreFresh(h: Hold, t: Timing, tick: Tick)
    requires t.Positive() && tick.frame <= h.setFrame && tick.connected && h.active && Frac(tick.peak) < h.frac
    ensures Alpha(h, t, tick.frame) == 1.0 && Settled(h, t, tick) == h
  {
  }

  lemma FractionIsProper(a: nat, b: nat)
    requires 0 < a < b
    ensures 0.0 < a as real / b as real < 1.0
  {
  }

  /** A peak held from tick j is drawn fully lit at every frame of its hold span
      that is reached before a peak as high. */
  lemma LitForTheHoldSpan(t: Timing, run: seq<Tick>, later: seq<Tick>)
    requires t.Positive() && After(t, run).active && later != []
    requires forall k | 0 <= k < |later| ::
      StaysBelow(After(t, run), t, later[k]) && Age(After(t, run), later[k].frame) <= t.hold
    ensures After(t, run + later) == After(t, run)
    ensures Alpha(After(t, run + later), t, later[|later| - 1].frame) == 1.0
  {
    HoldPersists(t, run, later);
  }

  /** Settling twice on one frame is settling once. */
  lemma SettledTwice(h: Hold, t: Timing, tick: Tick)
    requires t.Positive()
    ensures Settled(Settled(h, t, tick), t, tick) == Settled(h, t, tick)
  {
  }

  // -------------------------------------------------------------------------
  // Segments
  // -------------------------------------------------------------------------

  function SegmentMiddle(i: nat, count: nat): real
    requires count > 0
  {
    (i as real + 0.5) / count as real
  }

  function SegmentOf(frac: real, count: nat): (s: nat)
    requires 0.0 <= frac && count > 0
    ensures s < count
    ensures s as real <= frac * count as real && (s < count - 1 ==> frac * count as real < (s + 1) as real)
  {
    var x := frac * count as real;
    assert x >= 0.0;
    Min(x.Floor, count - 1)
  }

  lemma SegmentGrows(a: real, b: real, count: nat)
    requires 0.0 <= a <= b && count > 0
    ensures SegmentOf(a, count) <= SegmentOf(b, count)
  {
    var c := count as real;
    assert (b - a) * c >= 0.0;
    assert a * c <= b * c;
  }

  /** Lit by the level itself: under the rms, or the live peak's own segment. */
  predicate LitByLevel(peak: Decibels, rms: Decibels, count: nat, i: nat)
    requires count > 0
  {
    SegmentMiddle(i, count) <= Frac(rms) || (Live(peak) && i == SegmentOf(Frac(peak), count))
  }

  /** The alpha segment i is painted with over the unlit track, if at all. */
  function Segment(h: Hold, t: Timing, tick: Tick, rms: Decibels, count: nat, i: nat): Option<real>
    requires t.Positive() && count > 0 && h.frac >= 0.0
  {
    if LitByLevel(tick.peak, rms, count, i) then Some(1.0)
    else if h.active && i == SegmentOf(h.frac, count) then Some(Alpha(h, t, tick.frame))
    else None
  }

  /** A meter as one call paints it, starting from hold h. */
  function Painted(h: Hold, t: Timing, tick: Tick, rms: Decibels, count: nat): (lit: seq<Option<real>>)
    requires t.Positive() && count > 0 && h.frac >= 0.0
    ensures |lit| == count
  {
    var now := Settled(h, t, tick);
    seq(count, i requires 0 <= i < count => if tick.connected then Segment(now, t, tick, rms, count, i) else None)
  }

  /** What is painted on a connected meter: full, what lies under the rms and the live
      peak's segment; faded, the segment of a hold that is up; nothing else. And on
      an absent one, nothing at all. */
  lemma PaintedIs(h: Hold, t: Timing, tick: Tick, rms: Decibels, count: nat, i: nat)
    requires t.Positive() && count > 0 && h.frac >= 0.0 && i < count
    ensures var now := Settled(h, t, tick);
      var lit := (i as real + 0.5) / count as real <= Frac(rms)
                 || (tick.peak > -59.5 && i == SegmentOf(Frac(tick.peak), count));
      Painted(h, t, tick, rms, count)[i] ==
        if !tick.connected then None
        else if lit then Some(1.0)
        else if now.active && i == SegmentOf(now.frac, count) then Some(Alpha(now, t, tick.frame))
        else None
  {
  }

  /** The held segment is never below the live one. */
  lemma HoldIsAtOrAbovePeak(h: Hold, t: Timing, tick: Tick, count: nat)
    requires count > 0 && h.frac >= 0.0 && tick.connected
    ensures SegmentOf(Frac(tick.peak), count) <= SegmentOf(Settled(h, t, tick).frac, count)
  {
    SegmentGrows(Frac(tick.peak), Settled(h, t, tick).frac, count);
  }

  /** Drawing the same frame with the same level again changes neither the hold
      nor a pixel. */
  lemma RedrawIsIdempotent(h: Hold, t: Timing, tick: Tick, rms: Decibels, count: nat)
    requires t.Positive() && count > 0 && h.frac >= 0.0
    ensures var now := Settled(h, t, tick);
      Settled(now, t, tick) == now && Painted(now, t, tick, rms, count) == Painted(h, t, tick, rms, count)
  {
    SettledTwice(h, t, tick);
  }

  /** The hold a meter carries into a frame shows on it: it is still up, above the
      live peak and in its time, on a segment the level does not light anyway. */
  predicate Shows(h: Hold, t: Timing, tick: Tick, rms: Decibels, count: nat)
    requires count > 0 && h.frac >= 0.0
  {
    && h.active && StaysBelow(h, t, tick)
    && !LitByLevel(tick.peak, rms, count, SegmentOf(h.frac, count))
  }

  /** Exactly when a meter's pixels depend on what was drawn before: when the hold
      it carries shows. */
  lemma PixelsRememberIff(h: Hold, t: Timing, tick: Tick, rms: Decibels, count: nat)
    requires t.Positive() && count > 0 && h.frac >= 0.0
    ensures Painted(h, t, tick, rms, count) != Painted(IDLE, t, tick, rms, count) <==> Shows(h, t, tick, rms, count)
  {
    var was, anew := Painted(h, t, tick, rms, count), Painted(IDLE, t, tick, rms, count);
    if Shows(h, t, tick, rms, count) {
      var s := SegmentOf(h.frac, count);
      assert was[s].Some?;
      assert s != SegmentOf(Frac(tick.peak), count) || !Live(tick.peak);
      assert anew[s] == None;
    } else {
      forall i | 0 <= i < count ensures was[i] == anew[i] {
      }
    }
  }
}
