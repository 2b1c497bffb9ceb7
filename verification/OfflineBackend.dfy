/** The offline backend and its streams as objects: which rung a stream opens on,
    refusals, the modelled unplug, and the pump. */
module OfflineBackend {
  import opened Arithmetic
  import opened OfflineStream
  import opened Rates
  import opened Wrappers

  /** What bridges one direction from its device's clock to the session's. */
  datatype DeviceRung =
    | RungNative
    | RungClockSet(from: nat)
    | RungOsConverted(device: nat)
    | RungConverted(device: nat)
  {
    /** With nothing to bridge, every rung is the native one. */
    function At(session: nat): DeviceRung {
      match this
      case RungClockSet(from) => if from == session then RungNative else this
      case RungOsConverted(device) => if device == session then RungNative else this
      case RungConverted(device) => if device == session then RungNative else this
      case RungNative => this
    }

    function StreamRate(session: nat): nat {
      match this
      case RungConverted(device) => device
      case _ => session
    }

    function Outcome(): RateOutcome {
      match this
      case RungNative => Native
      case RungClockSet(from) => ClockSet(from)
      case RungOsConverted(device) => OsConverted(device)
      case RungConverted(device) => Resampled(device)
    }
  }

  /** The reported outcome and the clock agree: Resampled, at the stream's clock,
      exactly when that clock is not the session's. */
  lemma RungReportsItsClock(rung: DeviceRung, session: nat)
    ensures var r := rung.At(session);
      Bridged(session, r.StreamRate(session), r.StreamRate(session) != session, r.Outcome())
  {
  }

  /** What each rung means for a device at another rate, and that none of them means
      anything at the session's own. */
  lemma RungsAre(session: nat, other: nat)
    ensures var r := RungNative.At(session); r.StreamRate(session) == session && r.Outcome() == Native
    ensures var r := RungClockSet(other).At(session);
      r.StreamRate(session) == session && r.Outcome() == if other == session then Native else ClockSet(other)
    ensures var r := RungOsConverted(other).At(session);
      r.StreamRate(session) == session && r.Outcome() == if other == session then Native else OsConverted(other)
    ensures var r := RungConverted(other).At(session);
      r.StreamRate(session) == other && r.Outcome() == if other == session then Native else Resampled(other)
  {
  }

  datatype AudioError = DeviceGone | Unsupported | Backend

  // -------------------------------------------------------------------------
  // Schedules
  // -------------------------------------------------------------------------

  function Repeat(x: nat, n: nat): seq<nat> {
    if n == 0 then [] else Repeat(x, n - 1) + [x]
  }

  lemma {:induction false} SumRepeat(x: nat, n: nat)
    ensures Sum(Repeat(x, n)) == n * x
  {
    if n > 0 {
      SumRepeat(x, n - 1);
      assert Repeat(x, n)[..|Repeat(x, n)| - 1] == Repeat(x, n - 1);
    }
  }

  lemma FullPeriods(p: nat, k: nat, left: nat)
    requires left < p
    ensures (Sum(Repeat(p, k)) + left) / p == k && (Sum(Repeat(p, k)) + left) % p == left
  {
    SumRepeat(p, k);
    QuotientAndRest(k, p, left);
  }

  /** The deliveries a list of pumps causes: one per pump on a device that honours
      the request, one per full period on a device with its own. */
  function Schedule(period: Option<nat>, pumps: seq<nat>): seq<nat>
    requires period.Some? ==> period.value > 0
  {
    match period
    case None => pumps
    case Some(p) => Repeat(p, Sum(pumps) / p)
  }

  function Pending(period: Option<nat>, pumps: seq<nat>): nat
    requires period.Some? ==> period.value > 0
  {
    match period
    case None => 0
    case Some(p) => Sum(pumps) % p
  }

  /** With a device period, two pump schedules of equal total drive the identical
      sequence of handler callbacks; without one, the callbacks carry the same
      audio and ask for the same number of frames. */
  lemma PumpSizesDoNotMatter(c: Clocks, input: seq<real>, period: Option<nat>, a: seq<nat>, b: seq<nat>)
    requires c.captureRate > 0 && (period.Some? ==> period.value > 0) && Sum(a) == Sum(b)
    ensures var x, y := Calls(c, input, Schedule(period, a)), Calls(c, input, Schedule(period, b));
      && (period.Some? ==> x == y)
      && Captured(x) == Captured(y) && Asked(x) == Asked(y)
      && Pending(period, a) == Pending(period, b)
      && (period.Some? ==> Pending(period, a) < period.value)
  {
    DeliveriesComeTo(c, input, Schedule(period, a));
    DeliveriesComeTo(c, input, Schedule(period, b));
  }

  // -------------------------------------------------------------------------
  // The stream
  // -------------------------------------------------------------------------

  class WavStream {
    const backend: WavBackend
    const clocks: Clocks
    const input: seq<real>
    const period: Option<nat>
    const loseAfter: Option<nat>
    const captureOutcome: RateOutcome
    const playbackOutcome: RateOutcome
    var pos: nat
    var exhausted: bool
    var playDebt: real
    var pumpedFrames: nat
    var errored: bool
    var pending: nat
    var calls: seq<Call>          // everything the handler has been called with
    ghost var deliveries: seq<nat>
    ghost var pumps: seq<nat>     // everything the caller has pumped
    ghost var full: nat           // whole periods delivered
    ghost var reported: bool      // the caller declared the device lost

    ghost predicate WellClocked() {
      clocks.captureRate > 0 && (period.Some? ==> period.value > 0)
    }

    /** Each direction runs at its rung's clock and reports its rung's outcome. */
    predicate OnRungs(capture: DeviceRung, playback: DeviceRung, session: nat) {
      && clocks.captureRate == capture.StreamRate(session) && captureOutcome == capture.Outcome()
      && clocks.playbackRate == playback.StreamRate(session) && playbackOutcome == playback.Outcome()
    }

    /** Every field is a function of the deliveries made so far. */
    ghost predicate Heard()
      reads this
    {
      var frames := Sum(deliveries);
      && WellClocked()
      && calls == Calls(clocks, input, deliveries)
      && pos == Min(|input|, frames * clocks.ch)
      && (exhausted <==> frames * clocks.ch > |input|)
      && playDebt == Debt(frames, clocks.captureRate, clocks.playbackRate)
      && pumpedFrames == frames
    }

    /** The device is lost once the threshold is reached, or once declared so. */
    ghost predicate Settled()
      reads this, backend
    {
      && Heard()
      && (errored <==> reported || (loseAfter.Some? && pumpedFrames >= loseAfter.value))
      && (loseAfter.Some? && pumpedFrames >= loseAfter.value ==> backend.lossFired)
    }

    /** And between pumps every full period has been delivered: see Scheduled. */
    ghost predicate Valid()
      reads this, backend
    {
      && Settled()
      && (if period.None? then deliveries == pumps && pending == 0
          else && deliveries == Repeat(period.value, full) && pending < period.value
               && pumpedFrames + pending == Sum(pumps))
    }

    lemma Scheduled()
      requires Valid()
      ensures deliveries == Schedule(period, pumps) && pending == Pending(period, pumps)
    {
      if period.Some? { FullPeriods(period.value, full, pending); }
    }

    constructor (backend: WavBackend, clocks: Clocks, input: seq<real>, period: Option<nat>,
                 loseAfter: Option<nat>, captureOutcome: RateOutcome, playbackOutcome: RateOutcome)
      requires clocks.captureRate > 0 && (period.Some? ==> period.value > 0)
      requires loseAfter == Some(0) ==> backend.lossFired
      ensures Valid() && pumps == [] && calls == [] && !reported
      ensures this.backend == backend && this.clocks == clocks && this.input == input
      ensures this.period == period && this.loseAfter == loseAfter
      ensures this.captureOutcome == captureOutcome && this.playbackOutcome == playbackOutcome
    {
      this.backend, this.clocks, this.input, this.period := backend, clocks, input, period;
      this.loseAfter, this.captureOutcome, this.playbackOutcome := loseAfter, captureOutcome, playbackOutcome;
      pos, exhausted, playDebt, pumpedFrames, pending, calls := 0, false, 0.0, 0, 0, [];
      errored := loseAfter == Some(0);
      deliveries, pumps, full, reported := [], [], 0, false;
      new;
      DebtOfNothing(clocks.captureRate, clocks.playbackRate);
    }

    method Pump(frames: nat)
      requires Valid()
      modifies this, backend`lossFired
      ensures Valid() && pumps == old(pumps) + [frames] && reported == old(reported)
      ensures old(backend.lossFired) ==> backend.lossFired
    {
      assert (pumps + [frames])[..|pumps + [frames]| - 1] == pumps;
      pumps := pumps + [frames];
      if period.None? {
        Deliver(frames);
        return;
      }
      pending := pending + frames;
      DeliverPeriods(period.value);
    }

    /** Run the handler once per full period the pending frames cover. */
    method DeliverPeriods(p: nat)
      requires Settled() && p > 0 && deliveries == Repeat(p, full)
      modifies this`pending, this`full, this`pos, this`exhausted, this`playDebt, this`pumpedFrames,
               this`errored, this`calls, this`deliveries, backend`lossFired
      ensures Settled() && deliveries == Repeat(p, full) && pending < p
      ensures pumpedFrames + pending == old(pumpedFrames + pending)
      ensures old(backend.lossFired) ==> backend.lossFired
    {
      while pending >= p
        invariant Settled() && deliveries == Repeat(p, full)
        invariant pumpedFrames + pending == old(pumpedFrames + pending)
        invariant old(backend.lossFired) ==> backend.lossFired
        decreases pending
      {
        Deliver(p);
        pending := pending - p;
        full := full + 1;
      }
    }

    /** The handler's two calls, then the loss threshold. */
    method Deliver(frames: nat)
      requires Settled()
      modifies this`pos, this`exhausted, this`playDebt, this`pumpedFrames, this`errored, this`calls,
               this`deliveries, backend`lossFired
      ensures Settled() && deliveries == old(deliveries) + [frames] && pumpedFrames == old(pumpedFrames) + frames
      ensures var lost := loseAfter.Some? && pumpedFrames >= loseAfter.value;
        && (errored <==> old(errored) || lost)
        && (backend.lossFired <==> old(backend.lossFired) || lost)
    {
      CallHandler(frames);
      if loseAfter.Some? && pumpedFrames >= loseAfter.value {
        errored := true;
        backend.lossFired := true;
      }
    }

    method CallHandler(frames: nat)
      requires Heard()
      modifies this`pos, this`exhausted, this`playDebt, this`pumpedFrames, this`calls, this`deliveries
      ensures Heard() && deliveries == old(deliveries) + [frames] && pumpedFrames == old(pumpedFrames) + frames
    {
      OneMore(clocks, input, deliveries, frames);
      Read(frames, pumpedFrames);
      Play(frames, pumpedFrames);
      deliveries := deliveries + [frames];
      pumpedFrames := pumpedFrames + frames;
    }

    /** The capture callback: the next input, then silence. */
    method Read(frames: nat, ghost from: nat)
      requires pos == Min(|input|, from * clocks.ch) && (exhausted <==> from * clocks.ch > |input|)
      modifies this`pos, this`exhausted, this`calls
      ensures calls == old(calls) + [OnCapture(Window(input, from * clocks.ch, frames * clocks.ch))]
      ensures pos == Min(|input|, from * clocks.ch + frames * clocks.ch)
      ensures exhausted <==> from * clocks.ch + frames * clocks.ch > |input|
    {
      var samples := frames * clocks.ch;
      var available := Min(|input| - pos, samples);
      var buffer := input[pos..pos + available] + seq(samples - available, _ => 0.0);
      ReadIsWindow(input, from * clocks.ch, samples, buffer);
      pos := pos + available;
      if available < samples {
        exhausted := true;
      }
      calls := calls + [OnCapture(buffer)];
    }

    /** The playback callback: the whole frames its own clock owes. */
    method Play(frames: nat, ghost from: nat)
      requires clocks.captureRate > 0 && playDebt == Debt(from, clocks.captureRate, clocks.playbackRate)
      modifies this`playDebt, this`calls
      ensures playDebt == Debt(from + frames, clocks.captureRate, clocks.playbackRate)
      ensures var to := Owed(from + frames, clocks.captureRate, clocks.playbackRate);
        var was := Owed(from, clocks.captureRate, clocks.playbackRate);
        was <= to && calls == old(calls) + [OnPlayback(to - was)]
    {
      DebtStep(from, frames, clocks.captureRate, clocks.playbackRate);
      playDebt := playDebt + frames as real * clocks.playbackRate as real / clocks.captureRate as real;
      var playFrames := playDebt.Floor;
      playDebt := playDebt - playFrames as real;
      calls := calls + [OnPlayback(playFrames)];
    }

    method ReportDeviceLost()
      requires Valid()
      modifies this`errored, this`reported
      ensures Valid() && errored && reported
    {
      errored := true;
      reported := true;
    }
  }

  lemma DebtOfNothing(captureRate: nat, playbackRate: nat)
    requires captureRate > 0
    ensures Debt(0, captureRate, playbackRate) == 0.0
  {
    DebtStaysBelowOne(0, captureRate, playbackRate);
    assert 0 * playbackRate == 0;
  }

  lemma ReadIsWindow(input: seq<real>, from: nat, n: nat, buffer: seq<real>)
    requires var pos := Min(|input|, from); var available := Min(|input| - pos, n);
      buffer == input[pos..pos + available] + seq(n - available, _ => 0.0)
    ensures buffer == Window(input, from, n)
  {
    forall i | 0 <= i < n
      ensures buffer[i] == SampleAt(input, from + i)
    {
    }
  }

  // -------------------------------------------------------------------------
  // The backend
  // -------------------------------------------------------------------------

  class WavBackend {
    const rungs: (DeviceRung, DeviceRung)
    const reopenRungs: Option<(DeviceRung, DeviceRung)>
    const devicePeriod: Option<nat>
    const loseAfter: Option<nat>
    const lossRepeats: bool
    const refuseReopen: Option<AudioError>
    const refuseReopens: Option<nat>
    var lossFired: bool
    var opens: nat

    constructor (rungs: (DeviceRung, DeviceRung), reopenRungs: Option<(DeviceRung, DeviceRung)>,
                 devicePeriod: Option<nat>, loseAfter: Option<nat>, lossRepeats: bool,
                 refuseReopen: Option<AudioError>, refuseReopens: Option<nat>)
      ensures opens == 0 && !lossFired
    {
      this.rungs, this.reopenRungs, this.devicePeriod := rungs, reopenRungs, devicePeriod;
      this.loseAfter, this.lossRepeats := loseAfter, lossRepeats;
      this.refuseReopen, this.refuseReopens := refuseReopen, refuseReopens;
      lossFired, opens := false, 0;
    }

    /** Open number n (from zero) is one the backend was told to refuse. */
    predicate Refuses(n: nat) {
      n > 0 && refuseReopen.Some? && (refuseReopens.None? || n <= refuseReopens.value)
    }

    function RungsFor(n: nat): (DeviceRung, DeviceRung) {
      if n > 0 && reopenRungs.Some? then reopenRungs.value else rungs
    }

    /** An unplug happens once per backend unless it repeats: a stream opened
        after the loss was served carries no threshold, so only its own caller can
        declare it lost. Every open counts, the refused ones included. */
    method OpenOffline(session: nat, channels: nat, input: Result<seq<real>, AudioError>)
      returns (r: Result<WavStream, AudioError>)
      requires devicePeriod.Some? ==> devicePeriod.value > 0
      requires RungsFor(opens).0.At(session).StreamRate(session) > 0
      modifies this
      ensures opens == old(opens) + 1
      ensures lossFired <==> old(lossFired) || (r.Ok? && r.value.loseAfter == Some(0))
      ensures Refuses(old(opens)) ==> r == Err(refuseReopen.value)
      ensures Refuses(old(opens)) <==>
        refuseReopen.Some? && old(opens) >= 1 && (refuseReopens.Some? ==> old(opens) <= refuseReopens.value)
      ensures RungsFor(old(opens)) == (if old(opens) >= 1 && reopenRungs.Some? then reopenRungs.value else rungs)
      ensures !Refuses(old(opens)) && channels == 0 ==> r == Err(Unsupported)
      ensures !Refuses(old(opens)) && channels > 0 ==> (r.Ok? <==> input.Ok?)
      ensures r.Ok? ==>
        var w := r.value;
        && fresh(w) && w.backend == this && w.Valid() && w.pumps == [] && !w.reported
        && w.input == input.value && w.period == devicePeriod && w.clocks.ch == channels
        && w.loseAfter == (if old(lossFired) && !lossRepeats then None else loseAfter)
        && (w.errored <==> w.loseAfter == Some(0))
        && w.OnRungs(RungsFor(old(opens)).0.At(session), RungsFor(old(opens)).1.At(session), session)
        && Bridged(session, w.clocks.captureRate, w.clocks.captureRate != session, w.captureOutcome)
        && Bridged(session, w.clocks.playbackRate, w.clocks.playbackRate != session, w.playbackOutcome)
    {
      var n := opens;
      opens := opens + 1;
      if Refuses(n) {
        return Err(refuseReopen.value);
      }
      var (captureRung, playbackRung) := RungsFor(n);
      captureRung, playbackRung := captureRung.At(session), playbackRung.At(session);
      var captureRate, playbackRate := captureRung.StreamRate(session), playbackRung.StreamRate(session);
      if channels == 0 {
        return Err(Unsupported);
      }
      if input.Err? {
        return Err(input.error);
      }
      var loss := if lossRepeats || !lossFired then loseAfter else None;
      if loss == Some(0) {
        lossFired := true;
      }
      RungReportsItsClock(RungsFor(n).0, session);
      RungReportsItsClock(RungsFor(n).1, session);
      var stream := new WavStream(this, Clocks(channels, captureRate, playbackRate), input.value, devicePeriod,
                                  loss, captureRung.Outcome(), playbackRung.Outcome());
      return Ok(stream);
    }
  }
}
