/** The ring pair between the device callbacks and the engine, under every
    interleaving of three threads: the capture callback, the playback callback
    and the engine. Ring pushes and pops are atomic bounded-queue operations; a
    capture callback is a push and a count, a playback callback is a fill read, a
    fetch_min, a pop and a count. Counters are unbounded. */
module CallbackBridge {
  import opened Wrappers

  /** What the mark holds while its window is empty. */
  const NO_LOW_WATER: nat := 0xFFFF_FFFF_FFFF_FFFF

  datatype CaptureThread = CaptureIdle | CapturePushed(short: bool)

  /** `landed` is history: what the engine pushed since the fill was read. */
  datatype PlaybackThread =
    | PlaybackIdle
    | FillRead(want: nat, fill: nat, landed: nat)
    | FillNoted(want: nat, fill: nat, landed: nat)
    | PlaybackPopped(short: bool)

  /** A push into a ring: what was offered, the room there was, what was taken. */
  datatype Push = Push(samples: seq<real>, room: nat, accepted: nat)

  datatype PlaybackCall = PlaybackCall(want: nat, fill: nat, landed: nat, out: seq<real>, popped: nat)

  /** The shared state, then what each side has seen of it so far. */
  datatype State = State(
    captureCapacity: nat,
    playoutCapacity: nat,
    captureRing: seq<real>,
    playoutRing: seq<real>,
    overruns: nat,
    underruns: nat,
    lowWater: nat,
    capture: CaptureThread,
    playback: PlaybackThread,
    captureLog: seq<Push>,
    playoutLog: seq<Push>,
    playbackLog: seq<PlaybackCall>,
    pulled: seq<real>,
    pushed: seq<real>,
    noted: seq<nat>,               // every fill a fetch_min recorded
    takenAt: nat)                  // how many of them earlier takes covered

  datatype Step =
    | PushCapture(samples: seq<real>)
    | CountOverrun
    | ReadFill(want: nat)
    | NoteFill
    | PopPlayout
    | CountUnderrun
    | PullCaptured(want: nat)
    | PushPlayout(samples: seq<real>)
    | TakeLowWater

  predicate Init(s: State) {
    && s.playoutCapacity < NO_LOW_WATER
    && s.captureRing == [] && s.playoutRing == [] && s.overruns == 0 && s.underruns == 0
    && s.lowWater == NO_LOW_WATER && s.capture == CaptureIdle && s.playback == PlaybackIdle
    && s.captureLog == [] && s.playoutLog == [] && s.playbackLog == [] && s.pulled == [] && s.pushed == []
    && s.noted == [] && s.takenAt == 0
  }

  predicate Enabled(s: State, step: Step) {
    match step
    case PushCapture(_) => s.capture.CaptureIdle?
    case CountOverrun => s.capture.CapturePushed?
    case ReadFill(_) => s.playback.PlaybackIdle?
    case NoteFill => s.playback.FillRead?
    case PopPlayout => s.playback.FillNoted?
    case CountUnderrun => s.playback.PlaybackPopped?
    case _ => true
  }

  function Silence(n: nat): seq<real> {
    seq(n, _ => 0.0)
  }

  function Room(ring: seq<real>, capacity: nat): nat {
    if |ring| <= capacity then capacity - |ring| else 0
  }

  /** How much of a slice of n a bounded ring takes. */
  function Fits(ring: seq<real>, capacity: nat, n: nat): nat {
    Min(Room(ring, capacity), n)
  }

  function Landed(p: PlaybackThread, n: nat): PlaybackThread {
    match p
    case FillRead(want, fill, landed) => FillRead(want, fill, landed + n)
    case FillNoted(want, fill, landed) => FillNoted(want, fill, landed + n)
    case _ => p
  }

  function Next(s: State, step: Step): State
    requires Enabled(s, step)
  {
    match step
    case PushCapture(samples) =>
      var n := Fits(s.captureRing, s.captureCapacity, |samples|);
      s.(captureRing := s.captureRing + samples[..n], capture := CapturePushed(n < |samples|),
         captureLog := s.captureLog + [Push(samples, Room(s.captureRing, s.captureCapacity), n)])
    case CountOverrun => s.(capture := CaptureIdle, overruns := s.overruns + One(s.capture.short))
    case ReadFill(want) => s.(playback := FillRead(want, |s.playoutRing|, 0))
    case NoteFill =>
      s.(playback := FillNoted(s.playback.want, s.playback.fill, s.playback.landed),
         lowWater := Min(s.lowWater, s.playback.fill), noted := s.noted + [s.playback.fill])
    case PopPlayout =>
      var want := s.playback.want;
      var n := Min(|s.playoutRing|, want);
      s.(playoutRing := s.playoutRing[n..], playback := PlaybackPopped(n < want),
         playbackLog := s.playbackLog
           + [PlaybackCall(want, s.playback.fill, s.playback.landed, s.playoutRing[..n] + Silence(want - n), n)])
    case CountUnderrun => s.(playback := PlaybackIdle, underruns := s.underruns + One(s.playback.short))
    case PullCaptured(want) =>
      var n := Min(|s.captureRing|, want);
      s.(captureRing := s.captureRing[n..], pulled := s.pulled + s.captureRing[..n])
    case PushPlayout(samples) =>
      var n := Fits(s.playoutRing, s.playoutCapacity, |samples|);
      s.(playoutRing := s.playoutRing + samples[..n], pushed := s.pushed + samples[..n],
         playback := Landed(s.playback, n),
         playoutLog := s.playoutLog + [Push(samples, Room(s.playoutRing, s.playoutCapacity), n)])
    case TakeLowWater => s.(lowWater := NO_LOW_WATER, takenAt := |s.noted|)
  }

  /** What the engine reads when it takes the low water mark. */
  function LowWaterReading(s: State): Option<nat> {
    if s.lowWater == NO_LOW_WATER then None else Some(s.lowWater)
  }

  // -------------------------------------------------------------------------
  // What the logs say
  // -------------------------------------------------------------------------

  predicate CutShort(c: Push) {
    c.accepted < |c.samples|
  }

  predicate Underran(c: PlaybackCall) {
    c.popped < c.want
  }

  /** The accepted prefixes of the capture callbacks, end to end. */
  function Accepted(log: seq<Push>): seq<real> {
    if log == [] then []
    else
      var c := log[|log| - 1];
      Accepted(log[..|log| - 1]) + c.samples[..Min(c.accepted, |c.samples|)]
  }

  /** The ring samples the playback callbacks were given, end to end. */
  function Played(log: seq<PlaybackCall>): seq<real> {
    if log == [] then []
    else
      var c := log[|log| - 1];
      Played(log[..|log| - 1]) + c.out[..Min(c.popped, |c.out|)]
  }

  function Overruns(log: seq<Push>): nat {
    if log == [] then 0 else Overruns(log[..|log| - 1]) + One(CutShort(log[|log| - 1]))
  }

  function Underruns(log: seq<PlaybackCall>): nat {
    if log == [] then 0 else Underruns(log[..|log| - 1]) + One(Underran(log[|log| - 1]))
  }

  /** One push, as logged: all of it when there was room for all of it, otherwise
      exactly what there was room for. */
  predicate PushOk(c: Push) {
    c.accepted == if |c.samples| <= c.room then |c.samples| else c.room
  }

  /** One playback callback, as logged: it got what the ring held of its request,
      in order, then silence to the end. */
  predicate CallOk(c: PlaybackCall) {
    && c.popped == Min(c.want, c.fill + c.landed)
    && |c.out| == c.want
    && forall j | c.popped <= j < c.want :: c.out[j] == 0.0
  }

  // -------------------------------------------------------------------------
  // The invariant
  // -------------------------------------------------------------------------

  predicate CaptureInv(s: State) {
    && |s.captureRing| <= s.captureCapacity
    && s.pulled + s.captureRing == Accepted(s.captureLog)
    && s.overruns + One(s.capture.CapturePushed? && s.capture.short) == Overruns(s.captureLog)
    && forall i :: 0 <= i < |s.captureLog| ==> PushOk(s.captureLog[i])
  }

  predicate PlaybackInv(s: State) {
    && |s.playoutRing| <= s.playoutCapacity < NO_LOW_WATER
    && s.pushed == Played(s.playbackLog) + s.playoutRing
    && s.underruns + One(s.playback.PlaybackPopped? && s.playback.short) == Underruns(s.playbackLog)
    && (s.playback.FillRead? || s.playback.FillNoted? ==> |s.playoutRing| == s.playback.fill + s.playback.landed)
    && (forall i :: 0 <= i < |s.playbackLog| ==> CallOk(s.playbackLog[i]))
  }

  predicate PushedInv(s: State) {
    && s.pushed == Accepted(s.playoutLog)
    && forall i :: 0 <= i < |s.playoutLog| ==> PushOk(s.playoutLog[i])
  }

  predicate NotedInv(s: State) {
    && |s.noted| == |s.playbackLog| + One(s.playback.FillNoted?)
    && (forall i :: 0 <= i < |s.playbackLog| ==> s.noted[i] == s.playbackLog[i].fill)
    && (s.playback.FillNoted? ==> s.noted[|s.playbackLog|] == s.playback.fill)
    && (forall i :: 0 <= i < |s.noted| ==> s.noted[i] < NO_LOW_WATER)
    && s.takenAt <= |s.noted|
    && (if s.takenAt == |s.noted| then s.lowWater == NO_LOW_WATER else s.lowWater in s.noted[s.takenAt..])
    && (forall i :: s.takenAt <= i < |s.noted| ==> s.lowWater <= s.noted[i])
  }

  predicate Inv(s: State) {
    CaptureInv(s) && PlaybackInv(s) && PushedInv(s) && NotedInv(s)
  }

  lemma AcceptedGrows(log: seq<Push>, c: Push)
    requires c.accepted <= |c.samples|
    ensures Accepted(log + [c]) == Accepted(log) + c.samples[..c.accepted]
    ensures Overruns(log + [c]) == Overruns(log) + One(CutShort(c))
  {
    assert (log + [c])[..|log + [c]| - 1] == log;
  }

  lemma PlayedGrows(log: seq<PlaybackCall>, c: PlaybackCall)
    requires c.popped <= |c.out|
    ensures Played(log + [c]) == Played(log) + c.out[..c.popped]
    ensures Underruns(log + [c]) == Underruns(log) + One(Underran(c))
  {
    assert (log + [c])[..|log + [c]| - 1] == log;
  }

  lemma PushCaptureKeeps(s: State, samples: seq<real>)
    requires Inv(s) && s.capture.CaptureIdle?
    ensures Inv(Next(s, PushCapture(samples)))
  {
    var room := s.captureCapacity - |s.captureRing|;
    var c := Push(samples, room, Min(room, |samples|));
    AcceptedGrows(s.captureLog, c);
    assert s.pulled + (s.captureRing + samples[..c.accepted]) == s.pulled + s.captureRing + samples[..c.accepted];
  }

  lemma PullCapturedKeeps(s: State, want: nat)
    requires Inv(s)
    ensures Inv(Next(s, PullCaptured(want)))
  {
    var n := Min(|s.captureRing|, want);
    assert s.pulled + s.captureRing[..n] + s.captureRing[n..] == s.pulled + s.captureRing;
  }

  lemma PopKeepsAudio(s: State)
    requires PlaybackInv(s) && s.playback.FillNoted?
    ensures PlaybackInv(Next(s, PopPlayout))
  {
    var t := Next(s, PopPlayout);
    var c := t.playbackLog[|s.playbackLog|];
    PlayedGrows(s.playbackLog, c);
    assert c.out[..c.popped] == s.playoutRing[..c.popped];
    assert Played(s.playbackLog) + s.playoutRing == Played(s.playbackLog) + s.playoutRing[..c.popped] + t.playoutRing;
  }

  lemma PopKeepsNotes(s: State)
    requires NotedInv(s) && s.playback.FillNoted?
    ensures NotedInv(Next(s, PopPlayout))
  {
  }

  lemma PushPlayoutKeepsLog(s: State, samples: seq<real>)
    requires PlaybackInv(s) && PushedInv(s)
    ensures PushedInv(Next(s, PushPlayout(samples)))
  {
    var room := s.playoutCapacity - |s.playoutRing|;
    AcceptedGrows(s.playoutLog, Push(samples, room, Min(room, |samples|)));
  }

  lemma PushPlayoutKeepsAudio(s: State, samples: seq<real>)
    requires PlaybackInv(s)
    ensures PlaybackInv(Next(s, PushPlayout(samples)))
  {
    var n := Min(s.playoutCapacity - |s.playoutRing|, |samples|);
    var played := Played(s.playbackLog);
    assert played + s.playoutRing + samples[..n] == played + (s.playoutRing + samples[..n]);
  }

  lemma PushPlayoutKeeps(s: State, samples: seq<real>)
    requires Inv(s)
    ensures Inv(Next(s, PushPlayout(samples)))
  {
    PushPlayoutKeepsLog(s, samples);
    PushPlayoutKeepsAudio(s, samples);
  }

  lemma NoteKeepsNotes(s: State)
    requires NotedInv(s) && PlaybackInv(s) && s.playback.FillRead?
    ensures NotedInv(Next(s, NoteFill))
  {
    var t := Next(s, NoteFill);
    assert t.noted[s.takenAt..] == s.noted[s.takenAt..] + [s.playback.fill];
    assert t.noted[s.takenAt..][|s.noted| - s.takenAt] == s.playback.fill;
    if s.takenAt < |s.noted| {
      var k :| 0 <= k < |s.noted[s.takenAt..]| && s.noted[s.takenAt..][k] == s.lowWater;
      assert t.noted[s.takenAt..][k] == s.lowWater;
    }
  }

  lemma NoteKeeps(s: State)
    requires Inv(s) && s.playback.FillRead?
    ensures Inv(Next(s, NoteFill))
  {
    NoteKeepsNotes(s);
  }

  lemma StepKeeps(s: State, step: Step)
    requires Inv(s) && Enabled(s, step)
    ensures Inv(Next(s, step))
  {
    match step
    case PushCapture(samples) => PushCaptureKeeps(s, samples);
    case PullCaptured(want) => PullCapturedKeeps(s, want);
    case PopPlayout => PopKeepsAudio(s); PopKeepsNotes(s);
    case PushPlayout(samples) => PushPlayoutKeeps(s, samples);
    case NoteFill => NoteKeeps(s);
    case ReadFill(_) | CountOverrun | CountUnderrun | TakeLowWater =>
  }

  ghost predicate IsRun(states: seq<State>, steps: seq<Step>) {
    && |states| == |steps| + 1
    && Init(states[0])
    && forall i :: 0 <= i < |steps| ==> Enabled(states[i], steps[i]) && states[i + 1] == Next(states[i], steps[i])
  }

  lemma {:induction false} RunKeeps(states: seq<State>, steps: seq<Step>, k: nat)
    requires IsRun(states, steps) && k < |states|
    ensures Inv(states[k])
  {
    if k > 0 {
      RunKeeps(states, steps, k - 1);
      StepKeeps(states[k - 1], steps[k - 1]);
    }
  }

  // -------------------------------------------------------------------------
  // What the bridge promises, in every reachable state
  // -------------------------------------------------------------------------

  /** Conservation: what the engine pulled followed by the ring is the accepted
      prefixes of the capture callbacks; what the engine pushed is what playback
      got followed by the ring, each shortfall filled with silence; the rings
      never exceed their capacity; and between callbacks the counters are exactly
      the callbacks cut short. */
  lemma BridgeConserves(states: seq<State>, steps: seq<Step>, k: nat)
    requires IsRun(states, steps) && k < |states|
    ensures var s := states[k];
      && s.pulled + s.captureRing == Accepted(s.captureLog)
      && Accepted(s.playoutLog) == s.pushed == Played(s.playbackLog) + s.playoutRing
      && |s.captureRing| <= s.captureCapacity && |s.playoutRing| <= s.playoutCapacity
      && (s.capture.CaptureIdle? ==> s.overruns == Overruns(s.captureLog))
      && (s.playback.PlaybackIdle? ==> s.underruns == Underruns(s.playbackLog))
      && forall i :: 0 <= i < |s.playbackLog| ==> CallOk(s.playbackLog[i])
  {
    RunKeeps(states, steps, k);
  }

  /** One push against its ring: cut short exactly when the slice is longer than
      the free room, then leaving the ring full; and taking exactly that room. */
  predicate TakesWhatFits(ring: seq<real>, capacity: nat, x: seq<real>, after: seq<real>, p: Push) {
    && p.samples == x && p.room + |ring| == capacity && p.accepted <= |x|
    && after == ring + x[..p.accepted]
    && (p.accepted < |x| <==> |x| > p.room)
    && (p.accepted < |x| ==> p.accepted == p.room && |after| == capacity)
  }

  /** Everything asked for that is there. */
  predicate GivesWhatIsThere(ring: seq<real>, want: nat, given: seq<real>, after: seq<real>) {
    ring == given + after && |given| <= want && (|given| < want ==> after == [])
  }

  lemma PushFits(ring: seq<real>, capacity: nat, x: seq<real>)
    requires |ring| <= capacity
    ensures var n := Fits(ring, capacity, |x|);
      TakesWhatFits(ring, capacity, x, ring + x[..n], Push(x, Room(ring, capacity), n))
  {
  }

  /** How much the rings take and give at every step of a run. */
  lemma RingsTakeWhatFits(states: seq<State>, steps: seq<Step>, k: nat)
    requires IsRun(states, steps) && k < |steps|
    ensures var s, t := states[k], states[k + 1];
      match steps[k]
      case PushCapture(x) =>
        && |t.captureLog| == |s.captureLog| + 1
        && TakesWhatFits(s.captureRing, s.captureCapacity, x, t.captureRing, t.captureLog[|s.captureLog|])
      case PushPlayout(x) =>
        && |t.playoutLog| == |s.playoutLog| + 1
        && TakesWhatFits(s.playoutRing, s.playoutCapacity, x, t.playoutRing, t.playoutLog[|s.playoutLog|])
      case PullCaptured(want) =>
        && s.pulled <= t.pulled
        && GivesWhatIsThere(s.captureRing, want, t.pulled[|s.pulled|..], t.captureRing)
      case PopPlayout =>
        && |t.playbackLog| == |s.playbackLog| + 1
        && PopGives(s, t, t.playbackLog[|s.playbackLog|])
      case _ => t.captureRing == s.captureRing && t.playoutRing == s.playoutRing
  {
    RunKeeps(states, steps, k);
    var s := states[k];
    match steps[k]
    case PushCapture(x) => PushFits(s.captureRing, s.captureCapacity, x);
    case PushPlayout(x) => PushFits(s.playoutRing, s.playoutCapacity, x);
    case PullCaptured(want) => PullGives(s, want);
    case PopPlayout => PopIsGiven(s);
    case _ =>
  }

  predicate PopGives(s: State, t: State, c: PlaybackCall) {
    && |c.out| == c.want && c.popped <= c.want
    && GivesWhatIsThere(s.playoutRing, c.want, c.out[..c.popped], t.playoutRing)
  }

  lemma PullGives(s: State, want: nat)
    ensures var t := Next(s, PullCaptured(want));
      s.pulled <= t.pulled && GivesWhatIsThere(s.captureRing, want, t.pulled[|s.pulled|..], t.captureRing)
  {
    var n := Min(|s.captureRing|, want);
    assert (s.pulled + s.captureRing[..n])[|s.pulled|..] == s.captureRing[..n];
  }

  lemma PopIsGiven(s: State)
    requires s.playback.FillNoted?
    ensures var t := Next(s, PopPlayout);
      |t.playbackLog| == |s.playbackLog| + 1 && PopGives(s, t, t.playbackLog[|s.playbackLog|])
  {
    var want := s.playback.want;
    var n := Min(|s.playoutRing|, want);
    var out := s.playoutRing[..n] + Silence(want - n);
    assert out[..n] == s.playoutRing[..n];
  }

  /** The counts are counts: as many as there are callbacks cut short. */
  lemma {:induction false} CutShortAreCounted(captures: seq<Push>, playbacks: seq<PlaybackCall>)
    ensures Overruns(captures) == |set i | 0 <= i < |captures| && CutShort(captures[i])|
    ensures Underruns(playbacks) == |set i | 0 <= i < |playbacks| && Underran(playbacks[i])|
  {
    OverrunsAre(captures);
    UnderrunsAre(playbacks);
  }

  lemma {:induction false} OverrunsAre(log: seq<Push>)
    ensures Overruns(log) == |set i | 0 <= i < |log| && CutShort(log[i])|
  {
    if log != [] {
      var n := |log| - 1;
      OverrunsAre(log[..n]);
      var before := set i | 0 <= i < n && CutShort(log[..n][i]);
      assert (set i | 0 <= i < |log| && CutShort(log[i])) == before + if CutShort(log[n]) then {n} else {};
    }
  }

  lemma {:induction false} UnderrunsAre(log: seq<PlaybackCall>)
    ensures Underruns(log) == |set i | 0 <= i < |log| && Underran(log[i])|
  {
    if log != [] {
      var n := |log| - 1;
      UnderrunsAre(log[..n]);
      var before := set i | 0 <= i < n && Underran(log[..n][i]);
      assert (set i | 0 <= i < |log| && Underran(log[i])) == before + if Underran(log[n]) then {n} else {};
    }
  }

  /** Exactly when a capture callback overruns: when it brought more than the room
      the ring had for it; and it then lost exactly the excess. */
  lemma OverrunIff(states: seq<State>, steps: seq<Step>, k: nat, i: nat)
    requires IsRun(states, steps) && k < |states| && i < |states[k].captureLog|
    ensures var c := states[k].captureLog[i];
      && (CutShort(c) <==> |c.samples| > c.room)
      && (CutShort(c) ==> c.accepted == c.room)
  {
    RunKeeps(states, steps, k);
  }

  /** Exactly when a callback underruns: the fill it recorded, plus what the engine
      landed between that read and the pop, fell short of the request. So every
      underrun recorded a fill below its request, and a recorded fill below the
      request is an underrun when no push intervened. */
  lemma UnderrunIff(states: seq<State>, steps: seq<Step>, k: nat, i: nat)
    requires IsRun(states, steps) && k < |states| && i < |states[k].playbackLog|
    ensures var s := states[k]; var c := s.playbackLog[i];
      && i < |s.noted| && s.noted[i] == c.fill
      && (Underran(c) <==> c.fill + c.landed < c.want)
      && (Underran(c) ==> s.noted[i] < c.want)
      && (c.landed == 0 && s.noted[i] < c.want ==> Underran(c))
  {
    RunKeeps(states, steps, k);
  }

  /** A low water reading is the least fill recorded since the previous take, and
      is missing exactly when none was recorded. */
  lemma ReadingIsLeastSinceTake(states: seq<State>, steps: seq<Step>, k: nat)
    requires IsRun(states, steps) && k < |states|
    ensures var s := states[k]; var since := s.noted[Min(s.takenAt, |s.noted|)..];
      && s.takenAt <= |s.noted|
      && (LowWaterReading(s).None? <==> since == [])
      && (LowWaterReading(s).Some? ==>
            && LowWaterReading(s).value in since
            && forall i :: 0 <= i < |since| ==> LowWaterReading(s).value <= since[i])
  {
    RunKeeps(states, steps, k);
    var s := states[k];
    if s.takenAt < |s.noted| {
      var j :| 0 <= j < |s.noted[s.takenAt..]| && s.noted[s.takenAt..][j] == s.lowWater;
      assert s.noted[s.takenAt + j] == s.lowWater;
    }
  }

  /** So a reading at or above a callback's request clears every callback in its
      window of that size or less: none of them underran. */
  lemma HighReadingMeansNoUnderrun(states: seq<State>, steps: seq<Step>, k: nat, i: nat)
    requires IsRun(states, steps) && k < |states|
    requires var s := states[k];
      && s.takenAt <= i < |s.playbackLog|
      && LowWaterReading(s).Some? && LowWaterReading(s).value >= s.playbackLog[i].want
    ensures !Underran(states[k].playbackLog[i])
  {
    RunKeeps(states, steps, k);
  }

  /** A finite run that ends in a given state. */
  ghost predicate Reachable(s: State) {
    exists states, steps :: IsRun(states, steps) && states[|steps|] == s
  }

  lemma ReachNext(s: State, step: Step, t: State)
    requires Reachable(s) && Enabled(s, step) && t == Next(s, step)
    ensures Reachable(t)
  {
    var states, steps :| IsRun(states, steps) && states[|steps|] == s;
    assert IsRun(states + [t], steps + [step]);
    assert (states + [t])[|steps + [step]|] == t;
  }

  const EMPTY: State := State(8, 8, [], [], 0, 0, NO_LOW_WATER, CaptureIdle, PlaybackIdle, [], [], [], [], [], [], 0)
  const NOTED: State := EMPTY.(playback := FillNoted(1, 0, 0), lowWater := 0, noted := [0])
  const LANDED: State := NOTED.(playback := FillNoted(1, 0, 1), playoutRing := [0.5], pushed := [0.5],
                                        playoutLog := [Push([0.5], 8, 1)])
  const POPPED: State :=
    NOTED.(playback := PlaybackPopped(false), pushed := [0.5], playoutLog := [Push([0.5], 8, 1)],
           playbackLog := [PlaybackCall(1, 0, 1, [0.5], 1)])

  lemma ReachNoted()
    ensures Reachable(NOTED)
  {
    var none: seq<Step> := [];
    assert IsRun([EMPTY], none) && [EMPTY][|none|] == EMPTY;
    ReachNext(EMPTY, ReadFill(1), EMPTY.(playback := FillRead(1, 0, 0)));
    assert EMPTY.noted + [0] == [0];
    ReachNext(EMPTY.(playback := FillRead(1, 0, 0)), NoteFill, NOTED);
  }

  lemma ReachLanded()
    ensures Reachable(LANDED)
  {
    ReachNoted();
    PushLands();
    ReachNext(NOTED, PushPlayout([0.5]), LANDED);
  }

  lemma PushLands()
    ensures Next(NOTED, PushPlayout([0.5])) == LANDED
  {
    assert [0.5][..1] == [0.5] && NOTED.playoutRing + [0.5] == [0.5] && NOTED.pushed + [0.5] == [0.5];
    assert NOTED.playoutLog + LANDED.playoutLog == LANDED.playoutLog;
  }

  lemma ReachPopped()
    ensures Reachable(POPPED)
  {
    ReachLanded();
    assert LANDED.playoutRing[..1] + Silence(0) == [0.5] && LANDED.playoutRing[1..] == [];
    assert LANDED.playbackLog + POPPED.playbackLog == POPPED.playbackLog;
    ReachNext(LANDED, PopPlayout, POPPED);
  }

  /** What was served although its fill was noted as nothing. */
  predicate ServedFromEmpty(s: State) {
    && s.playback.PlaybackIdle? && LowWaterReading(s) == Some(0) && s.underruns == 0
    && |s.playbackLog| == 1 && s.playbackLog[0].want == 1 && !Underran(s.playbackLog[0])
  }

  const SERVED: State := POPPED.(playback := PlaybackIdle)

  lemma NothingToCount()
    ensures Enabled(POPPED, CountUnderrun) && Next(POPPED, CountUnderrun) == SERVED
  {
  }

  lemma ReachServed()
    ensures Reachable(SERVED)
  {
    ReachPopped();
    NothingToCount();
    ReachNext(POPPED, CountUnderrun, SERVED);
  }

  /** A low reading need not be an underrun: the ring is empty when its fill is
      read, a sample lands, and the pop is served in full. */
  lemma LowReadingWithoutUnderrun()
    ensures Reachable(SERVED) && ServedFromEmpty(SERVED)
  {
    ReachServed();
  }
}
