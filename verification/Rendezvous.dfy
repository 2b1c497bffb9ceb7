/** The exclusive-mode open as an interleaved step system: the opening thread
    and one device thread per direction, talking through a ready channel and a
    handler channel each, a shared stop flag, a shared error latch and joins.
    Driver calls are steps with nondeterministic outcomes, and a device thread
    may panic anywhere while it runs. */
module Rendezvous {
  import opened Types
  import opened Wrappers
  import opened WasapiPolicy

  /** What a device thread reports: its negotiated period, or why it has none. */
  datatype Ready = ReadyOk(frames: nat) | ReadyErr(failure: ExclusiveFailure)

  datatype ThreadPc =
    | Unspawned
    | Setup                        // COM, endpoint, format, Initialize
    | Reporting(report: Ready)
    | Awaiting                     // blocked on the handler channel
    | Staging                      // owns its half; render primes its buffer
    | Starting
    | LoopTop(timeouts: nat)       // about to look at the stop flag
    | Waiting(timeouts: nat)
    | Delivering(timeouts: nat)
    | Stopping
    | Leaving                      // the function returned; its captures drop
    | Finished

  /** One direction: its thread, its two channels, and the places its handler
      half can be. `sent`, `accepted`, `started`, `latched` and `panicked` are
      history. */
  datatype Device = Device(
    pc: ThreadPc,
    ready: Option<Ready>,          // in the ready channel, not yet received
    readyTx: bool,                 // the thread's sender is alive
    handlerTx: bool,               // the opener's sender is alive
    handlerRx: bool,               // the thread's receiver is alive
    withParent: bool,
    inChannel: bool,
    withThread: bool,
    inResult: bool,
    dropped: bool,
    sent: Option<Ready>,
    accepted: bool,
    started: bool,
    latched: bool,                 // this thread itself set the shared error latch
    panicked: bool)

  datatype Outcome =
    | Opened(latency: nat, buffer: nat)
    | Failed(failure: ExclusiveFailure, handler: bool)

  /** The clean-up actions of the three abandoning paths, in program order. */
  datatype Phase = DropCaptureTx | DropRenderTx | RaiseStop | JoinCapture | JoinRender | Reply

  datatype ParentPc =
    | Begin
    | SpawnCapture
    | SpawnRender
    | RecvCapture
    | RecvRender(c: Ready)
    | Decide(c: Ready, r: Ready)
    | SendCapture(cf: nat, rf: nat)
    | SendRender(cf: nat, rf: nat, captureSent: bool)
    | Commit(cf: nat, rf: nat, captureSent: bool, renderSent: bool)
    | Aborting(phase: Phase, failure: ExclusiveFailure, recover: bool)
    | Returned(outcome: Outcome)

  datatype State = State(
    channels: nat,
    parent: ParentPc,
    stop: bool,
    errored: bool,
    cap: Device,
    ren: Device)

  /** Every nondeterministic choice a device thread's surroundings can make. */
  datatype Act =
    | SetupOk(frames: nat)
    | SetupFails(why: ExclusiveFailure)
    | SendReport
    | TakeHalf
    | SeeHangup
    | StageOk
    | StageFails
    | StartOk
    | StartFails
    | CheckStop
    | Signalled
    | TimedOut
    | DeliverOk
    | DeliverFails
    | StopStream
    | DropReadyTx
    | DropHandlerRx
    | Exit
    | Panic

  datatype Step = ParentStep(spawnOk: bool) | DeviceStep(dir: Direction, act: Act)

  // -------------------------------------------------------------------------
  // Device threads
  // -------------------------------------------------------------------------

  const FRESH: Device := Device(Unspawned, None, true, true, true, true, false, false, false, false,
                                None, false, false, false, false)

  predicate Running(pc: ThreadPc) {
    !pc.Unspawned? && !pc.Leaving? && !pc.Finished?
  }

  predicate DeviceEnabled(dir: Direction, x: Device, stop: bool, act: Act) {
    match act
    case SetupOk(_) => x.pc.Setup?
    case SetupFails(_) => x.pc.Setup?
    case SendReport => x.pc.Reporting?
    case TakeHalf => x.pc.Awaiting? && x.inChannel
    case SeeHangup => x.pc.Awaiting? && !x.inChannel && !x.handlerTx
    case StageOk => x.pc.Staging?
    case StageFails => x.pc.Staging? && dir == Playback
    case StartOk => x.pc.Starting?
    case StartFails => x.pc.Starting?
    case CheckStop => x.pc.LoopTop?
    case Signalled => x.pc.Waiting?
    case TimedOut => x.pc.Waiting?
    case DeliverOk => x.pc.Delivering?
    case DeliverFails => x.pc.Delivering?
    case StopStream => x.pc.Stopping?
    case DropReadyTx => x.pc.Leaving? && x.readyTx
    case DropHandlerRx => x.pc.Leaving? && x.handlerRx
    case Exit => x.pc.Leaving? && !x.readyTx && !x.handlerRx
    case Panic => Running(x.pc)
  }

  /** Returning from the thread function drops the half it owns, if any. */
  function Quit(x: Device): Device {
    x.(pc := Leaving, withThread := false, dropped := x.dropped || x.withThread)
  }

  function DeviceNext(dir: Direction, x: Device, stop: bool, parentListens: bool, act: Act): Device
    requires DeviceEnabled(dir, x, stop, act)
  {
    match act
    case SetupOk(frames) => x.(pc := Reporting(ReadyOk(frames)))
    case SetupFails(why) => x.(pc := Reporting(ReadyErr(why)))
    case SendReport =>
      var told := if parentListens then x.(ready := Some(x.pc.report), sent := Some(x.pc.report)) else x;
      if parentListens && x.pc.report.ReadyOk? then told.(pc := Awaiting) else Quit(told)
    case TakeHalf => x.(pc := Staging, inChannel := false, withThread := true)
    case SeeHangup => Quit(x)
    case StageOk => x.(pc := Starting)
    case StageFails => Quit(x.(latched := true))
    case StartOk => x.(pc := LoopTop(0), started := true)
    case StartFails => Quit(x.(latched := true))
    case CheckStop => x.(pc := if stop then Stopping else Waiting(x.pc.timeouts))
    case Signalled => x.(pc := Delivering(0))
    case TimedOut =>
      if StreamIsDead(x.pc.timeouts + 1) then x.(pc := Stopping, latched := true)
      else x.(pc := Delivering(x.pc.timeouts + 1))
    case DeliverOk => x.(pc := LoopTop(x.pc.timeouts))
    case DeliverFails => x.(pc := Stopping, latched := true)
    case StopStream => Quit(x)
    case DropReadyTx => x.(readyTx := false)
    case DropHandlerRx => x.(handlerRx := false, inChannel := false, dropped := x.dropped || x.inChannel)
    case Exit => x.(pc := Finished)
    case Panic => Quit(x).(panicked := true)
  }

  /** The steps that latch the stream as errored. */
  predicate Latches(x: Device, act: Act) {
    || act.StageFails? || act.StartFails? || act.DeliverFails?
    || (act.TimedOut? && x.pc.Waiting? && StreamIsDead(x.pc.timeouts + 1))
  }

  // -------------------------------------------------------------------------
  // The opening thread
  // -------------------------------------------------------------------------

  predicate ParentEnabled(s: State) {
    match s.parent
    case RecvCapture => s.cap.ready.Some? || !s.cap.readyTx
    case RecvRender(_) => s.ren.ready.Some? || !s.ren.readyTx
    case Aborting(JoinCapture, _, _) => s.cap.pc.Finished?
    case Aborting(JoinRender, _, _) => s.ren.pc.Finished?
    case Returned(_) => false
    case _ => true
  }

  function Received(x: Device): Ready {
    if x.ready.Some? then x.ready.value else ReadyErr(ExclusiveFailure.Other)
  }

  /** A send is refused exactly when the receiver is gone, and then the half
      comes straight back to the sender. */
  function Send(x: Device): Device {
    if x.handlerRx then x.(withParent := false, inChannel := true, accepted := true) else x
  }

  /** The first failure in the order the code looks for one. */
  function Blame(c: Ready, r: Ready): ExclusiveFailure {
    if c.ReadyErr? then c.failure else if r.ReadyErr? then r.failure else ExclusiveFailure.Other
  }

  function Reclaim(x: Device): Device {
    x.(withParent := false, inResult := true)
  }

  function Discard(x: Device): Device {
    x.(withParent := false, dropped := x.dropped || x.withParent)
  }

  /** A render thread that never came up has no sender to drop and no join. */
  function NextPhase(phase: Phase, renderSpawned: bool): Phase {
    match phase
    case DropCaptureTx => if renderSpawned then DropRenderTx else RaiseStop
    case DropRenderTx => RaiseStop
    case RaiseStop => JoinCapture
    case JoinCapture => if renderSpawned then JoinRender else Reply
    case JoinRender => Reply
    case Reply => Reply
  }

  function AbortEffect(s: State, phase: Phase): State {
    match phase
    case DropCaptureTx => s.(cap := s.cap.(handlerTx := false))
    case DropRenderTx => s.(ren := s.ren.(handlerTx := false))
    case RaiseStop => s.(stop := true)
    case _ => s
  }

  function Answer(s: State, failure: ExclusiveFailure, recover: bool): State {
    if recover then
      s.(cap := Reclaim(s.cap), ren := Reclaim(s.ren), parent := Returned(Failed(failure, true)))
    else
      s.(cap := Discard(s.cap), ren := Discard(s.ren), parent := Returned(Failed(failure, false)))
  }

  function AbortNext(s: State): State
    requires s.parent.Aborting?
  {
    if s.parent.phase.Reply? then Answer(s, s.parent.failure, s.parent.recover)
    else
      var onward := s.parent.(phase := NextPhase(s.parent.phase, !s.ren.pc.Unspawned?));
      AbortEffect(s, s.parent.phase).(parent := onward)
  }

  function ParentNext(s: State, spawnOk: bool): State
    requires ParentEnabled(s)
  {
    match s.parent
    case Begin =>
      if s.channels == 0 then Answer(s, InvalidConfig, true)
      else s.(parent := SpawnCapture)
    case SpawnCapture =>
      if spawnOk then s.(cap := s.cap.(pc := Setup), parent := SpawnRender)
      else Answer(s, ExclusiveFailure.Other, true)
    case SpawnRender =>
      if spawnOk then s.(ren := s.ren.(pc := Setup), parent := RecvCapture)
      else s.(parent := Aborting(DropCaptureTx, ExclusiveFailure.Other, true))
    case RecvCapture => s.(cap := s.cap.(ready := None), parent := RecvRender(Received(s.cap)))
    case RecvRender(c) => s.(ren := s.ren.(ready := None), parent := Decide(c, Received(s.ren)))
    case Decide(c, r) =>
      if c.ReadyOk? && r.ReadyOk? then s.(parent := SendCapture(c.frames, r.frames))
      else s.(parent := Aborting(DropCaptureTx, Blame(c, r), true))
    case SendCapture(cf, rf) =>
      s.(cap := Send(s.cap), parent := SendRender(cf, rf, s.cap.handlerRx))
    case SendRender(cf, rf, captureSent) =>
      s.(ren := Send(s.ren), parent := Commit(cf, rf, captureSent, s.ren.handlerRx))
    case Commit(cf, rf, captureSent, renderSent) =>
      if captureSent && renderSent then s.(parent := Returned(Opened(cf + rf, Max(cf, rf))))
      else s.(parent := Aborting(RaiseStop, ExclusiveFailure.Other, !captureSent && !renderSent))
    case Aborting(_, _, _) => AbortNext(s)
  }

  // -------------------------------------------------------------------------
  // The system
  // -------------------------------------------------------------------------

  predicate Init(s: State) {
    s.parent == Begin && !s.stop && !s.errored && s.cap == FRESH && s.ren == FRESH
  }

  predicate Enabled(s: State, step: Step) {
    match step
    case ParentStep(_) => ParentEnabled(s)
    case DeviceStep(Capture, act) => DeviceEnabled(Capture, s.cap, s.stop, act)
    case DeviceStep(Playback, act) => DeviceEnabled(Playback, s.ren, s.stop, act)
  }

  function Next(s: State, step: Step): State
    requires Enabled(s, step)
  {
    match step
    case ParentStep(spawnOk) => ParentNext(s, spawnOk)
    case DeviceStep(Capture, act) =>
      s.(cap := DeviceNext(Capture, s.cap, s.stop, !s.parent.Returned?, act),
         errored := s.errored || Latches(s.cap, act))
    case DeviceStep(Playback, act) =>
      s.(ren := DeviceNext(Playback, s.ren, s.stop, !s.parent.Returned?, act),
         errored := s.errored || Latches(s.ren, act))
  }

  function Of(s: State, dir: Direction): Device {
    if dir == Capture then s.cap else s.ren
  }

  /** A run: states and the steps between them, from an initial state. */
  ghost predicate IsRun(states: seq<State>, steps: seq<Step>) {
    && |states| == |steps| + 1
    && Init(states[0])
    && forall i :: 0 <= i < |steps| ==> Enabled(states[i], steps[i]) && states[i + 1] == Next(states[i], steps[i])
  }

  // -------------------------------------------------------------------------
  // The invariant
  // -------------------------------------------------------------------------

  function Places(x: Device): nat {
    One(x.withParent) + One(x.inChannel) + One(x.withThread) + One(x.inResult) + One(x.dropped)
  }

  /** Past the hand-over: the thread has taken its half and not yet let go. */
  predicate Owns(pc: ThreadPc) {
    pc.Staging? || pc.Starting? || pc.LoopTop? || pc.Waiting? || pc.Delivering? || pc.Stopping?
  }

  /** The half is in one place, and with the thread exactly while it owns it. */
  predicate HeldInv(x: Device) {
    Places(x) == 1 && (x.withThread <==> Owns(x.pc))
  }

  /** The half leaves the opener only through its channel. */
  predicate PlacedInv(x: Device) {
    && (x.inChannel ==> x.handlerRx && x.accepted)
    && (x.withParent || x.inResult ==> !x.accepted)
    && (x.pc.Unspawned? || x.pc.Setup? || x.pc.Reporting? ==> !x.accepted)
    && (x.pc.Awaiting? ==> (x.accepted <==> x.inChannel))
    && (x.withThread || x.started ==> x.accepted)
  }

  /** What was reported, and which ends of the channels are still held. */
  predicate ReportInv(x: Device) {
    && (x.pc.Unspawned? || Running(x.pc) ==> x.readyTx && x.handlerRx)
    && (x.pc.Finished? ==> !x.readyTx && !x.handlerRx)
    && (x.pc.Unspawned? || x.pc.Setup? || x.pc.Reporting? ==> x.sent.None? && x.ready.None?)
    && (x.pc.Awaiting? || x.withThread || x.accepted ==> ReportedReady(x))
    && (x.ready.Some? ==> x.ready == x.sent)
    && (x.pc.Leaving? || x.pc.Finished? ==>
          ReportedReady(x) && !x.accepted ==> x.panicked || !x.handlerTx)
  }

  /** Inside the device loop: started, and not yet out of patience. */
  predicate LoopInv(x: Device) {
    && (x.pc.LoopTop? ==> x.started && x.pc.timeouts < MAX_CONSECUTIVE_TIMEOUTS)
    && (x.pc.Waiting? ==> x.started && x.pc.timeouts < MAX_CONSECUTIVE_TIMEOUTS)
    && (x.pc.Delivering? ==> x.started && x.pc.timeouts < MAX_CONSECUTIVE_TIMEOUTS)
  }

  /** A thread that latched the error, or panicked, is on its way out. */
  predicate EndInv(x: Device) {
    && (x.latched ==> x.pc.Stopping? || x.pc.Leaving? || x.pc.Finished?)
    && (x.panicked ==> x.pc.Leaving? || x.pc.Finished?)
  }

  /** What holds of one direction whatever the opener is doing. */
  predicate DeviceInv(x: Device) {
    HeldInv(x) && PlacedInv(x) && ReportInv(x) && LoopInv(x) && EndInv(x)
  }

  /** A thread whose half was accepted is gone (or going) only because it was
      told to stop, because it latched the error itself, or because it panicked. */
  predicate Explained(x: Device, stop: bool) {
    (x.pc.Stopping? || ((x.pc.Leaving? || x.pc.Finished?) && x.accepted)) ==> stop || x.latched || x.panicked
  }

  predicate Untouched(x: Device) {
    x.withParent && !x.accepted && x.handlerTx
  }

  /** A received report: what the thread sent, or the stand-in for silence. */
  predicate Heard(x: Device, got: Ready) {
    && x.ready.None?
    && (x.sent == Some(got) || (x.sent.None? && !x.readyTx && got == ReadyErr(ExclusiveFailure.Other)))
  }

  /** Whatever wakes a thread blocked on its handler channel has happened. */
  predicate Released(x: Device) {
    !x.handlerTx || x.accepted || !x.handlerRx
  }

  predicate Gone(x: Device) {
    x.pc.Unspawned? || x.pc.Finished?
  }

  /** The failure the reports determine: what capture reported or, when it was
      ready, what render did; the catch-all for a thread that never reported, for
      one that was never spawned, and for two that were both ready. */
  predicate Blamed(s: State, failure: ExclusiveFailure) {
    if s.cap.pc.Unspawned? || s.ren.pc.Unspawned? then failure == ExclusiveFailure.Other
    else
      match s.cap.sent
      case None => failure == ExclusiveFailure.Other
      case Some(ReadyErr(why)) => failure == why
      case Some(ReadyOk(_)) =>
        failure == if s.ren.sent.Some? && s.ren.sent.value.ReadyErr? then s.ren.sent.value.failure
                   else ExclusiveFailure.Other
  }

  /** A spawned thread that has not reported never will. */
  predicate Settled(x: Device) {
    x.pc.Unspawned? || x.sent.Some? || !x.readyTx
  }

  /** With both ready, only a panic before the hand-over can stop the open. */
  predicate ReadyOrPanicked(s: State) {
    ReportedReady(s.cap) && ReportedReady(s.ren) ==> s.cap.panicked || s.ren.panicked
  }

  predicate PhaseInv(s: State) {
    s.parent.Aborting? ==>
      var phase, failure, recover := s.parent.phase, s.parent.failure, s.parent.recover;
      && !s.cap.pc.Unspawned?
      && (s.ren.pc.Unspawned? ==> phase != DropRenderTx && phase != JoinRender)
      && (phase == DropCaptureTx || phase == DropRenderTx ==> recover && !s.stop)
      && (phase == RaiseStop ==> !s.stop)
      && (phase.JoinCapture? || phase.JoinRender? || phase.Reply? ==> s.stop)
      && (phase != DropCaptureTx ==> Released(s.cap))
      && (phase != DropCaptureTx && phase != DropRenderTx && !s.ren.pc.Unspawned? ==> Released(s.ren))
      && (phase.JoinRender? || phase.Reply? ==> s.cap.pc.Finished?)
      && (phase.Reply? ==> Gone(s.ren))
      && (recover <==> !s.cap.accepted && !s.ren.accepted)
      && (recover ==> s.cap.withParent && s.ren.withParent)
      && !s.cap.inResult && !s.ren.inResult
      && s.channels > 0 && Blamed(s, failure) && ReadyOrPanicked(s)
      && (!s.ren.pc.Unspawned? ==> Settled(s.cap) && Settled(s.ren))
  }

  /** The period a direction reported it was ready with. */
  predicate ReportedReady(x: Device) {
    x.sent.Some? && x.sent.value.ReadyOk?
  }

  function Frames(x: Device): nat {
    if ReportedReady(x) then x.sent.value.frames else 0
  }

  predicate ParentInv(s: State) {
    match s.parent
    case Begin => s.cap == FRESH && s.ren == FRESH && !s.stop
    case SpawnCapture => s.cap == FRESH && s.ren == FRESH && !s.stop && s.channels > 0
    case SpawnRender =>
      && s.channels > 0 && !s.cap.pc.Unspawned? && s.ren == FRESH && !s.stop
      && Untouched(s.cap) && s.cap.ready == s.cap.sent
    case RecvCapture =>
      && s.channels > 0 && !s.cap.pc.Unspawned? && !s.ren.pc.Unspawned? && !s.stop
      && Untouched(s.cap) && Untouched(s.ren) && s.cap.ready == s.cap.sent && s.ren.ready == s.ren.sent
    case RecvRender(c) =>
      && s.channels > 0 && !s.cap.pc.Unspawned? && !s.ren.pc.Unspawned? && !s.stop
      && Untouched(s.cap) && Untouched(s.ren) && Heard(s.cap, c) && s.ren.ready == s.ren.sent
    case Decide(c, r) =>
      && s.channels > 0 && !s.cap.pc.Unspawned? && !s.ren.pc.Unspawned? && !s.stop
      && Untouched(s.cap) && Untouched(s.ren) && Heard(s.cap, c) && Heard(s.ren, r)
    case SendCapture(cf, rf) =>
      && s.channels > 0 && !s.stop && Untouched(s.cap) && Untouched(s.ren)
      && s.cap.sent == Some(ReadyOk(cf)) && s.ren.sent == Some(ReadyOk(rf))
    case SendRender(cf, rf, captureSent) =>
      && s.channels > 0 && !s.stop && Untouched(s.ren) && s.cap.handlerTx
      && s.cap.sent == Some(ReadyOk(cf)) && s.ren.sent == Some(ReadyOk(rf))
      && s.cap.accepted == captureSent && (!captureSent ==> s.cap.withParent && !s.cap.handlerRx)
    case Commit(cf, rf, captureSent, renderSent) =>
      && s.channels > 0 && !s.stop && s.cap.handlerTx && s.ren.handlerTx
      && s.cap.sent == Some(ReadyOk(cf)) && s.ren.sent == Some(ReadyOk(rf))
      && s.cap.accepted == captureSent && (!captureSent ==> s.cap.withParent && !s.cap.handlerRx)
      && s.ren.accepted == renderSent && (!renderSent ==> s.ren.withParent && !s.ren.handlerRx)
    case Aborting(_, _, _) => PhaseInv(s)
    case Returned(Opened(latency, buffer)) =>
      && s.cap.accepted && s.ren.accepted
      && latency == Frames(s.cap) + Frames(s.ren) && buffer == Max(Frames(s.cap), Frames(s.ren))
    case Returned(Failed(failure, handler)) =>
      && Gone(s.cap) && Gone(s.ren)
      && (if s.channels == 0 then failure == InvalidConfig && handler else Blamed(s, failure) && ReadyOrPanicked(s))
      && (handler <==> !s.cap.accepted && !s.ren.accepted)
      && (handler <==> s.cap.inResult) && (handler <==> s.ren.inResult)
  }

  /** Neither half is accepted, hence no stream starts, unless both reported ready. */
  predicate BothReadyInv(s: State) {
    s.cap.accepted || s.ren.accepted ==>
      ReportedReady(s.cap) && ReportedReady(s.ren)
  }

  predicate Inv(s: State) {
    && DeviceInv(s.cap) && DeviceInv(s.ren)
    && BothReadyInv(s)
    && Explained(s.cap, s.stop) && Explained(s.ren, s.stop)
    && (s.errored <==> s.cap.latched || s.ren.latched)
    && ParentInv(s)
  }

  // -------------------------------------------------------------------------
  // Every step keeps the invariant
  // -------------------------------------------------------------------------

  lemma DeviceStepKeepsHold(dir: Direction, x: Device, stop: bool, listens: bool, act: Act)
    requires DeviceInv(x) && DeviceEnabled(dir, x, stop, act)
    ensures HeldInv(DeviceNext(dir, x, stop, listens, act))
  {
  }

  lemma DeviceStepKeepsPlaces(dir: Direction, x: Device, stop: bool, listens: bool, act: Act)
    requires DeviceInv(x) && DeviceEnabled(dir, x, stop, act)
    ensures PlacedInv(DeviceNext(dir, x, stop, listens, act))
  {
  }

  lemma DeviceStepKeepsReports(dir: Direction, x: Device, stop: bool, listens: bool, act: Act)
    requires DeviceInv(x) && DeviceEnabled(dir, x, stop, act)
    ensures ReportInv(DeviceNext(dir, x, stop, listens, act))
  {
  }

  lemma DeviceStepKeepsLoop(dir: Direction, x: Device, stop: bool, listens: bool, act: Act)
    requires DeviceInv(x) && DeviceEnabled(dir, x, stop, act)
    ensures LoopInv(DeviceNext(dir, x, stop, listens, act)) && EndInv(DeviceNext(dir, x, stop, listens, act))
  {
  }

  lemma DeviceStepIsExplained(dir: Direction, x: Device, stop: bool, listens: bool, act: Act)
    requires DeviceInv(x) && Explained(x, stop) && DeviceEnabled(dir, x, stop, act)
    ensures Explained(DeviceNext(dir, x, stop, listens, act), stop)
  {
  }

  /** What the opener and the other direction can see of a device step. */
  predicate Framed(x: Device, y: Device) {
    && !Gone(x) && !y.pc.Unspawned?
    && y.handlerTx == x.handlerTx && y.withParent == x.withParent && y.inResult == x.inResult
    && y.accepted == x.accepted && (x.panicked ==> y.panicked)
    && ((y.sent == x.sent && y.ready == x.ready) || (x.sent.None? && x.readyTx && y.ready == y.sent))
    && (y.readyTx ==> x.readyTx) && (y.handlerRx ==> x.handlerRx)
  }

  lemma DeviceStepFramed(dir: Direction, x: Device, stop: bool, listens: bool, act: Act)
    requires DeviceInv(x) && DeviceEnabled(dir, x, stop, act)
    ensures Framed(x, DeviceNext(dir, x, stop, listens, act))
  {
  }

  /** One step of either device thread, a panic included: its half stays in one
      place, its report and channel ends stay in order, and it ends after taking
      its half only when told to stop, latched by itself, or panicked. */
  lemma DeviceStepKeeps(dir: Direction, x: Device, stop: bool, listens: bool, act: Act)
    requires DeviceInv(x) && Explained(x, stop) && DeviceEnabled(dir, x, stop, act)
    ensures var y := DeviceNext(dir, x, stop, listens, act);
      DeviceInv(y) && Explained(y, stop) && Framed(x, y) && y.latched == (x.latched || Latches(x, act))
  {
    DeviceStepKeepsHold(dir, x, stop, listens, act);
    DeviceStepKeepsPlaces(dir, x, stop, listens, act);
    DeviceStepKeepsReports(dir, x, stop, listens, act);
    DeviceStepKeepsLoop(dir, x, stop, listens, act);
    DeviceStepIsExplained(dir, x, stop, listens, act);
    DeviceStepFramed(dir, x, stop, listens, act);
  }

  /** What the opener believes is not disturbed by a device thread's step. */
  lemma OpenerUnmoved(s: State, t: State)
    requires DeviceInv(s.cap) && DeviceInv(s.ren) && ParentInv(s) && BothReadyInv(s)
    requires t == s.(cap := t.cap, ren := t.ren, errored := t.errored) && !s.parent.Aborting? && !s.parent.Returned?
    requires Seen(s.cap, t.cap) && Seen(s.ren, t.ren)
    ensures ParentInv(t)
  {
  }

  lemma AbortUnmoved(s: State, t: State)
    requires DeviceInv(s.cap) && DeviceInv(s.ren) && ParentInv(s) && BothReadyInv(s)
    requires t == s.(cap := t.cap, ren := t.ren, errored := t.errored) && s.parent.Aborting?
    requires Seen(s.cap, t.cap) && Seen(s.ren, t.ren)
    ensures ParentInv(t)
  {
  }

  lemma ReturnUnmoved(s: State, t: State)
    requires DeviceInv(s.cap) && DeviceInv(s.ren) && ParentInv(s) && BothReadyInv(s)
    requires t == s.(cap := t.cap, ren := t.ren, errored := t.errored) && s.parent.Returned?
    requires Seen(s.cap, t.cap) && Seen(s.ren, t.ren)
    ensures ParentInv(t)
  {
  }

  /** Stood still, or took a step. */
  predicate Seen(x: Device, y: Device) {
    x == y || Framed(x, y)
  }

  lemma DeviceMoveKeepsInv(s: State, t: State)
    requires Inv(s) && t == s.(cap := t.cap, ren := t.ren, errored := t.errored)
    requires Seen(s.cap, t.cap) && Seen(s.ren, t.ren)
    requires DeviceInv(t.cap) && DeviceInv(t.ren) && Explained(t.cap, t.stop) && Explained(t.ren, t.stop)
    requires t.errored <==> t.cap.latched || t.ren.latched
    ensures Inv(t)
  {
    if s.parent.Aborting? { AbortUnmoved(s, t); }
    else if s.parent.Returned? { ReturnUnmoved(s, t); }
    else { OpenerUnmoved(s, t); }
  }

  /** The opener is still listening whenever a thread is about to report, so the
      branch in which that send fails is never taken. */
  lemma ReportIsHeard(s: State)
    requires Inv(s)
    ensures s.cap.pc.Reporting? || s.ren.pc.Reporting? ==> !s.parent.Returned?
  {
  }

  lemma CaptureStepKeepsInv(s: State, act: Act)
    requires Inv(s) && DeviceEnabled(Capture, s.cap, s.stop, act)
    ensures Inv(Next(s, DeviceStep(Capture, act)))
  {
    DeviceStepKeeps(Capture, s.cap, s.stop, !s.parent.Returned?, act);
    DeviceMoveKeepsInv(s, Next(s, DeviceStep(Capture, act)));
  }

  lemma RenderStepKeepsInv(s: State, act: Act)
    requires Inv(s) && DeviceEnabled(Playback, s.ren, s.stop, act)
    ensures Inv(Next(s, DeviceStep(Playback, act)))
  {
    DeviceStepKeeps(Playback, s.ren, s.stop, !s.parent.Returned?, act);
    DeviceMoveKeepsInv(s, Next(s, DeviceStep(Playback, act)));
  }

  lemma AbortStepKeepsInv(s: State)
    requires Inv(s) && s.parent.Aborting? && !s.parent.phase.Reply? && ParentEnabled(s)
    ensures Inv(AbortNext(s))
  {
  }

  lemma WholeReplyKeepsInv(s: State)
    requires Inv(s) && s.parent.Aborting? && s.parent.phase.Reply? && s.parent.recover
    ensures Inv(AbortNext(s))
  {
  }

  lemma EmptyReplyKeepsInv(s: State)
    requires Inv(s) && s.parent.Aborting? && s.parent.phase.Reply? && !s.parent.recover
    ensures Inv(AbortNext(s))
  {
  }

  lemma SpawnStepKeepsInv(s: State, spawnOk: bool)
    requires Inv(s) && (s.parent.Begin? || s.parent.SpawnCapture? || s.parent.SpawnRender?)
    ensures Inv(ParentNext(s, spawnOk))
  {
  }

  lemma ReceiveStepKeepsInv(s: State, spawnOk: bool)
    requires Inv(s) && ParentEnabled(s) && (s.parent.RecvCapture? || s.parent.RecvRender?)
    ensures Inv(ParentNext(s, spawnOk))
  {
  }

  lemma DecideStepKeepsInv(s: State, spawnOk: bool)
    requires Inv(s) && s.parent.Decide?
    ensures Inv(ParentNext(s, spawnOk))
  {
  }

  lemma SendStepKeepsInv(s: State, spawnOk: bool)
    requires Inv(s) && (s.parent.SendCapture? || s.parent.SendRender?)
    ensures Inv(ParentNext(s, spawnOk))
  {
  }

  lemma CommitStepKeepsInv(s: State, spawnOk: bool)
    requires Inv(s) && s.parent.Commit?
    ensures Inv(ParentNext(s, spawnOk))
  {
  }

  lemma ParentStepKeepsInv(s: State, spawnOk: bool)
    requires Inv(s) && ParentEnabled(s)
    ensures Inv(ParentNext(s, spawnOk))
  {
    match s.parent
    case Begin | SpawnCapture | SpawnRender => SpawnStepKeepsInv(s, spawnOk);
    case RecvCapture | RecvRender(_) => ReceiveStepKeepsInv(s, spawnOk);
    case Decide(_, _) => DecideStepKeepsInv(s, spawnOk);
    case SendCapture(_, _) | SendRender(_, _, _) => SendStepKeepsInv(s, spawnOk);
    case Commit(_, _, _, _) => CommitStepKeepsInv(s, spawnOk);
    case Aborting(Reply, _, true) => WholeReplyKeepsInv(s);
    case Aborting(Reply, _, false) => EmptyReplyKeepsInv(s);
    case Aborting(_, _, _) => AbortStepKeepsInv(s);
  }

  lemma StepKeepsInv(s: State, step: Step)
    requires Inv(s) && Enabled(s, step)
    ensures Inv(Next(s, step))
  {
    match step
    case ParentStep(spawnOk) => ParentStepKeepsInv(s, spawnOk);
    case DeviceStep(Capture, act) => CaptureStepKeepsInv(s, act);
    case DeviceStep(Playback, act) => RenderStepKeepsInv(s, act);
  }

  lemma {:induction false} RunKeepsInv(states: seq<State>, steps: seq<Step>, k: nat)
    requires IsRun(states, steps) && k < |states|
    ensures Inv(states[k])
  {
    if k > 0 {
      RunKeepsInv(states, steps, k - 1);
      StepKeepsInv(states[k - 1], steps[k - 1]);
    }
  }

  /** Safety of the open, over every interleaving of the three threads:
      a stream starts only once both directions have reported ready; an open that
      failed has no thread left holding an endpoint; each handler half is in
      exactly one place; the handler comes back whole exactly when no channel
      accepted a half of it, and is never handed back in part; the failure is the
      one the reports determine. */
  lemma OpenIsSafe(states: seq<State>, steps: seq<Step>, k: nat)
    requires IsRun(states, steps) && k < |states|
    ensures var s := states[k];
      && (s.cap.started || s.ren.started ==> ReportedReady(s.cap) && ReportedReady(s.ren))
      && Places(s.cap) == 1 && Places(s.ren) == 1
    ensures var s := states[k];
      s.parent.Returned? && s.parent.outcome.Failed? ==>
        && Gone(s.cap) && Gone(s.ren)
        && (s.parent.outcome.handler <==> !s.cap.accepted && !s.ren.accepted)
        && (s.parent.outcome.handler <==> s.cap.inResult)
        && (s.parent.outcome.handler <==> s.ren.inResult)
        && (if s.channels == 0 then s.parent.outcome == Failed(InvalidConfig, true)
            else Blamed(s, s.parent.outcome.failure))
    ensures var s := states[k];
      s.parent.Returned? && s.parent.outcome.Opened? ==>
        && s.cap.accepted && s.ren.accepted && !s.cap.inResult && !s.ren.inResult
        && ReportedReady(s.cap) && ReportedReady(s.ren)
        && s.parent.outcome == Opened(Frames(s.cap) + Frames(s.ren), Max(Frames(s.cap), Frames(s.ren)))
  {
    RunKeepsInv(states, steps, k);
  }

  // -------------------------------------------------------------------------
  // An open fails only for a reason
  // -------------------------------------------------------------------------

  predicate PastSpawns(s: State) {
    s.parent.Begin? || s.parent.SpawnCapture? || s.parent.SpawnRender? || s.channels == 0
    || (!s.cap.pc.Unspawned? && !s.ren.pc.Unspawned?)
  }

  lemma {:induction false} SpawnedUnlessRefused(states: seq<State>, steps: seq<Step>, k: nat)
    requires IsRun(states, steps) && k < |states|
    requires ParentStep(false) !in steps[..k]
    ensures PastSpawns(states[k])
  {
    if k > 0 {
      SpawnedUnlessRefused(states, steps, k - 1);
      RunKeepsInv(states, steps, k - 1);
      SpawnStepIsTaken(states[k - 1], steps[k - 1]);
    }
  }

  lemma SpawnStepIsTaken(s: State, step: Step)
    requires Inv(s) && Enabled(s, step) && PastSpawns(s) && step != ParentStep(false)
    ensures PastSpawns(Next(s, step))
  {
    match step
    case ParentStep(_) =>
      if s.parent.Begin? || s.parent.SpawnCapture? || s.parent.SpawnRender? {
        SpawnsSucceed(s);
      } else {
        OpenerLeavesHistory(s, true);
      }
    case DeviceStep(dir, act) => ThreadStaysSpawned(s, dir, act);
  }

  lemma ThreadStaysSpawned(s: State, dir: Direction, act: Act)
    requires Inv(s) && Enabled(s, DeviceStep(dir, act))
    ensures var t := Next(s, DeviceStep(dir, act));
      && t.parent == s.parent && t.channels == s.channels
      && (t.cap.pc.Unspawned? ==> s.cap.pc.Unspawned?) && (t.ren.pc.Unspawned? ==> s.ren.pc.Unspawned?)
  {
    DeviceStepFramed(dir, Of(s, dir), s.stop, !s.parent.Returned?, act);
  }

  lemma SpawnsSucceed(s: State)
    requires Inv(s) && (s.parent.Begin? || s.parent.SpawnCapture? || s.parent.SpawnRender?)
    ensures PastSpawns(ParentNext(s, true))
  {
  }

  /** An open of at least one channel fails only when a thread could not be
      spawned, a direction did not report ready, or a ready thread panicked. */
  lemma OpenFailsOnlyForAReason(states: seq<State>, steps: seq<Step>, k: nat)
    requires IsRun(states, steps) && k < |states|
    requires states[k].channels > 0 && states[k].parent.Returned? && states[k].parent.outcome.Failed?
    ensures var s := states[k];
      || ParentStep(false) in steps[..k] || !ReportedReady(s.cap) || !ReportedReady(s.ren)
      || s.cap.panicked || s.ren.panicked
    ensures ParentStep(false) !in steps[..k] ==> !states[k].cap.pc.Unspawned? && !states[k].ren.pc.Unspawned?
  {
    RunKeepsInv(states, steps, k);
    if ParentStep(false) !in steps[..k] { SpawnedUnlessRefused(states, steps, k); }
  }

  // -------------------------------------------------------------------------
  // A device call that fails ends its thread
  // -------------------------------------------------------------------------

  predicate Fails(act: Act) {
    act == StageFails || act == StartFails || act == DeliverFails
  }

  lemma {:induction false} LatchStays(states: seq<State>, steps: seq<Step>, dir: Direction, i: nat, k: nat)
    requires IsRun(states, steps) && i <= k < |states| && Of(states[i], dir).latched
    ensures Of(states[k], dir).latched
  {
    if i < k {
      LatchStays(states, steps, dir, i, k - 1);
      RunKeepsInv(states, steps, k - 1);
      LatchStaysUp(states[k - 1], steps[k - 1], dir);
    }
  }

  lemma LatchStaysUp(s: State, step: Step, dir: Direction)
    requires Inv(s) && Enabled(s, step) && Of(s, dir).latched
    ensures Of(Next(s, step), dir).latched
  {
    match step
    case ParentStep(spawnOk) => OpenerLeavesHistory(s, spawnOk);
    case DeviceStep(moving, act) => ThreadKeepsLatch(s, moving, act);
  }

  lemma ThreadKeepsLatch(s: State, dir: Direction, act: Act)
    requires Inv(s) && Enabled(s, DeviceStep(dir, act))
    ensures var t := Next(s, DeviceStep(dir, act));
      (s.cap.latched ==> t.cap.latched) && (s.ren.latched ==> t.ren.latched)
  {
    DeviceStepKeeps(dir, Of(s, dir), s.stop, !s.parent.Returned?, act);
  }

  /** A step of the opener's leaves a device as it was, for these fields. */
  predicate SameHistory(x: Device, y: Device) {
    y.pc == x.pc && y.latched == x.latched
  }

  lemma AbortLeavesHistory(s: State)
    requires Inv(s) && ParentEnabled(s) && s.parent.Aborting?
    ensures var t := AbortNext(s); SameHistory(s.cap, t.cap) && SameHistory(s.ren, t.ren) && t.channels == s.channels
  {
  }

  lemma SpawnLeavesHistory(s: State, spawnOk: bool)
    requires Inv(s) && (s.parent.Begin? || s.parent.SpawnCapture? || s.parent.SpawnRender?)
    ensures var t := ParentNext(s, spawnOk);
      t.cap.latched == s.cap.latched && t.ren.latched == s.ren.latched && t.channels == s.channels
  {
  }

  lemma TalkLeavesHistory(s: State, spawnOk: bool)
    requires Inv(s) && ParentEnabled(s) && (s.parent.RecvCapture? || s.parent.RecvRender? || s.parent.Decide?)
    ensures var t := ParentNext(s, spawnOk);
      SameHistory(s.cap, t.cap) && SameHistory(s.ren, t.ren) && t.channels == s.channels
  {
  }

  lemma SendLeavesHistory(s: State, spawnOk: bool)
    requires Inv(s) && (s.parent.SendCapture? || s.parent.SendRender? || s.parent.Commit?)
    ensures var t := ParentNext(s, spawnOk);
      SameHistory(s.cap, t.cap) && SameHistory(s.ren, t.ren) && t.channels == s.channels
  {
  }

  lemma OpenerLeavesHistory(s: State, spawnOk: bool)
    requires Inv(s) && ParentEnabled(s)
    ensures var t := ParentNext(s, spawnOk);
      && (s.cap.latched ==> t.cap.latched) && (s.ren.latched ==> t.ren.latched) && t.channels == s.channels
      && (!s.parent.Begin? && !s.parent.SpawnCapture? && !s.parent.SpawnRender? ==>
            t.cap.pc == s.cap.pc && t.ren.pc == s.ren.pc)
  {
    match s.parent
    case Begin | SpawnCapture | SpawnRender => SpawnLeavesHistory(s, spawnOk);
    case RecvCapture | RecvRender(_) | Decide(_, _) => TalkLeavesHistory(s, spawnOk);
    case SendCapture(_, _) | SendRender(_, _, _) | Commit(_, _, _, _) => SendLeavesHistory(s, spawnOk);
    case Aborting(_, _, _) => AbortLeavesHistory(s);
  }

  /** Once a device call has failed, the latch stays up and that thread never
      waits or delivers again. */
  lemma ErrorIsForGood(states: seq<State>, steps: seq<Step>, dir: Direction, act: Act, i: nat, k: nat)
    requires IsRun(states, steps) && i < k < |states| && steps[i] == DeviceStep(dir, act) && Fails(act)
    ensures var x := Of(states[k], dir);
      states[k].errored && (x.pc.Stopping? || x.pc.Leaving? || x.pc.Finished?)
  {
    LatchStays(states, steps, dir, i + 1, k);
    RunKeepsInv(states, steps, k);
  }

  // -------------------------------------------------------------------------
  // Ten waits in a row
  // -------------------------------------------------------------------------

  predicate InLoop(act: Act) {
    act == CheckStop || act == Signalled || act == TimedOut || act == DeliverOk
  }

  /** The waits that have expired in a row, up to the last one. */
  function Expired(acts: seq<Act>): nat {
    if acts == [] then 0
    else
      var before := Expired(acts[..|acts| - 1]);
      match acts[|acts| - 1]
      case Signalled => 0
      case TimedOut => before + 1
      case _ => before
  }

  /** A started thread going round its loop: xs[k] is where it is after k steps,
      stops[k] what the stop flag was at step k. */
  ghost predicate LoopRun(dir: Direction, xs: seq<Device>, stops: seq<bool>, acts: seq<Act>) {
    && |xs| == |acts| + 1 && |stops| == |acts|
    && DeviceInv(xs[0]) && xs[0].pc == LoopTop(0) && !xs[0].latched
    && forall k | 0 <= k < |acts| ::
         InLoop(acts[k]) && DeviceEnabled(dir, xs[k], stops[k], acts[k])
         && xs[k + 1] == DeviceNext(dir, xs[k], stops[k], true, acts[k])
  }

  predicate Counts(x: Device, expired: nat) {
    && (x.pc.LoopTop? ==> x.pc.timeouts == expired)
    && (x.pc.Waiting? ==> x.pc.timeouts == expired)
    && (x.pc.Delivering? ==> x.pc.timeouts == expired)
    && (x.latched <==> expired >= 10)
  }

  lemma StepCounts(dir: Direction, x: Device, stop: bool, act: Act, expired: nat)
    requires DeviceInv(x) && DeviceEnabled(dir, x, stop, act) && InLoop(act) && Counts(x, expired)
    ensures Counts(DeviceNext(dir, x, stop, true, act),
                   if act == Signalled then 0 else if act == TimedOut then expired + 1 else expired)
  {
  }

  lemma StepKeepsDevice(dir: Direction, x: Device, stop: bool, act: Act)
    requires DeviceInv(x) && DeviceEnabled(dir, x, stop, act)
    ensures DeviceInv(DeviceNext(dir, x, stop, true, act))
  {
    DeviceStepKeepsHold(dir, x, stop, true, act);
    DeviceStepKeepsPlaces(dir, x, stop, true, act);
    DeviceStepKeepsReports(dir, x, stop, true, act);
    DeviceStepKeepsLoop(dir, x, stop, true, act);
  }

  /** A thread whose deliveries succeed declares its device lost exactly when ten
      waits in a row have expired. */
  lemma {:induction false} LostAfterTenInARow(dir: Direction, xs: seq<Device>, stops: seq<bool>, acts: seq<Act>, n: nat)
    requires LoopRun(dir, xs, stops, acts) && n <= |acts|
    ensures DeviceInv(xs[n]) && Counts(xs[n], Expired(acts[..n]))
    ensures xs[n].latched <==> Expired(acts[..n]) >= 10
  {
    if n > 0 {
      LostAfterTenInARow(dir, xs, stops, acts, n - 1);
      assert acts[..n][..n - 1] == acts[..n - 1];
      StepKeepsDevice(dir, xs[n - 1], stops[n - 1], acts[n - 1]);
      StepCounts(dir, xs[n - 1], stops[n - 1], acts[n - 1], Expired(acts[..n - 1]));
    }
  }

  /** The latch is up exactly when some device thread raised it, and a thread of
      an opened stream that ended unasked raised it itself or panicked. */
  lemma DeadThreadIsLatched(states: seq<State>, steps: seq<Step>, k: nat)
    requires IsRun(states, steps) && k < |states|
    requires states[k].parent.Returned? && states[k].parent.outcome.Opened?
    ensures var s := states[k];
      && (s.errored <==> s.cap.latched || s.ren.latched)
      && (s.cap.pc.Finished? && !s.stop ==> s.cap.latched || s.cap.panicked)
      && (s.ren.pc.Finished? && !s.stop ==> s.ren.latched || s.ren.panicked)
  {
    RunKeepsInv(states, steps, k);
  }

  /** Nothing this thread did tells the poller: it has not latched, and if it is
      gone, it panicked. */
  predicate Silent(x: Device) {
    !x.latched && (x.pc.Finished? ==> x.panicked)
  }

  /** Exactly when the poller of an opened, unstopped stream with a dead thread
      hears nothing of it. */
  lemma DeathIsSilentIff(states: seq<State>, steps: seq<Step>, k: nat)
    requires IsRun(states, steps) && k < |states|
    requires states[k].parent.Returned? && states[k].parent.outcome.Opened? && !states[k].stop
    requires states[k].cap.pc.Finished? || states[k].ren.pc.Finished?
    ensures !states[k].errored <==> Silent(states[k].cap) && Silent(states[k].ren)
  {
    RunKeepsInv(states, steps, k);
  }

  /** And when a panic brings that about: it goes unheard exactly when it strikes
      before the thread has broken off its own loop, and the other thread has
      latched nothing. */
  lemma PanicIsSilentIff(states: seq<State>, steps: seq<Step>, k: nat, dir: Direction)
    requires IsRun(states, steps) && k < |states|
    requires states[k].parent.Returned? && states[k].parent.outcome.Opened? && !states[k].stop
    requires Enabled(states[k], DeviceStep(dir, Panic))
    ensures var s := states[k];
      var (mine, other) := if dir == Capture then (s.cap, s.ren) else (s.ren, s.cap);
      !Next(s, DeviceStep(dir, Panic)).errored <==> !mine.pc.Stopping? && !other.latched
  {
    RunKeepsInv(states, steps, k);
  }

  /** A finite run that ends in a given state. */
  ghost predicate Reachable(s: State) {
    exists states, steps :: IsRun(states, steps) && states[|steps|] == s
  }

  lemma ReachNext(s: State, step: Step, t: State)
    requires Reachable(s) && Enabled(s, step) && t == Next(s, step)
    ensures Reachable(t)
  {
    var states, steps :| IsRun(states, steps) && states[|steps|] == s;
    assert IsRun(states + [t], steps + [step]);
    assert (states + [t])[|steps + [step]|] == t;
  }

  const FIRST: State := State(1, Begin, false, false, FRESH, FRESH)
  const UP: Device := FRESH.(pc := Setup)
  const TOLD: Device := FRESH.(pc := Awaiting, ready := Some(ReadyOk(1)), sent := Some(ReadyOk(1)))
  const HEARD: Device := TOLD.(ready := None)
  const GIVEN: Device := HEARD.(withParent := false, inChannel := true, accepted := true)

  lemma ReachSpawned()
    ensures Reachable(FIRST.(parent := RecvCapture, cap := UP, ren := UP))
  {
    var none: seq<Step> := [];
    assert IsRun([FIRST], none) && [FIRST][|none|] == FIRST;
    var s1 := FIRST.(parent := SpawnCapture);
    ReachNext(FIRST, ParentStep(true), s1);
    var s2 := FIRST.(parent := SpawnRender, cap := UP);
    ReachNext(s1, ParentStep(true), s2);
    ReachNext(s2, ParentStep(true), s2.(parent := RecvCapture, ren := UP));
  }

  lemma ReachReported()
    ensures Reachable(FIRST.(parent := RecvCapture, cap := TOLD, ren := TOLD))
  {
    ReachSpawned();
    var s := FIRST.(parent := RecvCapture, cap := UP, ren := UP);
    var ready := UP.(pc := Reporting(ReadyOk(1)));
    ReachNext(s, DeviceStep(Capture, SetupOk(1)), s.(cap := ready));
    ReachNext(s.(cap := ready), DeviceStep(Capture, SendReport), s.(cap := TOLD));
    ReachNext(s.(cap := TOLD), DeviceStep(Playback, SetupOk(1)), s.(cap := TOLD, ren := ready));
    ReachNext(s.(cap := TOLD, ren := ready), DeviceStep(Playback, SendReport), s.(cap := TOLD, ren := TOLD));
  }

  lemma ReachAgreed()
    ensures Reachable(FIRST.(parent := SendCapture(1, 1), cap := HEARD, ren := HEARD))
  {
    ReachReported();
    var s := FIRST.(parent := RecvCapture, cap := TOLD, ren := TOLD);
    var s1 := s.(parent := RecvRender(ReadyOk(1)), cap := HEARD);
    ReachNext(s, ParentStep(true), s1);
    var s2 := s1.(parent := Decide(ReadyOk(1), ReadyOk(1)), ren := HEARD);
    ReachNext(s1, ParentStep(true), s2);
    ReachNext(s2, ParentStep(true), s2.(parent := SendCapture(1, 1)));
  }

  lemma ReachOpened()
    ensures Reachable(FIRST.(parent := Returned(Opened(2, 1)), cap := GIVEN, ren := GIVEN))
  {
    ReachAgreed();
    var s := FIRST.(parent := SendCapture(1, 1), cap := HEARD, ren := HEARD);
    var s1 := s.(parent := SendRender(1, 1, true), cap := GIVEN);
    ReachNext(s, ParentStep(true), s1);
    var s2 := s1.(parent := Commit(1, 1, true, true), ren := GIVEN);
    ReachNext(s1, ParentStep(true), s2);
    ReachNext(s2, ParentStep(true), s2.(parent := Returned(Opened(2, 1))));
  }

  lemma ReachStarting(s: State, mine: Device)
    requires Reachable(s) && s.cap == GIVEN && mine == GIVEN.(inChannel := false, withThread := true)
    ensures Reachable(s.(cap := mine.(pc := Starting)))
  {
    ReachNext(s, DeviceStep(Capture, TakeHalf), s.(cap := mine.(pc := Staging)));
    ReachNext(s.(cap := mine.(pc := Staging)), DeviceStep(Capture, StageOk), s.(cap := mine.(pc := Starting)));
  }

  lemma ReachPanic(s: State, dead: Device)
    requires Reachable(s) && s.cap == GIVEN && !s.stop
    requires dead == GIVEN.(pc := Leaving, inChannel := false, dropped := true, started := true, panicked := true)
    ensures Reachable(s.(cap := dead))
  {
    var mine := GIVEN.(inChannel := false, withThread := true);
    ReachStarting(s, mine);
    var live := mine.(pc := LoopTop(0), started := true);
    ReachNext(s.(cap := mine.(pc := Starting)), DeviceStep(Capture, StartOk), s.(cap := live));
    ReachNext(s.(cap := live), DeviceStep(Capture, Panic), s.(cap := dead));
  }

  /** The panic case of DeadThreadIsLatched is real: an opened stream can lose
      its capture thread without the error latch ever being set. */
  lemma PanicIsSilent()
    ensures exists s :: Reachable(s) && s.parent.Returned? && s.parent.outcome.Opened?
                        && s.cap.pc.Finished? && s.cap.started && !s.errored && !s.stop
  {
    ReachOpened();
    var s := FIRST.(parent := Returned(Opened(2, 1)), cap := GIVEN, ren := GIVEN);
    var dead := GIVEN.(pc := Leaving, inChannel := false, dropped := true, started := true, panicked := true);
    ReachPanic(s, dead);
    var deaf := dead.(readyTx := false);
    ReachNext(s.(cap := dead), DeviceStep(Capture, DropReadyTx), s.(cap := deaf));
    ReachNext(s.(cap := deaf), DeviceStep(Capture, DropHandlerRx), s.(cap := deaf.(handlerRx := false)));
    var gone := deaf.(handlerRx := false, pc := Finished);
    ReachNext(s.(cap := deaf.(handlerRx := false)), DeviceStep(Capture, Exit), s.(cap := gone));
  }
}
