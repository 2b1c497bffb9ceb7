/** The rendezvous never deadlocks and never hangs. Driver calls and event
    waits are steps that are always enabled, so what is proved is that nothing
    in the protocol itself can keep the opener from returning. */
module RendezvousLiveness {
  import opened Types
  import opened WasapiPolicy
  import opened Wrappers
  import opened Rendezvous

  /** Laps of a device loop cost nothing until the stop flag is up; from then
      on the loop only runs down. */
  function DeviceRank(x: Device, stop: bool): nat {
    match x.pc
    case Unspawned => 0
    case Setup => 14
    case Reporting(_) => 13
    case Awaiting => 12
    case Staging => 11
    case Starting => 10
    case Waiting(_) => if stop then 8 else 9
    case Delivering(_) => if stop then 7 else 9
    case LoopTop(_) => if stop then 6 else 9
    case Stopping => 5
    case Leaving => 1 + One(x.readyTx) + One(x.handlerRx)
    case Finished => 0
  }

  function PhaseRank(phase: Phase): nat {
    match phase
    case DropCaptureTx => 6
    case DropRenderTx => 5
    case RaiseStop => 4
    case JoinCapture => 3
    case JoinRender => 2
    case Reply => 1
  }

  function ParentRank(pc: ParentPc): nat {
    match pc
    case Begin => 15
    case SpawnCapture => 14
    case SpawnRender => 13
    case RecvCapture => 12
    case RecvRender(_) => 11
    case Decide(_, _) => 10
    case SendCapture(_, _) => 9
    case SendRender(_, _, _) => 8
    case Commit(_, _, _, _) => 7
    case Aborting(phase, _, _) => PhaseRank(phase)
    case Returned(_) => 0
  }

  function Measure(s: State): nat {
    20 * ParentRank(s.parent) + DeviceRank(s.cap, s.stop) + DeviceRank(s.ren, s.stop)
  }

  predicate SamePace(x: Device, y: Device) {
    y.pc == x.pc && y.readyTx == x.readyTx && y.handlerRx == x.handlerRx
  }

  lemma SamePaceRanks(x: Device, y: Device, stop: bool, stop': bool)
    requires SamePace(x, y) && (stop ==> stop')
    ensures DeviceRank(y, stop') <= DeviceRank(x, stop)
  {
  }

  lemma AbortStepPaces(s: State)
    requires s.parent.Aborting?
    ensures var t := AbortNext(s);
      && SamePace(s.cap, t.cap) && SamePace(s.ren, t.ren) && (s.stop ==> t.stop)
      && ParentRank(t.parent) < ParentRank(s.parent)
  {
  }

  /** A parent step moves the opener on and leaves every thread where it is. */
  lemma ParentStepPaces(s: State, spawnOk: bool)
    requires ParentEnabled(s) && !s.parent.SpawnCapture? && !s.parent.SpawnRender?
    ensures var t := ParentNext(s, spawnOk);
      && SamePace(s.cap, t.cap) && SamePace(s.ren, t.ren) && (s.stop ==> t.stop)
      && ParentRank(t.parent) < ParentRank(s.parent)
  {
    if s.parent.Aborting? { AbortStepPaces(s); }
  }

  lemma ParentStepDecreases(s: State, spawnOk: bool)
    requires Inv(s) && ParentEnabled(s)
    ensures Measure(ParentNext(s, spawnOk)) < Measure(s)
  {
    if !s.parent.SpawnCapture? && !s.parent.SpawnRender? {
      var t := ParentNext(s, spawnOk);
      ParentStepPaces(s, spawnOk);
      SamePaceRanks(s.cap, t.cap, s.stop, t.stop);
      SamePaceRanks(s.ren, t.ren, s.stop, t.stop);
    }
  }

  /** A device step lowers its thread's rank, or is a lap of its loop. */
  lemma DeviceStepRanks(dir: Direction, x: Device, stop: bool, listens: bool, act: Act)
    requires DeviceInv(x) && DeviceEnabled(dir, x, stop, act)
    ensures var y := DeviceNext(dir, x, stop, listens, act);
      || DeviceRank(y, stop) < DeviceRank(x, stop)
      || (DeviceRank(y, stop) == DeviceRank(x, stop) && !stop && x.accepted)
  {
  }

  /** While a thread can still lap, the opener is not blocked. */
  lemma LapsLeaveTheOpenerFree(s: State)
    requires Inv(s) && !s.parent.Returned? && !s.stop && (s.cap.accepted || s.ren.accepted)
    ensures ParentEnabled(s)
  {
  }

  lemma StepMeasure(s: State, step: Step)
    requires Inv(s) && Enabled(s, step) && !s.parent.Returned?
    ensures Measure(Next(s, step)) <= Measure(s)
    ensures step.ParentStep? || !ParentEnabled(s) ==> Measure(Next(s, step)) < Measure(s)
  {
    match step
    case ParentStep(spawnOk) => ParentStepDecreases(s, spawnOk);
    case DeviceStep(Capture, act) =>
      DeviceStepRanks(Capture, s.cap, s.stop, true, act);
      if !s.stop && s.cap.accepted { LapsLeaveTheOpenerFree(s); }
    case DeviceStep(Playback, act) =>
      DeviceStepRanks(Playback, s.ren, s.stop, true, act);
      if !s.stop && s.ren.accepted { LapsLeaveTheOpenerFree(s); }
  }

  /** A step some thread can take by itself, without a panic, out of any state
      a thread can be in except blocked on its handler channel. */
  function Natural(x: Device): Act {
    match x.pc
    case Setup => SetupFails(ExclusiveFailure.Other)
    case Reporting(_) => SendReport
    case Awaiting => if x.inChannel then TakeHalf else SeeHangup
    case Staging => StageOk
    case Starting => StartOk
    case LoopTop(_) => CheckStop
    case Waiting(_) => Signalled
    case Delivering(_) => DeliverOk
    case Stopping => StopStream
    case _ => if x.readyTx then DropReadyTx else if x.handlerRx then DropHandlerRx else Exit
  }

  lemma NaturalIsEnabled(dir: Direction, x: Device, stop: bool)
    requires DeviceInv(x) && !Gone(x) && (x.pc.Awaiting? ==> x.inChannel || !x.handlerTx)
    ensures DeviceEnabled(dir, x, stop, Natural(x)) && Natural(x) != Panic
  {
  }

  function Unblocking(s: State): Step {
    if ParentEnabled(s) then ParentStep(true)
    else if s.parent.RecvCapture? || (s.parent.Aborting? && s.parent.phase.JoinCapture?) then
      DeviceStep(Capture, Natural(s.cap))
    else DeviceStep(Playback, Natural(s.ren))
  }

  /** No deadlock: every reachable unfinished state has an enabled step, one
      that is not a panic, and taking it brings the return strictly closer. */
  lemma NoDeadlock(states: seq<State>, steps: seq<Step>, k: nat)
    requires IsRun(states, steps) && k < |states| && !states[k].parent.Returned?
    ensures var s := states[k]; var step := Unblocking(s);
      && Enabled(s, step) && (step.DeviceStep? ==> step.act != Panic)
      && Measure(Next(s, step)) < Measure(s)
  {
    var s := states[k];
    RunKeepsInv(states, steps, k);
    if !ParentEnabled(s) {
      BlockedOpenerWaitsOnALiveThread(s);
    }
    StepMeasure(s, Unblocking(s));
  }

  lemma BlockedOpenerWaitsOnALiveThread(s: State)
    requires Inv(s) && !s.parent.Returned? && !ParentEnabled(s)
    ensures Enabled(s, Unblocking(s)) && Unblocking(s).DeviceStep? && Unblocking(s).act != Panic
  {
    if s.parent.RecvCapture? || (s.parent.Aborting? && s.parent.phase.JoinCapture?) {
      NaturalIsEnabled(Capture, s.cap, s.stop);
    } else {
      NaturalIsEnabled(Playback, s.ren, s.stop);
    }
  }

  /** An infinite schedule that keeps stepping until the open returns and does
      not starve the opener for ever. Device threads need no fairness. */
  ghost predicate IsFairRun(run: nat -> State, sched: nat -> Step) {
    && Init(run(0))
    && (forall i: nat :: !run(i).parent.Returned? ==>
          Enabled(run(i), sched(i)) && run(i + 1) == Next(run(i), sched(i)))
    && (forall i: nat :: OpenerGetsItsTurn(run, sched, i))
  }

  ghost predicate OpenerGetsItsTurn(run: nat -> State, sched: nat -> Step, i: nat) {
    exists j: nat :: i <= j && (sched(j).ParentStep? || !ParentEnabled(run(j)))
  }

  lemma {:induction false} PrefixKeepsInv(run: nat -> State, sched: nat -> Step, k: nat)
    requires IsFairRun(run, sched) && forall i: nat :: i < k ==> !run(i).parent.Returned?
    ensures Inv(run(k))
  {
    if k > 0 {
      PrefixKeepsInv(run, sched, k - 1);
      StepKeepsInv(run(k - 1), sched(k - 1));
    }
  }

  lemma TurnMeasure(run: nat -> State, sched: nat -> Step, i: nat)
    requires IsFairRun(run, sched) && Inv(run(i)) && !run(i).parent.Returned?
    ensures Measure(run(i + 1)) <= Measure(run(i))
    ensures sched(i).ParentStep? || !ParentEnabled(run(i)) ==> Measure(run(i + 1)) < Measure(run(i))
  {
    StepMeasure(run(i), sched(i));
  }

  lemma {:induction false} MeasureNeverRises(run: nat -> State, sched: nat -> Step, i: nat, j: nat)
    requires IsFairRun(run, sched) && i <= j
    requires forall k: nat :: k < j ==> !run(k).parent.Returned?
    ensures Measure(run(j)) <= Measure(run(i))
  {
    if i < j {
      MeasureNeverRises(run, sched, i, j - 1);
      PrefixKeepsInv(run, sched, j - 1);
      TurnMeasure(run, sched, j - 1);
    }
  }

  lemma {:induction false} ReturnsFrom(run: nat -> State, sched: nat -> Step, i: nat) returns (n: nat)
    requires IsFairRun(run, sched) && forall k: nat :: k < i ==> !run(k).parent.Returned?
    ensures run(n).parent.Returned?
    decreases Measure(run(i))
  {
    assert OpenerGetsItsTurn(run, sched, i);
    var j: nat :| i <= j && (sched(j).ParentStep? || !ParentEnabled(run(j)));
    if m: nat :| m <= j && run(m).parent.Returned? {
      n := m;
    } else {
      MeasureNeverRises(run, sched, i, j);
      PrefixKeepsInv(run, sched, j);
      TurnMeasure(run, sched, j);
      n := ReturnsFrom(run, sched, j + 1);
    }
  }

  /** The open always returns: on every fair schedule, whatever the drivers
      answer and whichever threads panic. */
  lemma OpenReturns(run: nat -> State, sched: nat -> Step)
    requires IsFairRun(run, sched)
    ensures exists n: nat :: run(n).parent.Returned?
  {
    var n := ReturnsFrom(run, sched, 0);
  }
}
