/** Contested clocks: the set of devices a backend has given up asking for the
    session rate, driven by opens, asynchronous error callbacks, polls and closes
    in any order. An error callback is its two atomic stores; a poll and
    an open are one step each. */
module Demotion {
  import opened RateLadder
  import opened Rates
  import opened Types
  import opened Wrappers

  type DeviceId = string

  datatype ErrorKind = DeviceChanged | RealtimeDenied | UnsupportedConfig | OtherKind

  /** What a stream's open left on its handle, its two flags and the poll latch.
      `polled` and `sawRefusal` are history: a poll has returned true, and the poll
      that noted the death saw the refusal. */
  datatype Handle = Handle(
    clockSet: seq<DeviceId>,
    attempted: seq<DeviceId>,
    errored: bool,
    refused: bool,
    noted: bool,
    closed: bool,
    polled: bool,
    sawRefusal: bool)

  // -------------------------------------------------------------------------
  // The pieces as the backend runs them
  // -------------------------------------------------------------------------

  function Members(ids: seq<DeviceId>): set<DeviceId> {
    set d | d in ids
  }

  function DeadStreamDemotes(clockSet: seq<DeviceId>, attempted: seq<DeviceId>, refused: bool): set<DeviceId> {
    Members(clockSet) + if refused then Members(attempted) else {}
  }

  /** A poll notes a death at most once, and only if there is something to demote. */
  predicate Notes(h: Handle) {
    h.errored && !(h.clockSet == [] && h.attempted == []) && !h.noted
  }

  function PollHandle(h: Handle): Handle {
    var seen := h.(polled := h.polled || h.errored);
    if Notes(h) then seen.(noted := true, sawRefusal := h.refused) else seen
  }

  function PollDemoted(demoted: set<DeviceId>, h: Handle): set<DeviceId> {
    if Notes(h) then demoted + DeadStreamDemotes(h.clockSet, h.attempted, h.refused) else demoted
  }

  /** The demoted set every handle of one backend shares. */
  class DemotedSet {
    var ids: set<DeviceId>

    constructor ()
      ensures ids == {}
    {
      ids := {};
    }

    method Demote(devices: seq<DeviceId>)
      modifies this
      ensures ids == old(ids) + Members(devices)
    {
      var i := 0;
      while i < |devices|
        invariant 0 <= i <= |devices| && ids == old(ids) + Members(devices[..i])
      {
        assert Members(devices[..i + 1]) == Members(devices[..i]) + {devices[i]};
        ids := ids + {devices[i]};
        i := i + 1;
      }
      assert devices[..i] == devices;
    }
  }

  class CpalStreamHandle {
    const demoted: DemotedSet
    var handle: Handle

    constructor (demoted: DemotedSet, clockSet: seq<DeviceId>, attempted: seq<DeviceId>)
      ensures this.demoted == demoted
      ensures handle == Handle(clockSet, attempted, false, false, false, false, false, false)
    {
      this.demoted := demoted;
      handle := Handle(clockSet, attempted, false, false, false, false, false, false);
    }

    /** The error callback: informational kinds leave the stream alive; anything
        else kills it, with the reason stored before the death. */
    method OnError(kind: ErrorKind)
      modifies this
      ensures handle == old(handle).(
        errored := old(handle).errored || (kind != DeviceChanged && kind != RealtimeDenied),
        refused := old(handle).refused || kind == UnsupportedConfig)
    {
      if kind == DeviceChanged || kind == RealtimeDenied {
        return;
      }
      if kind == UnsupportedConfig {
        handle := handle.(refused := true);
      }
      handle := handle.(errored := true);
    }

    method Errored() returns (dead: bool)
      modifies this, demoted
      ensures dead == old(handle).errored
      ensures handle == PollHandle(old(handle))
      ensures demoted.ids == PollDemoted(old(demoted.ids), old(handle))
    {
      dead := handle.errored;
      if dead && !(handle.clockSet == [] && handle.attempted == []) {
        var already := handle.noted;
        handle := handle.(noted := true);
        if !already {
          var refused := handle.refused;
          handle := handle.(sawRefusal := refused);
          demoted.Demote(handle.clockSet);
          if refused {
            demoted.Demote(handle.attempted);
          }
        }
      }
      handle := handle.(polled := handle.polled || dead);
    }
  }

  // -------------------------------------------------------------------------
  // Opens
  // -------------------------------------------------------------------------

  /** One direction of an open: the device's id when it has one, what it reports,
      and how the host answers the builds. */
  datatype Endpoint = Endpoint(
    id: Option<DeviceId>,
    native: Config,
    supported: seq<ConfigRange>,
    form: FormFactor,
    answers: HostAnswers)

  datatype OpenRequest = OpenRequest(host: Host, session: nat, input: Endpoint, output: Endpoint, plays: bool)

  predicate IsDemoted(demoted: set<DeviceId>, e: Endpoint) {
    e.id.Some? && e.id.value in demoted
  }

  function PlanFor(demoted: set<DeviceId>, o: OpenRequest, dir: Direction, e: Endpoint): Result<Plan, Refusal> {
    PlanDirection(o.session, dir, e.native, e.supported, VerifiesNegotiatedRate(o.host), e.form, IsDemoted(demoted, e))
  }

  function SideFor(demoted: set<DeviceId>, o: OpenRequest, dir: Direction, e: Endpoint): Option<Side> {
    var p := PlanFor(demoted, o, dir, e);
    if p.Err? then None
    else
      var s := OpenSide(e.native, p.value, e.answers);
      if s.Ok? then Some(s.value) else None
  }

  predicate MovedClock(demoted: set<DeviceId>, o: OpenRequest, dir: Direction, e: Endpoint) {
    var s := SideFor(demoted, o, dir, e);
    s.Some? && OutcomeOf(o.host, o.session, e.native.rate, s.value).ClockSet?
  }

  /** Still on its attempt: one that fell through to the converter is not. */
  predicate OnAttempt(demoted: set<DeviceId>, o: OpenRequest, dir: Direction, e: Endpoint) {
    var p, s := PlanFor(demoted, o, dir, e), SideFor(demoted, o, dir, e);
    s.Some? && p.value.attempted && !s.value.converter
  }

  function Recorded(yes: bool, id: Option<DeviceId>): seq<DeviceId> {
    if yes && id.Some? then [id.value] else []
  }

  function OpenDuplex(demoted: set<DeviceId>, o: OpenRequest): Option<Handle> {
    if SideFor(demoted, o, Capture, o.input).None? then None
    else if SideFor(demoted, o, Playback, o.output).None? || !o.plays then None
    else
      Some(Handle(
        Recorded(MovedClock(demoted, o, Capture, o.input), o.input.id)
          + Recorded(MovedClock(demoted, o, Playback, o.output), o.output.id),
        Recorded(OnAttempt(demoted, o, Capture, o.input), o.input.id)
          + Recorded(OnAttempt(demoted, o, Playback, o.output), o.output.id),
        false, false, false, false, false, false))
  }

  /** A device known to be demoted is neither attempted nor has its clock moved. */
  lemma DemotedIsLeftAlone(demoted: set<DeviceId>, o: OpenRequest, dir: Direction, e: Endpoint)
    requires IsDemoted(demoted, e)
    ensures !MovedClock(demoted, o, dir, e) && !OnAttempt(demoted, o, dir, e)
    ensures PlanFor(demoted, o, dir, e).Ok? && !PlanFor(demoted, o, dir, e).value.attempted
  {
  }

  lemma OpenSparesDemoted(demoted: set<DeviceId>, o: OpenRequest, d: DeviceId)
    requires d in demoted && OpenDuplex(demoted, o).Some?
    ensures var h := OpenDuplex(demoted, o).value; d !in h.clockSet && d !in h.attempted
  {
    if o.input.id == Some(d) { DemotedIsLeftAlone(demoted, o, Capture, o.input); }
    if o.output.id == Some(d) { DemotedIsLeftAlone(demoted, o, Playback, o.output); }
  }

  /** What a direction reported, when it opened. */
  function Reported(demoted: set<DeviceId>, o: OpenRequest, dir: Direction, e: Endpoint): Option<RateOutcome> {
    var s := SideFor(demoted, o, dir, e);
    if s.Some? then Some(OutcomeOf(o.host, o.session, e.native.rate, s.value)) else None
  }

  /** The device opened, in either direction, by moving its clock. */
  predicate ClockMoved(demoted: set<DeviceId>, o: OpenRequest, d: DeviceId) {
    var i, p := Reported(demoted, o, Capture, o.input), Reported(demoted, o, Playback, o.output);
    || (o.input.id == Some(d) && i.Some? && i.value.ClockSet?)
    || (o.output.id == Some(d) && p.Some? && p.value.ClockSet?)
  }

  /** One direction was opened by asking, and has not been converted since. */
  predicate AttemptStands(demoted: set<DeviceId>, o: OpenRequest, dir: Direction, e: Endpoint) {
    var p, r := PlanFor(demoted, o, dir, e), Reported(demoted, o, dir, e);
    p.Ok? && p.value.attempted && r.Some? && !r.value.Resampled?
  }

  predicate RateAttempted(demoted: set<DeviceId>, o: OpenRequest, d: DeviceId) {
    || (o.input.id == Some(d) && AttemptStands(demoted, o, Capture, o.input))
    || (o.output.id == Some(d) && AttemptStands(demoted, o, Playback, o.output))
  }

  /** What a successful open records: exactly the devices whose clock it moved, in
      either direction, and exactly those still on an attempt; and nothing that has
      yet to happen. */
  lemma OpenRecords(demoted: set<DeviceId>, o: OpenRequest, d: DeviceId)
    requires OpenDuplex(demoted, o).Some?
    ensures var h := OpenDuplex(demoted, o).value;
      && (d in h.clockSet <==> ClockMoved(demoted, o, d))
      && (d in h.attempted <==> RateAttempted(demoted, o, d))
      && !h.errored && !h.refused && !h.noted && !h.closed && !h.polled && !h.sawRefusal
  {
  }

  /** A direction opens when its plan is built, or when its attempt is refused, its
      half handed back, and the native rate built. */
  predicate DirectionOpens(demoted: set<DeviceId>, o: OpenRequest, dir: Direction, e: Endpoint) {
    var p := PlanFor(demoted, o, dir, e);
    p.Ok? && (e.answers.built || (p.value.attempted && !e.answers.claimed && e.answers.nativeBuilt))
  }

  /** Each direction is planned from its own endpoint, as demoted exactly when its
      device is, on exactly the hosts that verify; and what it reports, exactly when
      it opens, is the outcome of the plan when the host built it, and of the
      converter at the native rate when it did not. */
  lemma DirectionIs(demoted: set<DeviceId>, o: OpenRequest, dir: Direction, e: Endpoint)
    ensures PlanFor(demoted, o, dir, e) ==
      PlanDirection(o.session, dir, e.native, e.supported, o.host in {CoreAudio, Wasapi, PipeWire}, e.form,
                    e.id.Some? && e.id.value in demoted)
    ensures Reported(demoted, o, dir, e).Some? <==> DirectionOpens(demoted, o, dir, e)
    ensures DirectionOpens(demoted, o, dir, e) ==>
      var p := PlanFor(demoted, o, dir, e).value;
      var side := if e.answers.built then Side(p.open.rate, p.convert) else Side(e.native.rate, true);
      Reported(demoted, o, dir, e) == Some(OutcomeOf(o.host, o.session, e.native.rate, side))
  {
  }

  /** An open succeeds exactly when both directions do and playing starts. */
  lemma OpensIff(demoted: set<DeviceId>, o: OpenRequest)
    ensures OpenDuplex(demoted, o).Some? <==>
      DirectionOpens(demoted, o, Capture, o.input) && DirectionOpens(demoted, o, Playback, o.output) && o.plays
  {
    DirectionIs(demoted, o, Capture, o.input);
    DirectionIs(demoted, o, Playback, o.output);
  }

  /** Other devices' demotions make no difference to an open. */
  lemma OpenIgnoresOthers(demoted: set<DeviceId>, o: OpenRequest)
    requires forall d :: d in demoted ==> o.input.id != Some(d) && o.output.id != Some(d)
    ensures OpenDuplex(demoted, o) == OpenDuplex({}, o)
  {
    assert !IsDemoted(demoted, o.input) && !IsDemoted(demoted, o.output);
  }

  // -------------------------------------------------------------------------
  // Runs
  // -------------------------------------------------------------------------

  datatype State = State(demoted: set<DeviceId>, streams: seq<Handle>)

  datatype Event =
    | Open(o: OpenRequest)
    | StoreRefused(i: nat)
    | StoreErrored(i: nat)
    | Poll(i: nat)
    | Close(i: nat)

  /** A closed stream is gone: nothing calls back and nobody polls it. */
  predicate Live(s: State, i: nat) {
    i < |s.streams| && !s.streams[i].closed
  }

  function Step(s: State, e: Event): State {
    match e
    case Open(o) =>
      var h := OpenDuplex(s.demoted, o);
      if h.Some? then s.(streams := s.streams + [h.value]) else s
    case StoreRefused(i) =>
      if Live(s, i) then s.(streams := s.streams[i := s.streams[i].(refused := true)]) else s
    case StoreErrored(i) =>
      if Live(s, i) then s.(streams := s.streams[i := s.streams[i].(errored := true)]) else s
    case Poll(i) =>
      if Live(s, i) then
        State(PollDemoted(s.demoted, s.streams[i]), s.streams[i := PollHandle(s.streams[i])])
      else s
    case Close(i) =>
      if Live(s, i) then s.(streams := s.streams[i := s.streams[i].(closed := true)]) else s
  }

  function Run(events: seq<Event>): State {
    if events == [] then State({}, []) else Step(Run(events[..|events| - 1]), events[|events| - 1])
  }

  lemma RunThen(events: seq<Event>, e: Event)
    ensures Run(events + [e]) == Step(Run(events), e)
  {
    assert (events + [e])[..|events + [e]| - 1] == events;
  }

  lemma StepGrows(s: State, e: Event)
    ensures s.demoted <= Step(s, e).demoted
  {
  }

  lemma LastEventGrows(events: seq<Event>)
    requires events != []
    ensures Run(events[..|events| - 1]).demoted <= Run(events).demoted
  {
    StepGrows(Run(events[..|events| - 1]), events[|events| - 1]);
  }

  /** The demoted set only grows. */
  lemma {:induction false} DemotedOnlyGrows(before: seq<Event>, after: seq<Event>)
    requires before <= after
    ensures Run(before).demoted <= Run(after).demoted
  {
    if before != after {
      DemotedOnlyGrows(before, after[..|after| - 1]);
      LastEventGrows(after);
    }
  }

  /** Why a device is demoted. */
  predicate Condemns(h: Handle, d: DeviceId) {
    h.noted && (d in h.clockSet || (h.sawRefusal && d in h.attempted))
  }

  ghost predicate Condemned(streams: seq<Handle>, d: DeviceId) {
    exists i :: 0 <= i < |streams| && Condemns(streams[i], d)
  }

  /** What every event keeps: the set is exactly what the noted deaths condemn, and
      a death is noted only after it happened. */
  ghost predicate Inv(s: State) {
    && (forall d :: d in s.demoted <==> Condemned(s.streams, d))
    && forall i :: 0 <= i < |s.streams| ==> HandleInv(s.streams[i])
  }

  predicate HandleInv(h: Handle) {
    && (h.noted ==> h.polled) && (h.polled ==> h.errored)
    && (h.polled && !(h.clockSet == [] && h.attempted == []) ==> h.noted)
    && (h.sawRefusal ==> h.refused && h.noted)
  }

  /** Replacing a handle by one that condemns the same devices. */
  lemma SameCondemned(s: State, i: nat, h: Handle)
    requires Inv(s) && i < |s.streams| && HandleInv(h)
    requires forall d :: Condemns(h, d) <==> Condemns(s.streams[i], d)
    ensures Inv(s.(streams := s.streams[i := h]))
  {
    var after := s.streams[i := h];
    forall d
      ensures Condemned(after, d) <==> Condemned(s.streams, d)
    {
      if k :| 0 <= k < |after| && Condemns(after[k], d) { assert Condemns(s.streams[k], d); }
      if k :| 0 <= k < |after| && Condemns(s.streams[k], d) { assert Condemns(after[k], d); }
    }
  }

  lemma OpenKeeps(s: State, o: OpenRequest)
    requires Inv(s)
    ensures Inv(Step(s, Open(o)))
  {
    var after := Step(s, Open(o)).streams;
    forall d
      ensures Condemned(after, d) <==> Condemned(s.streams, d)
    {
      if k :| 0 <= k < |after| && Condemns(after[k], d) { assert Condemns(s.streams[k], d); }
      if k :| 0 <= k < |s.streams| && Condemns(s.streams[k], d) { assert Condemns(after[k], d); }
    }
  }

  lemma PollKeeps(s: State, i: nat)
    requires Inv(s) && Live(s, i)
    ensures Inv(Step(s, Poll(i)))
  {
    var h, t := s.streams[i], Step(s, Poll(i));
    if !Notes(h) {
      SameCondemned(s, i, PollHandle(h));
    } else {
      forall d
        ensures d in t.demoted <==> Condemned(t.streams, d)
      {
        if d in s.demoted {
          var k :| 0 <= k < |s.streams| && Condemns(s.streams[k], d);
          assert Condemns(t.streams[k], d);
        } else if d in t.demoted {
          assert Condemns(t.streams[i], d);
        } else {
          forall k | 0 <= k < |t.streams|
            ensures !Condemns(t.streams[k], d)
          {
            assert k != i ==> t.streams[k] == s.streams[k];
          }
        }
      }
    }
  }

  lemma StepKeeps(s: State, e: Event)
    requires Inv(s)
    ensures Inv(Step(s, e))
  {
    match e
    case Open(o) => OpenKeeps(s, o);
    case Poll(i) => if Live(s, i) { PollKeeps(s, i); }
    case StoreRefused(i) => if Live(s, i) { SameCondemned(s, i, s.streams[i].(refused := true)); }
    case StoreErrored(i) => if Live(s, i) { SameCondemned(s, i, s.streams[i].(errored := true)); }
    case Close(i) => if Live(s, i) { SameCondemned(s, i, s.streams[i].(closed := true)); }
  }

  lemma {:induction false} RunKeeps(events: seq<Event>)
    ensures Inv(Run(events))
  {
    if events != [] {
      RunKeeps(events[..|events| - 1]);
      StepKeeps(Run(events[..|events| - 1]), events[|events| - 1]);
    }
  }

  /** The two ways a stream loses a device: it died after moving the device's
      clock, or the poll that noted its death saw its attempt refused. */
  datatype Loss = OfClock | OfAttempt

  predicate Records(l: Loss, h: Handle, d: DeviceId) {
    match l
    case OfClock => d in h.clockSet
    case OfAttempt => d in h.attempted
  }

  /** Stream i of a run is the one this open of it made, after the events before. */
  ghost predicate OpenedBy(events: seq<Event>, before: seq<Event>, o: OpenRequest, i: nat) {
    && before + [Open(o)] <= events
    && OpenDuplex(Run(before).demoted, o).Some? && |Run(before).streams| == i
  }

  /** The open moved the device's clock, or left its attempt at the rate standing. */
  predicate RecordedBy(before: seq<Event>, o: OpenRequest, l: Loss, d: DeviceId) {
    match l
    case OfClock => ClockMoved(Run(before).demoted, o, d)
    case OfAttempt => RateAttempted(Run(before).demoted, o, d)
  }

  ghost predicate SameRecords(h: Handle, before: seq<Event>, o: OpenRequest) {
    forall l, d :: Records(l, h, d) <==> RecordedBy(before, o, l, d)
  }

  lemma StepKeepsRecords(s: State, e: Event, i: nat)
    requires i < |s.streams|
    ensures |s.streams| <= |Step(s, e).streams|
    ensures Step(s, e).streams[i].clockSet == s.streams[i].clockSet
    ensures Step(s, e).streams[i].attempted == s.streams[i].attempted
  {
  }

  lemma LastEventKeepsRecords(events: seq<Event>, i: nat)
    requires events != [] && i < |Run(events[..|events| - 1]).streams|
    ensures i < |Run(events).streams|
    ensures var was := Run(events[..|events| - 1]).streams[i];
      forall l, d :: Records(l, Run(events).streams[i], d) <==> Records(l, was, d)
  {
    StepKeepsRecords(Run(events[..|events| - 1]), events[|events| - 1], i);
  }

  lemma StepOpens(s: State, e: Event, i: nat)
    requires |s.streams| <= i < |Step(s, e).streams|
    ensures i == |s.streams| && e.Open? && OpenDuplex(s.demoted, e.o) == Some(Step(s, e).streams[i])
  {
  }

  lemma LastEventOpens(events: seq<Event>, i: nat)
    requires events != [] && |Run(events[..|events| - 1]).streams| <= i < |Run(events).streams|
    ensures var before, e := events[..|events| - 1], events[|events| - 1];
      e.Open? && OpenedBy(events, before, e.o, i) && SameRecords(Run(events).streams[i], before, e.o)
  {
    var before, e := events[..|events| - 1], events[|events| - 1];
    StepOpens(Run(before), e, i);
    assert before + [e] == events;
    forall l, d
      ensures Records(l, OpenDuplex(Run(before).demoted, e.o).value, d) <==> RecordedBy(before, e.o, l, d)
    {
      OpenRecords(Run(before).demoted, e.o, d);
    }
  }

  /** Every stream was made by one open, and carries what that open recorded. */
  lemma {:induction false} StreamIsOpened(events: seq<Event>, i: nat) returns (before: seq<Event>, o: OpenRequest)
    requires i < |Run(events).streams|
    ensures OpenedBy(events, before, o, i) && SameRecords(Run(events).streams[i], before, o)
  {
    var last := |events| - 1;
    if i < |Run(events[..last]).streams| {
      before, o := StreamIsOpened(events[..last], i);
      LastEventKeepsRecords(events, i);
    } else {
      before, o := events[..last], events[last].o;
      LastEventOpens(events, i);
    }
  }

  lemma LastEventKeepsStreams(events: seq<Event>)
    requires events != []
    ensures |Run(events[..|events| - 1]).streams| <= |Run(events).streams|
  {
  }

  lemma {:induction false} StreamsOnlyGrow(before: seq<Event>, after: seq<Event>)
    requires before <= after
    ensures |Run(before).streams| <= |Run(after).streams|
  {
    if before != after {
      StreamsOnlyGrow(before, after[..|after| - 1]);
      LastEventKeepsStreams(after);
    }
  }

  lemma OpenAdds(before: seq<Event>, o: OpenRequest)
    requires OpenDuplex(Run(before).demoted, o).Some?
    ensures |Run(before + [Open(o)]).streams| == |Run(before).streams| + 1
  {
    RunThen(before, Open(o));
  }

  lemma OneOpenPerStream(events: seq<Event>, a: seq<Event>, p: OpenRequest, b: seq<Event>, q: OpenRequest, i: nat)
    requires OpenedBy(events, a, p, i) && OpenedBy(events, b, q, i)
    ensures a == b && p == q
  {
    OpenAdds(a, p);
    OpenAdds(b, q);
    if |a| < |b| {
      StreamsOnlyGrow(a + [Open(p)], b);
    } else if |b| < |a| {
      StreamsOnlyGrow(b + [Open(q)], a);
    }
    assert (a + [Open(p)])[|a|] == events[|a|];
    assert (b + [Open(q)])[|b|] == events[|b|];
  }

  /** Stream i died, its death was noted, and that condemned the device: the open
      that made it moved the device's clock; or left an attempt at its rate standing,
      and the noting poll saw a refusal. */
  ghost predicate CondemnedBy(events: seq<Event>, before: seq<Event>, o: OpenRequest, i: nat, d: DeviceId) {
    && OpenedBy(events, before, o, i) && i < |Run(events).streams|
    && DeathCondemns(Run(events).streams[i], before, o, d)
  }

  predicate DeathCondemns(h: Handle, before: seq<Event>, o: OpenRequest, d: DeviceId) {
    h.noted && (RecordedBy(before, o, OfClock, d) || (RecordedBy(before, o, OfAttempt, d) && h.sawRefusal))
  }

  lemma CondemnedThrough(h: Handle, before: seq<Event>, o: OpenRequest, d: DeviceId)
    requires SameRecords(h, before, o)
    ensures DeathCondemns(h, before, o, d) <==> Condemns(h, d)
  {
    assert Records(OfClock, h, d) <==> RecordedBy(before, o, OfClock, d);
    assert Records(OfAttempt, h, d) <==> RecordedBy(before, o, OfAttempt, d);
  }

  lemma CondemnedByOpen(events: seq<Event>, before: seq<Event>, o: OpenRequest, i: nat, d: DeviceId)
    requires CondemnedBy(events, before, o, i, d)
    ensures Condemned(Run(events).streams, d)
  {
    var b, q := StreamIsOpened(events, i);
    OneOpenPerStream(events, before, o, b, q, i);
    CondemnedThrough(Run(events).streams[i], before, o, d);
    assert Condemns(Run(events).streams[i], d);
  }

  lemma CondemnedHasAnOpen(events: seq<Event>, d: DeviceId)
    requires Condemned(Run(events).streams, d)
    ensures exists before, o, i :: CondemnedBy(events, before, o, i, d)
  {
    var i :| 0 <= i < |Run(events).streams| && Condemns(Run(events).streams[i], d);
    var before, o := StreamIsOpened(events, i);
    CondemnedThrough(Run(events).streams[i], before, o, d);
    assert CondemnedBy(events, before, o, i, d);
  }

  /** Exactly what is demoted after any run: the devices some open of the run moved
      the clock of, once a poll found its stream dead; and the devices some open
      attempted, when that poll found a refusal. An unplug alone never demotes an
      attempted device. */
  lemma DemotedIff(events: seq<Event>, d: DeviceId)
    ensures d in Run(events).demoted <==> exists before, o, i :: CondemnedBy(events, before, o, i, d)
  {
    RunKeeps(events);
    if d in Run(events).demoted {
      CondemnedHasAnOpen(events, d);
    }
    if before, o, i :| CondemnedBy(events, before, o, i, d) {
      CondemnedByOpen(events, before, o, i, d);
    }
  }

  /** No contest after a demotion: over any run, an open made once a device is
      demoted neither attempts it nor moves its clock. */
  lemma NoContestAfterDemotion(before: seq<Event>, after: seq<Event>, o: OpenRequest, d: DeviceId)
    requires before <= after && d in Run(before).demoted
    ensures var h := OpenDuplex(Run(after).demoted, o);
      h.Some? ==> d !in h.value.clockSet && d !in h.value.attempted
  {
    DemotedOnlyGrows(before, after);
    if OpenDuplex(Run(after).demoted, o).Some? {
      OpenSparesDemoted(Run(after).demoted, o, d);
    }
  }

  // -------------------------------------------------------------------------
  // How often a device can be lost
  // -------------------------------------------------------------------------

  predicate Lost(l: Loss, h: Handle, d: DeviceId) {
    Records(l, h, d) && match l case OfClock => h.errored case OfAttempt => h.sawRefusal
  }

  /** A recording stream that is lost, or still can be: a clock-moved one until it
      is closed alive, an attempted one until its death is noted or it is closed. */
  predicate MayLose(l: Loss, h: Handle, d: DeviceId) {
    Records(l, h, d) && match l
      case OfClock => h.errored || !h.closed
      case OfAttempt => h.sawRefusal || (!h.noted && !h.closed)
  }

  ghost predicate TwoLost(l: Loss, s: State, d: DeviceId) {
    exists i, j :: 0 <= i < j < |s.streams| && Lost(l, s.streams[i], d) && Lost(l, s.streams[j], d)
  }

  ghost predicate TwoMayLose(l: Loss, s: State, d: DeviceId) {
    exists i, j :: 0 <= i < j < |s.streams| && MayLose(l, s.streams[i], d) && MayLose(l, s.streams[j], d)
  }

  predicate NoOpens(events: seq<Event>) {
    forall k | 0 <= k < |events| :: !events[k].Open?
  }

  /** Without an open, no stream that could not lose the device comes to. */
  lemma StepKeepsMayLose(l: Loss, s: State, e: Event, i: nat, d: DeviceId)
    requires !e.Open? && i < |s.streams|
    ensures |Step(s, e).streams| == |s.streams|
    ensures MayLose(l, Step(s, e).streams[i], d) ==> MayLose(l, s.streams[i], d)
  {
  }

  lemma {:induction false} RunKeepsMayLose(l: Loss, events: seq<Event>, more: seq<Event>, i: nat, d: DeviceId)
    requires NoOpens(more) && i < |Run(events + more).streams|
    ensures |Run(events + more).streams| == |Run(events).streams|
    ensures MayLose(l, Run(events + more).streams[i], d) ==> MayLose(l, Run(events).streams[i], d)
    decreases |more|
  {
    if more == [] {
      assert events + more == events;
    } else {
      var before, last := more[..|more| - 1], more[|more| - 1];
      assert events + more == events + before + [last];
      RunThen(events + before, last);
      StepKeepsMayLose(l, Run(events + before), last, if i < |Run(events + before).streams| then i else 0, d);
      RunKeepsMayLose(l, events, before, i, d);
    }
  }

  /** What it takes to lose stream i. */
  function Losing(l: Loss, h: Handle, i: nat): (more: seq<Event>)
    ensures NoOpens(more)
  {
    match l
    case OfClock => [StoreErrored(i)]
    case OfAttempt => if h.sawRefusal then [] else [StoreRefused(i), StoreErrored(i), Poll(i)]
  }

  /** Exactly stream i is touched. */
  ghost predicate Touches(s: State, t: State, i: nat) {
    && |t.streams| == |s.streams|
    && forall k | 0 <= k < |s.streams| && k != i :: t.streams[k] == s.streams[k]
  }

  lemma LosingLoses(l: Loss, events: seq<Event>, i: nat, d: DeviceId)
    requires i < |Run(events).streams| && MayLose(l, Run(events).streams[i], d)
    ensures var t := Run(events + Losing(l, Run(events).streams[i], i));
      Touches(Run(events), t, i) && Lost(l, t.streams[i], d)
  {
    match l
    case OfClock => RunThen(events, StoreErrored(i));
    case OfAttempt =>
      if Run(events).streams[i].sawRefusal {
        assert events + [] == events;
      } else {
        RefusedIsLost(events, i, d);
      }
  }

  lemma RefusedIsLost(events: seq<Event>, i: nat, d: DeviceId)
    requires i < |Run(events).streams| && !Run(events).streams[i].sawRefusal
    requires MayLose(OfAttempt, Run(events).streams[i], d)
    ensures var t := Run(events + [StoreRefused(i), StoreErrored(i), Poll(i)]);
      Touches(Run(events), t, i) && Lost(OfAttempt, t.streams[i], d)
  {
    var a, b := events + [StoreRefused(i)], events + [StoreRefused(i)] + [StoreErrored(i)];
    RunThen(events, StoreRefused(i));
    RunThen(a, StoreErrored(i));
    RunThen(b, Poll(i));
    assert events + [StoreRefused(i), StoreErrored(i), Poll(i)] == b + [Poll(i)];
  }

  ghost predicate CanLoseTwo(l: Loss, events: seq<Event>, d: DeviceId) {
    exists more :: NoOpens(more) && TwoLost(l, Run(events + more), d)
  }

  lemma LoseOne(l: Loss, events: seq<Event>, i: nat, d: DeviceId) returns (more: seq<Event>)
    requires i < |Run(events).streams| && MayLose(l, Run(events).streams[i], d)
    ensures NoOpens(more)
    ensures var t := Run(events + more); Touches(Run(events), t, i) && Lost(l, t.streams[i], d)
  {
    more := Losing(l, Run(events).streams[i], i);
    LosingLoses(l, events, i, d);
  }

  lemma TwoAreLost(l: Loss, s: State, t: State, u: State, d: DeviceId, i: nat, j: nat)
    requires i < j < |s.streams| && Touches(s, t, i) && Touches(t, u, j)
    requires Lost(l, t.streams[i], d) && Lost(l, u.streams[j], d)
    ensures TwoLost(l, u, d)
  {
    assert u.streams[i] == t.streams[i];
  }

  lemma LoseTwo(l: Loss, events: seq<Event>, d: DeviceId, i: nat, j: nat)
    returns (first: seq<Event>, second: seq<Event>)
    requires i < j < |Run(events).streams|
    requires MayLose(l, Run(events).streams[i], d) && MayLose(l, Run(events).streams[j], d)
    ensures NoOpens(first) && NoOpens(second) && TwoLost(l, Run(events + first + second), d)
  {
    first := LoseOne(l, events, i, d);
    second := LoseOne(l, events + first, j, d);
    TwoAreLost(l, Run(events), Run(events + first), Run(events + first + second), d, i, j);
  }

  lemma Joined(l: Loss, events: seq<Event>, first: seq<Event>, second: seq<Event>, d: DeviceId)
    requires NoOpens(first) && NoOpens(second) && TwoLost(l, Run(events + first + second), d)
    ensures CanLoseTwo(l, events, d)
  {
    assert events + first + second == events + (first + second);
    assert NoOpens(first + second);
  }

  lemma LostWasPossible(l: Loss, events: seq<Event>, more: seq<Event>, d: DeviceId)
    requires NoOpens(more) && TwoLost(l, Run(events + more), d)
    ensures TwoMayLose(l, Run(events), d)
  {
    var i, j :| 0 <= i < j < |Run(events + more).streams|
                && Lost(l, Run(events + more).streams[i], d) && Lost(l, Run(events + more).streams[j], d);
    RunKeepsMayLose(l, events, more, i, d);
    RunKeepsMayLose(l, events, more, j, d);
  }

  /** Exactly when one device can be lost twice by the streams there already are:
      when two of them record it and each is lost or still can be. */
  lemma CanLoseTwoIff(l: Loss, events: seq<Event>, d: DeviceId)
    ensures CanLoseTwo(l, events, d) <==> TwoMayLose(l, Run(events), d)
  {
    if TwoMayLose(l, Run(events), d) {
      var i, j :| 0 <= i < j < |Run(events).streams|
                  && MayLose(l, Run(events).streams[i], d) && MayLose(l, Run(events).streams[j], d);
      var first, second := LoseTwo(l, events, d, i, j);
      Joined(l, events, first, second, d);
    }
    if CanLoseTwo(l, events, d) {
      var more :| NoOpens(more) && TwoLost(l, Run(events + more), d);
      LostWasPossible(l, events, more, d);
    }
  }

  /** Over the whole run, opens that record the device find each earlier stream
      that records it past losing it. Other devices, and streams that do not record
      this one, are free. */
  ghost predicate Disciplined(l: Loss, events: seq<Event>, d: DeviceId) {
    events != [] ==>
      var last := |events| - 1;
      Disciplined(l, events[..last], d) && DisciplinedAt(l, Run(events[..last]), events[last], d)
  }

  ghost predicate DisciplinedAt(l: Loss, s: State, e: Event, d: DeviceId) {
    e.Open? && OpenDuplex(s.demoted, e.o).Some? && Records(l, OpenDuplex(s.demoted, e.o).value, d) ==>
      forall i | 0 <= i < |s.streams| :: !MayLose(l, s.streams[i], d)
  }

  /** In any run, disciplined or not, an open that records a device finds no
      earlier stream whose noted death condemned it: the first of two clock-moved
      streams is not yet noted, and no attempt has been seen refused. */
  lemma OpenSparesTheLost(l: Loss, events: seq<Event>, o: OpenRequest, i: nat, d: DeviceId)
    requires i < |Run(events).streams| && OpenDuplex(Run(events).demoted, o).Some?
    requires Records(l, OpenDuplex(Run(events).demoted, o).value, d)
    ensures var h := Run(events).streams[i]; !(h.noted && d in h.clockSet) && !Lost(OfAttempt, h, d)
  {
    var s := Run(events);
    RunKeeps(events);
    assert d !in s.demoted by {
      if d in s.demoted { OpenSparesDemoted(s.demoted, o, d); }
    }
    assert !Condemned(s.streams, d);
    assert !Condemns(s.streams[i], d);
  }

  lemma StepIntroducesTwo(l: Loss, s: State, e: Event, d: DeviceId)
    requires !TwoMayLose(l, s, d)
    ensures TwoMayLose(l, Step(s, e), d) <==> !DisciplinedAt(l, s, e, d)
  {
    if !e.Open? {
      forall i, j | 0 <= i < j < |s.streams|
        ensures !(MayLose(l, Step(s, e).streams[i], d) && MayLose(l, Step(s, e).streams[j], d))
      {
        StepKeepsMayLose(l, s, e, i, d);
        StepKeepsMayLose(l, s, e, j, d);
      }
    } else if OpenDuplex(s.demoted, e.o).Some? {
      OpenIntroducesTwo(l, s, OpenDuplex(s.demoted, e.o).value, d);
    }
  }

  lemma OpenIntroducesTwo(l: Loss, s: State, h: Handle, d: DeviceId)
    requires !TwoMayLose(l, s, d) && !h.errored && !h.closed && !h.noted && !h.sawRefusal
    ensures TwoMayLose(l, s.(streams := s.streams + [h]), d) <==>
      Records(l, h, d) && exists i | 0 <= i < |s.streams| :: MayLose(l, s.streams[i], d)
  {
    var t, n := s.(streams := s.streams + [h]), |s.streams|;
    if i :| 0 <= i < n && Records(l, h, d) && MayLose(l, s.streams[i], d) {
      assert MayLose(l, t.streams[i], d) && MayLose(l, t.streams[n], d);
    } else {
      forall i, j | 0 <= i < j < n + 1
        ensures !(MayLose(l, t.streams[i], d) && MayLose(l, t.streams[j], d))
      {
      }
    }
  }

  /** An earlier stream a recording open need not wait for: its death has been
      noted, or it was closed; a clock-moved one, closed alive. */
  predicate DoneWith(l: Loss, h: Handle) {
    h.noted || (h.closed && (l == OfClock ==> !h.errored))
  }

  /** What the discipline asks of a caller, in what a caller can see: an open that
      records the device finds every earlier stream that records it done with. */
  lemma DisciplineMeans(l: Loss, events: seq<Event>, o: OpenRequest, d: DeviceId)
    requires var h := OpenDuplex(Run(events).demoted, o); h.Some? && Records(l, h.value, d)
    ensures DisciplinedAt(l, Run(events), Open(o), d) <==>
      forall i | 0 <= i < |Run(events).streams| && Records(l, Run(events).streams[i], d) ::
        DoneWith(l, Run(events).streams[i])
  {
    var s := Run(events);
    RunKeeps(events);
    forall i | 0 <= i < |s.streams| && Records(l, s.streams[i], d)
      ensures !MayLose(l, s.streams[i], d) <==> DoneWith(l, s.streams[i])
    {
      OpenSparesTheLost(l, events, o, i, d);
    }
  }

  lemma LastIntroducesTwo(l: Loss, events: seq<Event>, d: DeviceId)
    requires events != [] && !CanLoseTwo(l, events[..|events| - 1], d)
    ensures CanLoseTwo(l, events, d) <==> !DisciplinedAt(l, Run(events[..|events| - 1]), events[|events| - 1], d)
  {
    var before, e := events[..|events| - 1], events[|events| - 1];
    CanLoseTwoIff(l, before, d);
    CanLoseTwoIff(l, events, d);
    StepIntroducesTwo(l, Run(before), e, d);
  }

  /** At no point of the run could the streams then there lose the device twice. */
  ghost predicate NeverTwo(l: Loss, events: seq<Event>, d: DeviceId) {
    forall n | 0 <= n <= |events| :: !CanLoseTwo(l, events[..n], d)
  }

  /** The discipline is exactly what is needed: a run keeps to it for a device if
      and only if at no point of it could that device be lost twice without another
      open. */
  lemma {:induction false} DisciplinedIff(l: Loss, events: seq<Event>, d: DeviceId)
    ensures Disciplined(l, events, d) <==> NeverTwo(l, events, d)
  {
    if events == [] {
      NothingLostAtFirst(l, d);
    } else {
      var before := events[..|events| - 1];
      DisciplinedIff(l, before, d);
      LastOfNeverTwo(l, events, d);
      if NeverTwo(l, before, d) {
        LastIntroducesTwo(l, events, d);
      }
    }
  }

  lemma NothingLostAtFirst(l: Loss, d: DeviceId)
    ensures Disciplined(l, [], d) && NeverTwo(l, [], d)
  {
    var none: seq<Event> := [];
    CanLoseTwoIff(l, none, d);
    assert none[..0] == none;
  }

  lemma LastOfNeverTwo(l: Loss, events: seq<Event>, d: DeviceId)
    requires events != []
    ensures var before := events[..|events| - 1];
      && (NeverTwo(l, events, d) <==> NeverTwo(l, before, d) && !CanLoseTwo(l, events, d))
      && (NeverTwo(l, before, d) ==> !CanLoseTwo(l, before, d))
  {
    var last := |events| - 1;
    var before := events[..last];
    assert events[..|events|] == events && before[..last] == before;
    forall n | 0 <= n <= last
      ensures before[..n] == events[..n]
    {
    }
  }

  /** So in a run that keeps to it for a device, that device is lost at most once. */
  lemma AtMostOneLossPerDevice(l: Loss, events: seq<Event>, d: DeviceId, i: nat, j: nat)
    requires Disciplined(l, events, d) && i < |Run(events).streams| && j < |Run(events).streams|
    ensures Lost(l, Run(events).streams[i], d) && Lost(l, Run(events).streams[j], d) ==> i == j
  {
    DisciplinedIff(l, events, d);
    assert events[..|events|] == events;
    CanLoseTwoIff(l, events, d);
  }

  // -------------------------------------------------------------------------
  // Why the discipline is needed
  // -------------------------------------------------------------------------

  /** A CoreAudio interface at 44.1 kHz that can be clocked at 48 kHz. */
  const CONTESTED: OpenRequest := OpenRequest(CoreAudio, 48_000,
    Endpoint(Some("interface"), Config(2, 44_100, true), [ConfigRange(2, 48_000, 48_000, true)], Unknown,
             HostAnswers(true, false, true)),
    Endpoint(None, Config(2, 48_000, true), [], Unknown, HostAnswers(true, false, true)), true)

  lemma ContestedMovesTheClock()
    ensures OpenDuplex({}, CONTESTED)
         == Some(Handle(["interface"], [], false, false, false, false, false, false))
  {
    var e := CONTESTED.input;
    assert e.supported[..0] == [];
    assert Best(e.native, [], 48_000) == None;
    assert Best(e.native, e.supported, 48_000) == Some(Config(2, 48_000, true));
    assert MovedClock({}, CONTESTED, Capture, e) && !OnAttempt({}, CONTESTED, Capture, e);
    assert !MovedClock({}, CONTESTED, Playback, CONTESTED.output);
    var none: seq<DeviceId> := [];
    assert Recorded(true, e.id) + Recorded(false, None) == ["interface"] && none + none == none;
  }

  /** Two streams live at once on one device can both move its clock and both be
      lost, each polled as soon as it dies: polling dead streams promptly is not
      enough without one stream at a time. */
  lemma TwoLiveStreamsCanBothLoseTheClock()
    ensures exists events :: var s := Run(events);
      |s.streams| == 2 && Lost(OfClock, s.streams[0], "interface") && Lost(OfClock, s.streams[1], "interface")
      && s.streams[0].polled && s.streams[1].polled
  {
    ContestedMovesTheClock();
    var e1 := [Open(CONTESTED)];
    RunThen([], Open(CONTESTED));
    assert [] + e1 == e1;
    var e2 := e1 + [Open(CONTESTED)];
    RunThen(e1, Open(CONTESTED));
    var e3 := e2 + [StoreErrored(0)];
    RunThen(e2, StoreErrored(0));
    var e4 := e3 + [Poll(0)];
    RunThen(e3, Poll(0));
    var e5 := e4 + [StoreErrored(1)];
    RunThen(e4, StoreErrored(1));
    var e6 := e5 + [Poll(1)];
    RunThen(e5, Poll(1));
    assert Lost(OfClock, Run(e6).streams[0], "interface");
  }

  /** A PipeWire microphone asked for a rate it never advertised. */
  const ATTEMPTED: OpenRequest := OpenRequest(PipeWire, 48_000,
    Endpoint(Some("mic"), Config(2, 44_100, true), [], Unknown, HostAnswers(true, false, true)),
    Endpoint(None, Config(2, 48_000, true), [], Unknown, HostAnswers(true, false, true)), true)

  lemma AttemptIsRecorded()
    ensures OpenDuplex({}, ATTEMPTED) == Some(Handle([], ["mic"], false, false, false, false, false, false))
  {
    var e := ATTEMPTED.input;
    assert OnAttempt({}, ATTEMPTED, Capture, e) && !MovedClock({}, ATTEMPTED, Capture, e);
    assert !OnAttempt({}, ATTEMPTED, Playback, ATTEMPTED.output);
    var none: seq<DeviceId> := [];
    assert Recorded(true, e.id) + Recorded(false, None) == ["mic"] && none + none == none;
  }

  /** A refusal that arrives after the first poll of a dead stream is forgotten:
      the death was noted without it, and no later poll looks again. */
  lemma LateRefusalIsForgotten()
    ensures exists events :: var s := Run(events);
      && |s.streams| == 1 && s.streams[0].attempted == ["mic"]
      && s.streams[0].refused && s.streams[0].noted && s.demoted == {}
  {
    AttemptIsRecorded();
    var e1 := [Open(ATTEMPTED)];
    RunThen([], Open(ATTEMPTED));
    assert [] + e1 == e1;
    var e2 := e1 + [StoreErrored(0)];
    RunThen(e1, StoreErrored(0));
    var e3 := e2 + [Poll(0)];
    RunThen(e2, Poll(0));
    var e4 := e3 + [StoreRefused(0)];
    RunThen(e3, StoreRefused(0));
    var e5 := e4 + [Poll(0)];
    RunThen(e4, Poll(0));
    assert Run(e5).streams[0].refused && Run(e5).demoted == {};
  }
}
