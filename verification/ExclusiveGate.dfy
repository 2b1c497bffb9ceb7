/** The cooldown gate in front of the exclusive-mode probe, and what it promises
    over whole runs of open requests. Instants are nanoseconds on one monotonic
    clock; the probe itself is an outcome handed in by the environment. */
module ExclusiveGate {
  import opened Arithmetic
  import opened Wrappers
  import opened WasapiPolicy

  datatype StreamConfig = StreamConfig(
    sampleRate: nat,
    bufferFrames: nat,
    channels: nat,
    captureOffset: nat,
    allowExclusive: bool)

  /** The gate's key is the whole request. */
  datatype RequestKey = RequestKey(
    capture: Option<string>,
    playback: Option<string>,
    config: StreamConfig)

  /** How an exclusive probe ended; a failed one may have lost the handler. */
  datatype Probe = ProbeOk | ProbeFailed(failure: ExclusiveFailure, handlerBack: bool)

  datatype Opening = Exclusive | SharedMode | SharedRefused | ProbeRefused(failure: ExclusiveFailure)

  type Gate<K> = Option<(K, nat)>

  /** Zero remaining is expired. */
  predicate Gated<K(==)>(gate: Gate<K>, key: K, now: nat) {
    gate.Some? && gate.value.0 == key && now < gate.value.1
  }

  /** Holds off probes for one request at a time. */
  class RetryGate<K(==)> {
    var blocked: Gate<K>

    constructor ()
      ensures blocked == None
    {
      blocked := None;
    }

    method Remaining(key: K, now: nat) returns (left: Option<nat>)
      ensures left.Some? <==> Gated(blocked, key, now)
      ensures left.Some? ==> left.value > 0 && now + left.value == blocked.value.1
    {
      match blocked {
        case None => return None;
        case Some(entry) =>
          if entry.0 != key || entry.1 <= now {
            return None;
          }
          return Some(entry.1 - now);
      }
    }

    /** Whatever was held off before no longer is; this key is, for the cooldown. */
    method Block(key: K, cooldown: nat, now: nat)
      modifies this
      ensures forall k, t: nat :: Gated(blocked, k, t) <==> k == key && t < now + cooldown && cooldown > 0
      ensures blocked == if cooldown == 0 then None else Some((key, now + cooldown))
    {
      if cooldown == 0 {
        blocked := None;
      } else {
        blocked := Some((key, now + cooldown));
      }
    }

    method Clear()
      modifies this
      ensures blocked == None
    {
      blocked := None;
    }
  }

  /** One call of the Windows backend's open, with everything its surroundings
      decide: the clock when the gate was consulted, the clock when the verdict
      was noted, how the probe ends if it runs, whether shared mode opens. */
  datatype Attempt = Attempt(key: RequestKey, asked: nat, probe: Probe, noted: nat, sharedOpens: bool)

  predicate Probes(gate: Gate<RequestKey>, a: Attempt) {
    a.key.config.allowExclusive && !Gated(gate, a.key, a.asked)
  }

  /** A verdict that changes the gate when its probe runs. */
  predicate Decisive(a: Attempt) {
    a.probe.ProbeOk? || FallbackDecision(a.probe.failure) == Shared
  }

  function GateAfter(gate: Gate<RequestKey>, a: Attempt): Gate<RequestKey> {
    if !Probes(gate, a) || !Decisive(a) then gate
    else if a.probe.ProbeOk? || RetryCooldown(a.probe.failure) == 0 then None
    else Some((a.key, a.noted + RetryCooldown(a.probe.failure)))
  }

  class WindowsBackend {
    const gate: RetryGate<RequestKey>

    constructor ()
      ensures fresh(gate) && gate.blocked == None
    {
      gate := new RetryGate<RequestKey>();
    }

    method OpenShared(a: Attempt) returns (opening: Opening)
      ensures opening == if a.sharedOpens then SharedMode else SharedRefused
    {
      opening := if a.sharedOpens then SharedMode else SharedRefused;
    }

    /** Exclusive first, shared second. The probe runs exactly when it is allowed
        and not gated; a rejected condition surfaces as an error and leaves the
        gate alone; a handler lost to a dead thread is an error even though the
        gate was armed. */
    method OpenDuplex(a: Attempt) returns (probed: bool, opening: Opening)
      modifies gate
      ensures probed <==> Probes(old(gate.blocked), a)
      ensures gate.blocked == GateAfter(old(gate.blocked), a)
      ensures opening.Exclusive? <==> probed && a.probe.ProbeOk?
      ensures opening.ProbeRefused? <==>
                probed && a.probe.ProbeFailed? &&
                (FallbackDecision(a.probe.failure) == Reject || !a.probe.handlerBack)
      ensures opening.ProbeRefused? ==> opening.failure == a.probe.failure
      ensures !a.key.config.allowExclusive ==> !probed && gate.blocked == old(gate.blocked)
      ensures probed && a.probe.ProbeOk? ==> gate.blocked == None
      ensures opening.SharedMode? ==> a.sharedOpens
      ensures opening.SharedRefused? ==> !a.sharedOpens
    {
      if !a.key.config.allowExclusive {
        opening := OpenShared(a);
        return false, opening;
      }
      var left := gate.Remaining(a.key, a.asked);
      if left.Some? {
        opening := OpenShared(a);
        return false, opening;
      }
      match a.probe {
        case ProbeOk =>
          gate.Clear();
          return true, Exclusive;
        case ProbeFailed(failure, handlerBack) =>
          if FallbackDecision(failure) == Reject {
            return true, ProbeRefused(failure);
          }
          gate.Block(a.key, RetryCooldown(failure), a.noted);
          if handlerBack {
            opening := OpenShared(a);
          } else {
            opening := ProbeRefused(failure);
          }
          return true, opening;
      }
    }
  }

  /** What an attempt does to the gate, outcome by outcome: nothing when exclusive
      mode is not allowed, held off, or refused for good; open after a success or a
      failure without a cooldown; closed on this very request, until the cooldown
      from the verdict has passed, after any other. */
  lemma GateMoves(gate: Gate<RequestKey>, a: Attempt)
    ensures !a.key.config.allowExclusive ==> !Probes(gate, a) && GateAfter(gate, a) == gate
    ensures a.key.config.allowExclusive && gate.None? ==> Probes(gate, a)
    ensures a.key.config.allowExclusive && gate.Some? ==>
      (Probes(gate, a) <==> gate.value.0 != a.key || gate.value.1 <= a.asked)
    ensures !Probes(gate, a) ==> GateAfter(gate, a) == gate
    ensures Probes(gate, a) && a.probe.ProbeOk? ==> GateAfter(gate, a) == None
    ensures Probes(gate, a) && a.probe.ProbeFailed? ==>
      GateAfter(gate, a) ==
        if FallbackDecision(a.probe.failure) == Reject then gate
        else if RetryCooldown(a.probe.failure) == 0 then None
        else Some((a.key, a.noted + RetryCooldown(a.probe.failure)))
  {
  }

  // -------------------------------------------------------------------------
  // Runs
  // -------------------------------------------------------------------------

  /** The gate before attempt n of a run that starts with it open. */
  function GateAt(run: seq<Attempt>, n: nat): Gate<RequestKey>
    requires n <= |run|
  {
    if n == 0 then None else GateAfter(GateAt(run, n - 1), run[n - 1])
  }

  predicate ProbesAt(run: seq<Attempt>, i: nat)
    requires i < |run|
  {
    Probes(GateAt(run, i), run[i])
  }

  ghost predicate Clocked(run: seq<Attempt>) {
    && (forall i :: 0 <= i < |run| ==> run[i].asked <= run[i].noted)
    && (forall i, j :: 0 <= i < j < |run| ==> run[i].noted <= run[j].asked)
  }

  /** Attempt m closed the gate on its key: its probe ran and failed with a
      condition that falls back to shared mode and carries a cooldown. */
  predicate Arms(run: seq<Attempt>, m: nat)
    requires m < |run|
  {
    && ProbesAt(run, m) && Decisive(run[m]) && run[m].probe.ProbeFailed?
    && RetryCooldown(run[m].probe.failure) > 0
  }

  /** No verdict in [from, to) has touched the gate. */
  ghost predicate Quiet(run: seq<Attempt>, from: nat, to: nat)
    requires to <= |run|
  {
    forall m: nat :: from <= m < to ==> !(ProbesAt(run, m) && Decisive(run[m]))
  }

  /** The gate at n, explained: it is closed exactly by the last verdict that
      touched it, which was a cooling failure of the very key it is closed on. */
  ghost predicate ClosedBy(run: seq<Attempt>, n: nat, m: nat)
    requires n <= |run|
  {
    && m < n && Arms(run, m) && Quiet(run, m + 1, n)
    && GateAt(run, n) == Some((run[m].key, run[m].noted + RetryCooldown(run[m].probe.failure)))
  }

  lemma {:induction false} LastVerdict(run: seq<Attempt>, n: nat) returns (m: nat)
    requires n <= |run| && GateAt(run, n).Some?
    ensures ClosedBy(run, n, m)
  {
    if ProbesAt(run, n - 1) && Decisive(run[n - 1]) {
      m := n - 1;
    } else {
      m := LastVerdict(run, n - 1);
    }
  }

  lemma {:induction false} QuietKeepsGate(run: seq<Attempt>, from: nat, to: nat)
    requires from <= to <= |run| && Quiet(run, from, to)
    ensures GateAt(run, to) == GateAt(run, from)
  {
    if from < to {
      QuietKeepsGate(run, from, to - 1);
      assert !(ProbesAt(run, to - 1) && Decisive(run[to - 1]));
    }
  }

  /** Attempt j arrives inside the cooldown of attempt m, the same request's
      failure, and no verdict has touched the gate in between. */
  ghost predicate HeldOffBy(run: seq<Attempt>, j: nat, m: nat)
    requires j < |run|
  {
    && m < j && Arms(run, m) && Quiet(run, m + 1, j)
    && run[m].key == run[j].key && run[j].asked < run[m].noted + RetryCooldown(run[m].probe.failure)
  }

  lemma HeldOffIsGated(run: seq<Attempt>, j: nat, m: nat)
    requires j < |run| && HeldOffBy(run, j, m)
    ensures Gated(GateAt(run, j), run[j].key, run[j].asked)
  {
    QuietKeepsGate(run, m + 1, j);
  }

  /** Exactly when a request is gated, over any run: the last verdict that
      touched the gate was this request's own cooling failure and its cooldown
      has not run out. No other request's verdict can gate it. */
  lemma GatedIff(run: seq<Attempt>, j: nat)
    requires j < |run|
    ensures Gated(GateAt(run, j), run[j].key, run[j].asked) <==> exists m: nat :: HeldOffBy(run, j, m)
  {
    if Gated(GateAt(run, j), run[j].key, run[j].asked) {
      var m := LastVerdict(run, j);
      assert HeldOffBy(run, j, m);
    } else if m: nat :| HeldOffBy(run, j, m) {
      HeldOffIsGated(run, j, m);
    }
  }

  /** A verdict strictly between two attempts. */
  predicate VerdictBetween(run: seq<Attempt>, i: nat, j: nat, m: nat)
    requires j < |run|
  {
    i < m < j && ProbesAt(run, m) && Decisive(run[m])
  }

  /** Exactly when a request probes again inside its own cooldown: when another
      request's verdict evicted its own from the gate's one slot. */
  lemma EarlyProbeIff(run: seq<Attempt>, i: nat, j: nat)
    requires i < j < |run| && Arms(run, i) && run[j].key == run[i].key
    requires run[j].asked < run[i].noted + RetryCooldown(run[i].probe.failure)
    requires forall m | i < m < j :: run[m].key != run[i].key
    ensures ProbesAt(run, j) <==> exists m: nat :: VerdictBetween(run, i, j, m)
  {
    if Gated(GateAt(run, j), run[j].key, run[j].asked) {
      var last := LastVerdict(run, j);
      assert last <= i;
      forall m: nat ensures !VerdictBetween(run, i, j, m) {
      }
    } else if forall m: nat :: !VerdictBetween(run, i, j, m) {
      assert Quiet(run, i + 1, j) by {
        forall m: nat | i + 1 <= m < j ensures !(ProbesAt(run, m) && Decisive(run[m])) {
          assert !VerdictBetween(run, i, j, m);
        }
      }
      HeldOffIsGated(run, j, i);
    }
  }

  /** No request is ever held off for more than sixty seconds. */
  lemma NeverGatedPastAMinute(run: seq<Attempt>, n: nat, now: nat)
    requires n <= |run| && GateAt(run, n).Some?
    requires forall i :: 0 <= i < n ==> run[i].noted <= now
    ensures GateAt(run, n).value.1 <= now + MAX_COOLDOWN
  {
    var m := LastVerdict(run, n);
  }

  /** No other request's verdict falls strictly between two attempts. */
  ghost predicate Undisturbed(run: seq<Attempt>, i: nat, j: nat)
    requires i < j < |run|
  {
    forall m: nat :: VerdictBetween(run, i, j, m) ==> run[m].key == run[i].key
  }

  /** Two probes of one request with no other's verdict between them are apart by
      at least the cooldown of the first one's failure, counted from when that
      failure was noted. */
  lemma {:induction false} ProbesAreSpaced(run: seq<Attempt>, i: nat, j: nat)
    requires Clocked(run) && i < j < |run| && Undisturbed(run, i, j)
    requires Arms(run, i) && run[j].key == run[i].key && ProbesAt(run, j)
    ensures run[j].asked >= run[i].noted + RetryCooldown(run[i].probe.failure)
    decreases j
  {
    if m: nat :| VerdictBetween(run, i, j, m) {
      forall k: nat | VerdictBetween(run, i, m, k) ensures run[k].key == run[i].key {
        assert VerdictBetween(run, i, j, k);
      }
      ProbesAreSpaced(run, i, m);
    } else {
      assert Quiet(run, i + 1, j) by {
        forall m: nat | i + 1 <= m < j ensures !(ProbesAt(run, m) && Decisive(run[m])) {
          assert !VerdictBetween(run, i, j, m);
        }
      }
      if run[j].asked < run[i].noted + RetryCooldown(run[i].probe.failure) {
        HeldOffIsGated(run, j, i);
      }
    }
  }

  /** Of any two probes of the request in the window, the first failed with a
      cooldown of at least c, and no other request's verdict came between. */
  ghost predicate KeepsFailing(run: seq<Attempt>, key: RequestKey, c: nat, from: nat, length: nat) {
    forall i: nat, j: nat ::
      i < j < |run| && ProbeInWindow(run, key, from, length, i) && ProbeInWindow(run, key, from, length, j) ==>
        Arms(run, i) && RetryCooldown(run[i].probe.failure) >= c && Undisturbed(run, i, j)
  }

  predicate ProbeInWindow(run: seq<Attempt>, key: RequestKey, from: nat, length: nat, i: nat)
    requires i < |run|
  {
    run[i].key == key && ProbesAt(run, i) && from <= run[i].asked <= from + length
  }

  function ProbesInWindow(run: seq<Attempt>, key: RequestKey, from: nat, length: nat, n: nat): nat
    requires n <= |run|
  {
    if n == 0 then 0
    else ProbesInWindow(run, key, from, length, n - 1)
         + if ProbeInWindow(run, key, from, length, n - 1) then 1 else 0
  }

  lemma {:induction false} ProbesAreCounted(run: seq<Attempt>, key: RequestKey, from: nat, length: nat, n: nat)
    requires n <= |run|
    ensures ProbesInWindow(run, key, from, length, n) ==
      |set i: nat | i < n && ProbeInWindow(run, key, from, length, i)|
  {
    var now := set i: nat | i < n && ProbeInWindow(run, key, from, length, i);
    if n == 0 {
      assert now == {};
    } else {
      ProbesAreCounted(run, key, from, length, n - 1);
      var before := set i: nat | i < n - 1 && ProbeInWindow(run, key, from, length, i);
      assert now == before + if ProbeInWindow(run, key, from, length, n - 1) then {n - 1} else {};
    }
  }

  lemma SpanGrows(n: nat, c: nat, shorter: int, longer: int)
    requires n * c <= shorter && shorter + c <= longer
    ensures (n + 1) * c <= longer
  {
    OneMoreTimes(n, c);
  }

  lemma NextProbeSpans(
      run: seq<Attempt>, key: RequestKey, c: nat, from: nat, length: nat, previous: nat, last: nat, n: nat)
    requires Clocked(run) && KeepsFailing(run, key, c, from, length) && c > 0 && previous < last < |run|
    requires ProbeInWindow(run, key, from, length, previous) && ProbeInWindow(run, key, from, length, last)
    requires n * c <= run[previous].asked - from
    ensures (n + 1) * c <= run[last].asked - from
  {
    ProbesAreSpaced(run, previous, last);
    SpanGrows(n, c, run[previous].asked - from, run[last].asked - from);
  }

  lemma {:induction false} CountedProbesSpan(
      run: seq<Attempt>, key: RequestKey, c: nat, from: nat, length: nat, n: nat) returns (last: nat)
    requires c > 0 && Clocked(run) && KeepsFailing(run, key, c, from, length) && n <= |run|
    requires ProbesInWindow(run, key, from, length, n) > 0
    ensures last < n && ProbeInWindow(run, key, from, length, last)
    ensures (ProbesInWindow(run, key, from, length, n) - 1) * c <= run[last].asked - from
  {
    var before := ProbesInWindow(run, key, from, length, n - 1);
    if !ProbeInWindow(run, key, from, length, n - 1) {
      last := CountedProbesSpan(run, key, c, from, length, n - 1);
    } else {
      last := n - 1;
      if before > 0 {
        var previous := CountedProbesSpan(run, key, c, from, length, n - 1);
        NextProbeSpans(run, key, c, from, length, previous, last, before - 1);
      }
    }
  }

  /** Rate limit: a window of any length holds at most floor(length/c) + 1 probes
      of a request that keeps failing there undisturbed. */
  lemma ProbeRateIsBounded(run: seq<Attempt>, key: RequestKey, c: nat, from: nat, length: nat)
    requires c > 0 && Clocked(run) && KeepsFailing(run, key, c, from, length)
    ensures |set i: nat | i < |run| && ProbeInWindow(run, key, from, length, i)| <= length / c + 1
  {
    ProbesAreCounted(run, key, from, length, |run|);
    var n := ProbesInWindow(run, key, from, length, |run|);
    if n > 0 {
      var last := CountedProbesSpan(run, key, c, from, length, |run|);
      assert (n - 1) * c <= length;
      QuotientBound(n - 1, c, length);
    }
  }

  /** One slot is one slot: requests that take turns each evict the other's
      verdict, and every one of them probes, cooldowns or not. */
  lemma {:induction false} TakingTurnsDefeatsTheGate(run: seq<Attempt>, n: nat)
    requires n < |run|
    requires forall i :: 0 <= i < |run| ==> run[i].key.config.allowExclusive && Decisive(run[i])
    requires forall i :: 0 <= i < |run| - 1 ==> run[i].key != run[i + 1].key
    ensures ProbesAt(run, n)
    ensures GateAt(run, n + 1).Some? ==> GateAt(run, n + 1).value.0 == run[n].key
  {
    if n > 0 {
      TakingTurnsDefeatsTheGate(run, n - 1);
    }
  }
}
