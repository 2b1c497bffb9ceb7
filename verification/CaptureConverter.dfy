/** The capture half of the boundary rate converter: device callbacks of any
    size go into a fixed backlog, and every whole input chunk the resampler asks
    for comes out as one session-rate chunk for the inner handler.

    The resampler is any deterministic state machine that meets the contract
    below; samples are interleaved and opaque. */
module CaptureConverter {
  import opened Wrappers

  const MAX_CHUNK_FRAMES: nat := 4096
  const CHUNK: nat := 120

  /** A fixed-output resampler, counted in frames of `ch` channels. */
  datatype Resampler<!S> = Resampler(
    ch: nat,
    inMax: nat,
    inputNext: S -> nat,
    process: (S, seq<real>) -> (S, seq<real>))

  /** What the fixed-output resampler promises: between one and inMax frames in,
      and exactly one CHUNK out. */
  ghost predicate Promises<S(!new)>(r: Resampler<S>) {
    && r.ch > 0
    && (forall s :: 1 <= r.inputNext(s) <= r.inMax)
    && (forall s, x :: |x| == r.inputNext(s) * r.ch ==> |r.process(s, x).1| == CHUNK * r.ch)
  }

  /** The same machine counted in interleaved samples. */
  datatype Rig<!S> = Rig(
    needMax: nat,
    chunk: nat,
    Need: S -> nat,
    process: (S, seq<real>) -> (S, seq<real>))

  ghost predicate Contract<S(!new)>(rig: Rig<S>) {
    && (forall s :: 1 <= rig.Need(s) <= rig.needMax)
    && (forall s, x :: |x| == rig.Need(s) ==> |rig.process(s, x).1| == rig.chunk)
  }

  function Interleaved<S>(r: Resampler<S>): Rig<S> {
    Rig(r.inMax * r.ch, CHUNK * r.ch, s => r.inputNext(s) * r.ch, r.process)
  }

  lemma InterleavedMeets<S(!new)>(r: Resampler<S>)
    requires Promises(r)
    ensures var rig := Interleaved(r);
      && Contract(rig) && rig.chunk == 120 * r.ch && rig.needMax == r.inMax * r.ch
      && (forall s :: rig.Need(s) == r.inputNext(s) * r.ch)
      && (forall s, x :: rig.process(s, x) == r.process(s, x))
  {
    var rig := Interleaved(r);
    forall s
      ensures 1 <= rig.Need(s) <= rig.needMax
    {
      var n := r.inputNext(s);
      assert 1 <= n <= r.inMax;
      assert (r.inMax - n) * r.ch >= 0 && (n - 1) * r.ch >= 0;
    }
  }

  // -------------------------------------------------------------------------
  // The buffering form
  // -------------------------------------------------------------------------

  /** The converter as a value: the resampler's state, every chunk handed to the
      inner handler so far, and the backlog. */
  datatype Machine<S> = Machine(state: S, handed: seq<seq<real>>, backlog: seq<real>) {
    function Plus(x: seq<real>): Machine<S> {
      this.(backlog := backlog + x)
    }
  }

  ghost function Convert<S(!new)>(rig: Rig<S>, m: Machine<S>): Machine<S>
    requires rig.Need(m.state) <= |m.backlog|
  {
    var need := rig.Need(m.state);
    var p := rig.process(m.state, m.backlog[..need]);
    Machine(p.0, m.handed + [p.1], m.backlog[need..])
  }

  /** Convert while the backlog covers the next input need. */
  ghost function Drain<S(!new)>(rig: Rig<S>, m: Machine<S>): (d: Machine<S>)
    requires Contract(rig)
    ensures |d.backlog| < rig.Need(d.state) && |d.handed| >= |m.handed|
    decreases |m.backlog|
  {
    if |m.backlog| < rig.Need(m.state) then m else Drain(rig, Convert(rig, m))
  }

  /** Draining in two sittings is draining once. */
  lemma {:induction false} DrainAppend<S(!new)>(rig: Rig<S>, m: Machine<S>, y: seq<real>)
    requires Contract(rig)
    ensures Drain(rig, Drain(rig, m).Plus(y)) == Drain(rig, m.Plus(y))
    decreases |m.backlog|
  {
    var need := rig.Need(m.state);
    if |m.backlog| >= need {
      assert (m.backlog + y)[..need] == m.backlog[..need];
      assert (m.backlog + y)[need..] == m.backlog[need..] + y;
      DrainAppend(rig, Convert(rig, m), y);
    }
  }

  function Concat(pieces: seq<seq<real>>): seq<real> {
    if pieces == [] then [] else pieces[0] + Concat(pieces[1..])
  }

  /** A run of callbacks, each drained as it arrives. */
  ghost function DrainAll<S(!new)>(rig: Rig<S>, m: Machine<S>, callbacks: seq<seq<real>>): Machine<S>
    requires Contract(rig)
    decreases |callbacks|
  {
    if callbacks == [] then m else DrainAll(rig, Drain(rig, m.Plus(callbacks[0])), callbacks[1..])
  }

  /** Callback sizes do not matter: any split of a stream into callbacks gives
      the chunks, the state and the backlog of one pass over the whole of it. */
  lemma {:induction false} CallbackSizesDoNotMatter<S(!new)>(
      rig: Rig<S>, m: Machine<S>, callbacks: seq<seq<real>>)
    requires Contract(rig) && |m.backlog| < rig.Need(m.state)
    ensures DrainAll(rig, m, callbacks) == Drain(rig, m.Plus(Concat(callbacks)))
    decreases |callbacks|
  {
    if callbacks == [] {
      assert m.Plus([]) == m;
    } else {
      CallbackSizesDoNotMatter(rig, Drain(rig, m.Plus(callbacks[0])), callbacks[1..]);
      DrainAppend(rig, m.Plus(callbacks[0]), Concat(callbacks[1..]));
      assert m.backlog + Concat(callbacks) == m.backlog + callbacks[0] + Concat(callbacks[1..]);
    }
  }

  // -------------------------------------------------------------------------
  // The buffering form is a transducer over positions
  // -------------------------------------------------------------------------

  /** Conversion i: from where the one before stopped, the resampler as it was left
      is given exactly the samples it asks for. */
  ghost predicate ConversionAt<S(!new)>(
      rig: Rig<S>, input: seq<real>, handed: seq<seq<real>>, states: seq<S>, cuts: seq<nat>, i: nat)
    requires i < |handed| && |states| == |cuts| == |handed| + 1
  {
    && cuts[i + 1] == cuts[i] + rig.Need(states[i]) <= |input|
    && rig.process(states[i], input[cuts[i]..cuts[i + 1]]) == (states[i + 1], handed[i])
    && |handed[i]| == rig.chunk
  }

  /** A machine that started in state s with nothing has read `input` so far: its
      states and the cuts between its conversions, in order from the start of the
      stream, and the backlog that no conversion has read. */
  ghost predicate Traced<S(!new)>(
      rig: Rig<S>, s: S, input: seq<real>, m: Machine<S>, states: seq<S>, cuts: seq<nat>) {
    var n := |m.handed|;
    && |states| == |cuts| == n + 1
    && states[0] == s && cuts[0] == 0
    && (forall i | 0 <= i < n :: ConversionAt(rig, input, m.handed, states, cuts, i))
    && m.state == states[n] && cuts[n] <= |input| && m.backlog == input[cuts[n]..]
  }

  lemma ConvertTraces<S(!new)>(
      rig: Rig<S>, s: S, input: seq<real>, m: Machine<S>, states: seq<S>, cuts: seq<nat>)
    requires Contract(rig) && Traced(rig, s, input, m, states, cuts) && rig.Need(m.state) <= |m.backlog|
    ensures var d := Convert(rig, m);
      Traced(rig, s, input, d, states + [d.state], cuts + [cuts[|m.handed|] + rig.Need(m.state)])
  {
    var n, need := |m.handed|, rig.Need(m.state);
    var d := Convert(rig, m);
    var p := cuts[n];
    var states', cuts' := states + [d.state], cuts + [p + need];
    assert input[p..][..need] == input[p..p + need];
    assert input[p..][need..] == input[p + need..];
    forall i | 0 <= i < n + 1
      ensures ConversionAt(rig, input, d.handed, states', cuts', i)
    {
      if i < n { assert ConversionAt(rig, input, m.handed, states, cuts, i); }
    }
  }

  lemma {:induction false} DrainTraces<S(!new)>(
      rig: Rig<S>, s: S, input: seq<real>, m: Machine<S>, states: seq<S>, cuts: seq<nat>)
    returns (states': seq<S>, cuts': seq<nat>)
    requires Contract(rig) && Traced(rig, s, input, m, states, cuts)
    ensures Traced(rig, s, input, Drain(rig, m), states', cuts')
    decreases |m.backlog|
  {
    if rig.Need(m.state) <= |m.backlog| {
      ConvertTraces(rig, s, input, m, states, cuts);
      var d := Convert(rig, m);
      var cut := cuts[|m.handed|] + rig.Need(m.state);
      states', cuts' := DrainTraces(rig, s, input, d, states + [d.state], cuts + [cut]);
    } else {
      states', cuts' := states, cuts;
    }
  }

  /** Nothing dropped, doubled or reordered, and the resampler carried from chunk to
      chunk: the conversions tile the stream from its start, each on the state the
      one before left, and what remains is too short for another. */
  lemma DrainIsTransducer<S(!new)>(rig: Rig<S>, s: S, input: seq<real>)
    returns (states: seq<S>, cuts: seq<nat>)
    requires Contract(rig)
    ensures var d := Drain(rig, Machine(s, [], input));
      Traced(rig, s, input, d, states, cuts) && |d.backlog| < rig.Need(d.state)
  {
    assert Traced(rig, s, input, Machine(s, [], input), [s], [0]);
    states, cuts := DrainTraces(rig, s, input, Machine(s, [], input), [s], [0]);
  }

  // -------------------------------------------------------------------------
  // The wrapper
  // -------------------------------------------------------------------------

  /** The backlog lives in one array of the constructed capacity, so every write
      in bounds is the promise that it never reallocates. */
  class ConvertingCapture<S(!new)> {
    const ch: nat
    const rig: Rig<S>
    const backlog: array<real>
    var len: nat
    var state: S
    var handed: seq<seq<real>>  // every chunk the inner handler was called with
    ghost const initial: S
    ghost var fed: seq<real>    // every sample the device has called back with

    /** Between slices less than one input need is left behind. */
    ghost predicate Sized()
      reads this, backlog
    {
      && Contract(rig) && ch > 0
      && backlog.Length == MAX_CHUNK_FRAMES * ch + rig.needMax
      && len < rig.Need(state) && len <= backlog.Length
    }

    ghost function Now(): Machine<S>
      reads this, backlog
      requires len <= backlog.Length
    {
      Machine(state, handed, backlog[..len])
    }

    /** Between callbacks it is what one drain of everything fed so far leaves. */
    ghost predicate Valid()
      reads this, backlog
    {
      Sized() && Now() == Drain(rig, Machine(initial, [], fed))
    }

    constructor (r: Resampler<S>, initial: S)
      requires Promises(r)
      ensures Valid() && this.initial == initial && fed == [] && fresh(backlog) && rig == Interleaved(r) && ch == r.ch
      ensures backlog.Length == (MAX_CHUNK_FRAMES + r.inMax) * r.ch
      ensures Now() == Machine(initial, [], [])
    {
      ch := r.ch;
      rig := Interleaved(r);
      backlog := new real[(MAX_CHUNK_FRAMES + r.inMax) * r.ch];
      len, state, handed := 0, initial, [];
      this.initial, fed := initial, [];
      new;
      InterleavedMeets(r);
      assert rig.Need(initial) >= 1;
    }

    /** One device callback, taken in slices of MAX_CHUNK_FRAMES: exactly one
        drain of the backlog followed by the samples. */
    method OnCapture(samples: seq<real>)
      requires Valid()
      modifies this, backlog
      ensures Valid() && fed == old(fed) + samples
      ensures Now() == Drain(rig, old(Now()).Plus(samples))
    {
      var off := 0;
      ghost var was := Now();
      assert was.Plus(samples[..0]) == was;
      while off < |samples|
        invariant 0 <= off <= |samples| && Sized() && fed == old(fed)
        invariant Now() == Drain(rig, was.Plus(samples[..off]))
      {
        off := FeedSlice(samples, off, was);
      }
      assert samples[..off] == samples;
      DrainAppend(rig, Machine(initial, [], fed), samples);
      fed := fed + samples;
    }

    /** What the inner handler has been called with, whatever the callbacks were. */
    lemma HandedIsTransduced() returns (states: seq<S>, cuts: seq<nat>)
      requires Valid()
      ensures Traced(rig, initial, fed, Now(), states, cuts) && len < rig.Need(state)
    {
      states, cuts := DrainIsTransducer(rig, initial, fed);
    }

    method FeedSlice(samples: seq<real>, off: nat, ghost was: Machine<S>) returns (end: nat)
      requires off < |samples| && Sized() && Now() == Drain(rig, was.Plus(samples[..off]))
      modifies this`len, this`state, this`handed, backlog
      ensures off < end <= |samples| && Sized() && Now() == Drain(rig, was.Plus(samples[..end]))
    {
      end := Min(off + MAX_CHUNK_FRAMES * ch, |samples|);
      Feed(samples[off..end]);
      DrainAppend(rig, was.Plus(samples[..off]), samples[off..end]);
      assert was.backlog + samples[..end] == was.backlog + samples[..off] + samples[off..end];
    }

    /** One slice: append it, then convert while there is enough. */
    method Feed(piece: seq<real>)
      requires Sized() && |piece| <= MAX_CHUNK_FRAMES * ch
      modifies this`len, this`state, this`handed, backlog
      ensures Sized() && Now() == Drain(rig, old(Now()).Plus(piece))
    {
      Append(piece);
      ghost var full := Now();
      while rig.Need(state) <= len
        invariant len <= backlog.Length
        invariant Drain(rig, Now()) == Drain(rig, full)
        decreases len
      {
        ConvertOne();
      }
    }

    /** The capacity argument: under one need is left, and a slice is bounded. */
    method Append(piece: seq<real>)
      requires Sized() && |piece| <= MAX_CHUNK_FRAMES * ch
      modifies this`len, backlog
      ensures len <= backlog.Length && Now() == old(Now()).Plus(piece)
    {
      assert rig.Need(state) <= rig.needMax;
      forall i | 0 <= i < |piece| {
        backlog[len + i] := piece[i];
      }
      len := len + |piece|;
      assert backlog[..len] == old(backlog[..len]) + piece;
    }

    /** One conversion: take a need from the front, shift the rest down. */
    method ConvertOne()
      requires Contract(rig) && rig.Need(state) <= len <= backlog.Length
      modifies this`len, this`state, this`handed, backlog
      ensures len < old(len) && Now() == Convert(rig, old(Now()))
    {
      var need := rig.Need(state);
      assert backlog[..need] == backlog[..len][..need];
      var (next, out) := rig.process(state, backlog[..need]);
      forall i | 0 <= i < len - need {
        backlog[i] := backlog[need + i];
      }
      len := len - need;
      state := next;
      handed := handed + [out];
      assert backlog[..len] == old(backlog[..len])[need..];
    }
  }
}
