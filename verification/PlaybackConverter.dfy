/** The playback half of the boundary rate converter: the inner source is pulled
    one session-rate chunk at a time into a fixed staging buffer, from which every
    device request is answered. The source is the sequence of chunks it yields;
    the resampler is any deterministic machine that meets the contract below. */
module PlaybackConverter {
  import opened Arithmetic
  import opened Wrappers
  import opened CaptureConverter

  /** A fixed-input resampler with its inner source, counted in frames. */
  datatype FrameFeed<!S> = FrameFeed(
    ch: nat,
    outMax: nat,
    initial: S,
    source: nat -> seq<real>,
    outputNext: S -> nat,
    process: (S, seq<real>) -> (S, seq<real>))

  /** One CHUNK in, and between one frame and outputNext <= outMax frames out. */
  ghost predicate FramePromises<S(!new)>(f: FrameFeed<S>) {
    && f.ch > 0
    && (forall i :: |f.source(i)| == CHUNK * f.ch)
    && (forall s :: f.outputNext(s) <= f.outMax)
    && (forall s, x :: |x| == CHUNK * f.ch ==>
          f.ch <= |f.process(s, x).1| <= f.outputNext(s) * f.ch)
  }

  /** The same, counted in interleaved samples. */
  datatype Feed<!S> = Feed(
    chunk: nat,
    roomMax: nat,
    initial: S,
    source: nat -> seq<real>,
    Room: S -> nat,
    process: (S, seq<real>) -> (S, seq<real>))

  ghost predicate FeedContract<S(!new)>(f: Feed<S>) {
    && (forall i :: |f.source(i)| == f.chunk)
    && (forall s :: f.Room(s) <= f.roomMax)
    && (forall s, x :: |x| == f.chunk ==> 1 <= |f.process(s, x).1| <= f.Room(s))
  }

  function InterleavedFeed<S>(f: FrameFeed<S>): Feed<S> {
    Feed(CHUNK * f.ch, f.outMax * f.ch, f.initial, f.source, s => f.outputNext(s) * f.ch, f.process)
  }

  lemma InterleavedFeedMeets<S(!new)>(f: FrameFeed<S>)
    requires FramePromises(f)
    ensures var g := InterleavedFeed(f);
      && FeedContract(g) && g.chunk == 120 * f.ch && g.roomMax == f.outMax * f.ch && g.initial == f.initial
      && (forall i :: g.source(i) == f.source(i))
      && (forall s :: g.Room(s) == f.outputNext(s) * f.ch)
      && (forall s, x :: g.process(s, x) == f.process(s, x))
  {
    var g := InterleavedFeed(f);
    forall s
      ensures g.Room(s) <= g.roomMax
    {
      Grows(f.outputNext(s), f.outMax, f.ch);
    }
  }

  // -------------------------------------------------------------------------
  // The reference: the converted stream, unrolled
  // -------------------------------------------------------------------------

  ghost function StateAfter<S(!new)>(f: Feed<S>, pulls: nat): S {
    if pulls == 0 then f.initial
    else f.process(StateAfter(f, pulls - 1), f.source(pulls - 1)).0
  }

  /** Everything the first `pulls` chunks of the source convert to. */
  ghost function Output<S(!new)>(f: Feed<S>, pulls: nat): seq<real> {
    if pulls == 0 then []
    else Output(f, pulls - 1) + f.process(StateAfter(f, pulls - 1), f.source(pulls - 1)).1
  }

  /** The unrolled stream only ever grows at its end. */
  lemma {:induction false} OutputIsOneStream<S(!new)>(f: Feed<S>, n: nat, m: nat)
    requires FeedContract(f) && n <= m
    ensures Output(f, n) <= Output(f, m)
    ensures |Output(f, m)| >= |Output(f, n)| + (m - n)
  {
    if n < m {
      OutputIsOneStream(f, n, m - 1);
    }
  }

  /** The resampler through its first pulls: each on the state the one before left. */
  ghost predicate Carried<S(!new)>(f: Feed<S>, states: seq<S>) {
    && states != [] && states[0] == f.initial
    && forall i: nat | i + 1 < |states| :: states[i + 1] == f.process(states[i], f.source(i)).0
  }

  /** What the pulls convert to on those states, end to end. */
  ghost function Joined<S(!new)>(f: Feed<S>, states: seq<S>, pulls: nat): seq<real>
    requires pulls < |states|
  {
    if pulls == 0 then [] else Joined(f, states, pulls - 1) + f.process(states[pulls - 1], f.source(pulls - 1)).1
  }

  /** The unrolled stream is one transducer's: chunk i of the source is converted on
      the state chunk i - 1 left behind, and the results are joined in order. */
  lemma {:induction false} OutputIsTransducer<S(!new)>(f: Feed<S>, states: seq<S>, pulls: nat)
    requires Carried(f, states) && pulls < |states|
    ensures StateAfter(f, pulls) == states[pulls] && Output(f, pulls) == Joined(f, states, pulls)
  {
    if pulls > 0 {
      OutputIsTransducer(f, states, pulls - 1);
    }
  }

  /** No pull was made once what is served had been covered. */
  ghost predicate NeedsPulls<S(!new)>(f: Feed<S>, served: nat, pulls: nat) {
    pulls > 0 ==> |Output(f, pulls - 1)| < served
  }

  /** Least: no fewer pulls would have covered what has been served. */
  ghost predicate LeastPulls<S(!new)>(f: Feed<S>, served: nat, pulls: nat) {
    |Output(f, pulls)| >= served && NeedsPulls(f, served, pulls)
  }

  lemma LeastPullsMeansLeast<S(!new)>(f: Feed<S>, served: nat, pulls: nat, n: nat)
    requires FeedContract(f) && LeastPulls(f, served, pulls)
    ensures |Output(f, n)| >= served <==> pulls <= n
  {
    if pulls <= n {
      OutputIsOneStream(f, pulls, n);
    } else {
      OutputIsOneStream(f, n, pulls - 1);
    }
  }

  /** One more pull: at least one sample, at most the room made for it, appended. */
  lemma PullGrows<S(!new)>(f: Feed<S>, pulls: nat, from: nat)
    requires FeedContract(f) && from <= |Output(f, pulls)|
    ensures var s := StateAfter(f, pulls); var produced := f.process(s, f.source(pulls)).1;
      && 1 <= |produced| <= f.Room(s) <= f.roomMax
      && |Output(f, pulls + 1)| == |Output(f, pulls)| + |produced|
      && Output(f, pulls + 1)[from..] == Output(f, pulls)[from..] + produced
  {
  }

  /** Room for one pull is left under any want the capacity was built for. */
  lemma PullFits(len: nat, room: nat, roomMax: nat, want: nat, ch: nat)
    requires len < want <= MAX_CHUNK_FRAMES * ch && room <= roomMax
    ensures len + room <= MAX_CHUNK_FRAMES * ch + roomMax && len + room < want + roomMax
  {
  }

  /** Request sizes do not matter: two histories that have served the same number
      of samples have pulled the source equally often and served the same audio. */
  lemma RequestSizesDoNotMatter<S(!new)>(f: Feed<S>, served: nat, p: nat, q: nat)
    requires FeedContract(f) && LeastPulls(f, served, p) && LeastPulls(f, served, q)
    ensures p == q
    ensures forall n: nat :: p <= n ==> |Output(f, n)| >= served && Output(f, n)[..served] == Output(f, p)[..served]
  {
    LeastPullsMeansLeast(f, served, p, q);
    LeastPullsMeansLeast(f, served, q, p);
    forall n: nat | p <= n
      ensures |Output(f, n)| >= served && Output(f, n)[..served] == Output(f, p)[..served]
    {
      OutputIsOneStream(f, p, n);
    }
  }

  /** Pulling on until what is to be served is covered. */
  ghost function PullUntil<S(!new)>(f: Feed<S>, served: nat, pulls: nat): nat
    requires FeedContract(f)
    decreases if |Output(f, pulls)| < served then served - |Output(f, pulls)| else 0
  {
    if |Output(f, pulls)| >= served then pulls
    else
      PullGrows(f, pulls, 0);
      PullUntil(f, served, pulls + 1)
  }

  /** Pulls made by a run of requests, each covered before the next arrives. */
  ghost function PullsFor<S(!new)>(f: Feed<S>, requests: seq<nat>): nat
    requires FeedContract(f)
  {
    if requests == [] then 0 else PullUntil(f, Sum(requests), PullsFor(f, requests[..|requests| - 1]))
  }

  lemma {:induction false} PullUntilIsLeast<S(!new)>(f: Feed<S>, served: nat, pulls: nat)
    requires FeedContract(f) && NeedsPulls(f, served, pulls)
    ensures LeastPulls(f, served, PullUntil(f, served, pulls))
    decreases if |Output(f, pulls)| < served then served - |Output(f, pulls)| else 0
  {
    if |Output(f, pulls)| < served {
      PullGrows(f, pulls, 0);
      PullUntilIsLeast(f, served, pulls + 1);
    }
  }

  /** A run of requests pulls the source the least number of times that covers
      their sum. */
  lemma {:induction false} PullsAreLeast<S(!new)>(f: Feed<S>, requests: seq<nat>)
    requires FeedContract(f)
    ensures LeastPulls(f, Sum(requests), PullsFor(f, requests))
  {
    if requests != [] {
      var before := requests[..|requests| - 1];
      PullsAreLeast(f, before);
      PullUntilIsLeast(f, Sum(requests), PullsFor(f, before));
    }
  }

  lemma SplitAt(stream: seq<real>, from: nat, at: nat, n: nat)
    requires from <= at && at + n <= |stream|
    ensures stream[from..at + n] == stream[from..at] + stream[at..][..n]
    ensures stream[at + n..] == stream[at..][n..]
  {
  }

  // -------------------------------------------------------------------------
  // The wrapper
  // -------------------------------------------------------------------------

  /** Staging lives in one array of the constructed capacity. */
  class ConvertingPlayback<S(!new)> {
    const ch: nat
    const feed: Feed<S>
    const staging: array<real>
    var len: nat
    var state: S
    var pulls: nat
    ghost var served: nat

    /** What is staged is the part of the unrolled stream already converted and
        not yet served. */
    ghost predicate Staged()
      reads this, staging
    {
      && FeedContract(feed) && ch > 0
      && staging.Length == MAX_CHUNK_FRAMES * ch + feed.roomMax
      && len <= staging.Length
      && state == StateAfter(feed, pulls)
      && served <= |Output(feed, pulls)|
      && staging[..len] == Output(feed, pulls)[served..]
    }

    /** Between requests, under one output chunk is staged, and the source has
        been pulled as few times as the service so far allows. */
    ghost predicate Valid()
      reads this, staging
    {
      Staged() && len < feed.roomMax && LeastPulls(feed, served, pulls)
    }

    constructor (f: FrameFeed<S>)
      requires FramePromises(f)
      ensures Valid() && fresh(staging) && feed == InterleavedFeed(f) && ch == f.ch
      ensures staging.Length == (MAX_CHUNK_FRAMES + f.outMax) * f.ch
      ensures served == 0 && pulls == 0
    {
      ch := f.ch;
      feed := InterleavedFeed(f);
      staging := new real[(MAX_CHUNK_FRAMES + f.outMax) * f.ch];
      len, state, pulls, served := 0, f.initial, 0, 0;
      new;
      InterleavedFeedMeets(f);
      assert 1 <= |feed.process(state, feed.source(0)).1| <= feed.Room(state) <= feed.roomMax;
    }

    /** One device request of any size: the next part of the one unrolled stream,
        whatever sizes it has been asked for before. */
    method OnPlayback(out: array<real>)
      requires Valid() && out != staging
      modifies this, staging, out
      ensures Valid() && served == old(served) + out.Length
      ensures out[..] == Output(feed, pulls)[old(served)..served]
      ensures pulls >= old(pulls)
    {
      var off: nat := 0;
      ghost var from := served;
      while off < out.Length
        invariant 0 <= off <= out.Length
        invariant Valid() && served == from + off && pulls >= old(pulls)
        invariant out[..off] == Output(feed, pulls)[from..served]
      {
        off := ServeSlice(out, off, from);
      }
      assert out[..] == out[..off];
    }

    /** One slice of the request, from pulling for it to copying it out. */
    method ServeSlice(out: array<real>, off: nat, ghost from: nat) returns (end: nat)
      requires Valid() && out != staging && off < out.Length
      requires from + off == served && out[..off] == Output(feed, pulls)[from..served]
      modifies this, staging, out
      ensures Valid() && off < end <= out.Length && served == from + end && pulls >= old(pulls)
      ensures out[..end] == Output(feed, pulls)[from..served]
    {
      end := Min(off + MAX_CHUNK_FRAMES * ch, out.Length);
      ghost var p := pulls;
      Fill(end - off);
      assert out[..off] == Output(feed, pulls)[from..served] by {
        OutputIsOneStream(feed, p, pulls);
      }
      Serve(out, off, end, from);
    }

    /** The resampler in use, and what is staged, on any account of the states it
        went through. */
    lemma StateIsCarried(states: seq<S>)
      requires Valid() && Carried(feed, states) && pulls < |states|
      ensures state == states[pulls]
      ensures served <= |Joined(feed, states, pulls)| && staging[..len] == Joined(feed, states, pulls)[served..]
    {
      OutputIsTransducer(feed, states, pulls);
    }

    /** Pull until the request is covered. */
    method Fill(want: nat)
      requires Valid() && 1 <= want <= MAX_CHUNK_FRAMES * ch
      modifies this, staging
      ensures Staged() && want <= len < want + feed.roomMax
      ensures served == old(served) && pulls >= old(pulls)
      ensures LeastPulls(feed, served + want, pulls)
    {
      while len < want
        invariant Staged() && served == old(served) && pulls >= old(pulls)
        invariant len < want + feed.roomMax
        invariant NeedsPulls(feed, served + want, pulls)
        decreases want - len
      {
        PullOne(want);
      }
    }

    /** One pull: hand the source a zeroed chunk, convert what it returns into
        the room past the staged samples, keep what was produced. */
    method PullOne(ghost want: nat)
      requires Staged() && len < want <= MAX_CHUNK_FRAMES * ch
      modifies this, staging
      ensures Staged() && served == old(served) && pulls == old(pulls) + 1
      ensures var produced := feed.process(old(state), feed.source(old(pulls)));
        state == produced.0 && staging[..len] == old(staging[..len]) + produced.1
      ensures old(len) < len < want + feed.roomMax
      ensures NeedsPulls(feed, served + want, pulls)
      ensures old(len) + feed.Room(old(state)) <= staging.Length  // the resize before converting fits
    {
      var chunk := feed.source(pulls);
      var (next, produced) := feed.process(state, chunk);
      PullGrows(feed, pulls, served);
      PullFits(len, feed.Room(state), feed.roomMax, want, ch);
      Stage(produced);
      state := next;
      pulls := pulls + 1;
    }

    method Stage(produced: seq<real>)
      requires len + |produced| <= staging.Length
      modifies this`len, staging
      ensures len == old(len) + |produced| && staging[..len] == old(staging[..len]) + produced
    {
      forall i | 0 <= i < |produced| {
        staging[len + i] := produced[i];
      }
      len := len + |produced|;
    }

    /** Copy the front of staging out, then shift the rest down. */
    method Serve(out: array<real>, off: nat, end: nat, ghost from: nat)
      requires Staged() && out != staging && off < end <= out.Length && end - off <= len
      requires from + off == served && out[..off] == Output(feed, pulls)[from..served]
      requires len - (end - off) < feed.roomMax && LeastPulls(feed, served + (end - off), pulls)
      modifies this`len, this`served, staging, out
      ensures Valid() && served == old(served) + (end - off)
      ensures out[..end] == Output(feed, pulls)[from..served]
    {
      var n := end - off;
      ghost var stream := Output(feed, pulls);
      CopyOut(out, off, n);
      Discard(n);
      SplitAt(stream, from, served, n);
      served := served + n;
    }

    method CopyOut(out: array<real>, off: nat, n: nat)
      requires out != staging && off + n <= out.Length && n <= len <= staging.Length
      modifies out
      ensures out[..off + n] == old(out[..off]) + staging[..len][..n]
    {
      forall i | 0 <= i < n {
        out[off + i] := staging[i];
      }
    }

    method Discard(n: nat)
      requires n <= len <= staging.Length
      modifies this`len, staging
      ensures len == old(len) - n && staging[..len] == old(staging[..len])[n..]
    {
      forall i | 0 <= i < len - n {
        staging[i] := staging[n + i];
      }
      len := len - n;
    }
  }
}
