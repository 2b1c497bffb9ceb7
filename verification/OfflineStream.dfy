/** The offline stream: pumped frames accumulate into device periods, each period
    is one capture callback and one playback callback, and the playback endpoint
    is owed frames on its own clock. The handler is the log of what it is called
    with. Rates and debts are exact; writing the output file is not modelled. */
module OfflineStream {
  import opened Arithmetic
  import CaptureConverter
  import PlaybackConverter

  /** One call into the handler. */
  datatype Call = OnCapture(samples: seq<real>) | OnPlayback(frames: nat)

  // -------------------------------------------------------------------------
  // What a list of deliveries comes to
  // -------------------------------------------------------------------------

  /** The input followed by silence for ever. */
  function SampleAt(input: seq<real>, i: nat): real {
    if i < |input| then input[i] else 0.0
  }

  function Window(input: seq<real>, from: nat, n: nat): seq<real> {
    seq(n, i requires 0 <= i < n => SampleAt(input, from + i))
  }

  /** Playback frames owed for a span of capture frames: the exact ratio, floored. */
  function Owed(frames: nat, captureRate: nat, playbackRate: nat): nat
    requires captureRate > 0
  {
    frames * playbackRate / captureRate
  }

  datatype Clocks = Clocks(ch: nat, captureRate: nat, playbackRate: nat)

  /** The handler's whole experience of a list of deliveries. */
  function Calls(c: Clocks, input: seq<real>, ds: seq<nat>): seq<Call>
    requires c.captureRate > 0
  {
    if ds == [] then []
    else
      var before, last := ds[..|ds| - 1], ds[|ds| - 1];
      var from, to := Sum(before), Sum(before) + last;
      OwedGrows(from, to, c.captureRate, c.playbackRate);
      Calls(c, input, before)
      + [OnCapture(Window(input, from * c.ch, last * c.ch)),
         OnPlayback(Owed(to, c.captureRate, c.playbackRate) - Owed(from, c.captureRate, c.playbackRate))]
  }

  lemma OwedGrows(from: nat, to: nat, captureRate: nat, playbackRate: nat)
    requires captureRate > 0 && from <= to
    ensures Owed(from, captureRate, playbackRate) <= Owed(to, captureRate, playbackRate)
  {
    Grows(from, to, playbackRate);
    QuotientGrows(from * playbackRate, to * playbackRate, captureRate);
  }

  /** One more delivery. */
  lemma OneMore(c: Clocks, input: seq<real>, ds: seq<nat>, n: nat)
    requires c.captureRate > 0
    ensures var from := Sum(ds); var to := from + n;
      && Sum(ds + [n]) == to && to * c.ch == from * c.ch + n * c.ch
      && Owed(from, c.captureRate, c.playbackRate) <= Owed(to, c.captureRate, c.playbackRate)
      && Calls(c, input, ds + [n]) == Calls(c, input, ds)
           + [OnCapture(Window(input, from * c.ch, n * c.ch)),
              OnPlayback(Owed(to, c.captureRate, c.playbackRate) - Owed(from, c.captureRate, c.playbackRate))]
  {
    assert (ds + [n])[..|ds + [n]| - 1] == ds;
    OwedGrows(Sum(ds), Sum(ds) + n, c.captureRate, c.playbackRate);
  }

  /** Delivery k is one capture call with its window of the input and then one
      playback call for the frames owed since the delivery before. */
  lemma {:induction false} CallAt(c: Clocks, input: seq<real>, ds: seq<nat>, k: nat)
    requires c.captureRate > 0 && k < |ds|
    ensures var from, to := Sum(ds[..k]), Sum(ds[..k]) + ds[k]; var calls := Calls(c, input, ds);
      && |calls| == 2 * |ds|
      && calls[2 * k] == OnCapture(Window(input, from * c.ch, ds[k] * c.ch))
      && Owed(from, c.captureRate, c.playbackRate) <= Owed(to, c.captureRate, c.playbackRate)
      && calls[2 * k + 1] ==
           OnPlayback(Owed(to, c.captureRate, c.playbackRate) - Owed(from, c.captureRate, c.playbackRate))
    decreases |ds|
  {
    var last := |ds| - 1;
    OwedGrows(Sum(ds[..k]), Sum(ds[..k]) + ds[k], c.captureRate, c.playbackRate);
    CallsCount(c, input, ds[..last]);
    if k < last {
      CallAt(c, input, ds[..last], k);
      assert ds[..last][..k] == ds[..k];
    }
  }

  lemma {:induction false} CallsCount(c: Clocks, input: seq<real>, ds: seq<nat>)
    requires c.captureRate > 0
    ensures |Calls(c, input, ds)| == 2 * |ds|
  {
    if ds != [] { CallsCount(c, input, ds[..|ds| - 1]); }
  }

  /** Delivered capture: what the callbacks carry, end to end. */
  function Captured(calls: seq<Call>): seq<real> {
    if calls == [] then []
    else Captured(calls[..|calls| - 1])
         + (match calls[|calls| - 1] case OnCapture(x) => x case OnPlayback(_) => [])
  }

  function Asked(calls: seq<Call>): nat {
    if calls == [] then 0
    else Asked(calls[..|calls| - 1])
         + (match calls[|calls| - 1] case OnCapture(_) => 0 case OnPlayback(n) => n)
  }

  lemma AfterTwoCalls(calls: seq<Call>, x: seq<real>, n: nat)
    ensures Captured(calls + [OnCapture(x), OnPlayback(n)]) == Captured(calls) + x
    ensures Asked(calls + [OnCapture(x), OnPlayback(n)]) == Asked(calls) + n
  {
    assert (calls + [OnCapture(x), OnPlayback(n)])[..|calls| + 1] == calls + [OnCapture(x)];
    assert (calls + [OnCapture(x)])[..|calls|] == calls;
    assert Captured(calls + [OnCapture(x)]) == Captured(calls) + x;
  }

  lemma WindowsJoin(input: seq<real>, a: nat, b: nat, c: nat)
    requires c == a + b
    ensures Window(input, 0, a) + Window(input, a, b) == Window(input, 0, c)
  {
  }

  lemma {:induction false} CapturedComesTo(c: Clocks, input: seq<real>, ds: seq<nat>)
    requires c.captureRate > 0
    ensures Captured(Calls(c, input, ds)) == Window(input, 0, Sum(ds) * c.ch)
    decreases |ds|
  {
    if ds != [] {
      var before, last := ds[..|ds| - 1], ds[|ds| - 1];
      CapturedComesTo(c, input, before);
      CapturedGrows(c, input, before, last);
      assert before + [last] == ds;
    }
  }

  lemma CapturedGrows(c: Clocks, input: seq<real>, ds: seq<nat>, n: nat)
    requires c.captureRate > 0 && Captured(Calls(c, input, ds)) == Window(input, 0, Sum(ds) * c.ch)
    ensures Captured(Calls(c, input, ds + [n])) == Window(input, 0, Sum(ds + [n]) * c.ch)
  {
    OneMore(c, input, ds, n);
    var more := Calls(c, input, ds + [n]);
    var a, b := Sum(ds) * c.ch, n * c.ch;
    AfterTwoCalls(Calls(c, input, ds), Window(input, a, b), more[|more| - 1].frames);
    WindowsJoin(input, a, b, Sum(ds + [n]) * c.ch);
  }

  lemma {:induction false} AskedComesTo(c: Clocks, input: seq<real>, ds: seq<nat>)
    requires c.captureRate > 0
    ensures Asked(Calls(c, input, ds)) == Owed(Sum(ds), c.captureRate, c.playbackRate)
    decreases |ds|
  {
    if ds != [] {
      var before := ds[..|ds| - 1];
      AskedComesTo(c, input, before);
      var calls := Calls(c, input, ds);
      AfterTwoCalls(Calls(c, input, before), calls[|calls| - 2].samples, calls[|calls| - 1].frames);
    }
  }

  /** Delivered capture is always the input followed by zeros, and playback has
      been asked for exactly floor(F * playbackRate / captureRate) frames, however
      the F frames were split into deliveries. */
  lemma DeliveriesComeTo(c: Clocks, input: seq<real>, ds: seq<nat>)
    requires c.captureRate > 0
    ensures Captured(Calls(c, input, ds)) == Window(input, 0, Sum(ds) * c.ch)
    ensures Asked(Calls(c, input, ds)) == Owed(Sum(ds), c.captureRate, c.playbackRate)
  {
    CapturedComesTo(c, input, ds);
    AskedComesTo(c, input, ds);
  }

  /** Two endpoints on one clock are delivered frame for frame. */
  lemma EqualClocksAreFrameForFrame(c: Clocks, input: seq<real>, ds: seq<nat>)
    requires c.captureRate > 0 && c.playbackRate == c.captureRate
    ensures Asked(Calls(c, input, ds)) == Sum(ds)
  {
    DeliveriesComeTo(c, input, ds);
    QuotientIs(Sum(ds) * c.captureRate, c.captureRate, Sum(ds));
  }

  /** Composed with the capture converter: the session-rate chunks an inner handler
      receives, the resampler's state and its backlog depend only on the total
      number of frames delivered, not on periods or pump sizes. */
  lemma ConvertedCaptureDependsOnTotal<S(!new)>(
      rig: CaptureConverter.Rig<S>, m: CaptureConverter.Machine<S>,
      c: Clocks, input: seq<real>, ds: seq<nat>, es: seq<nat>)
    requires CaptureConverter.Contract(rig) && |m.backlog| < rig.Need(m.state)
    requires c.captureRate > 0 && Sum(ds) == Sum(es)
    ensures CaptureConverter.DrainAll(rig, m, CaptureCallbacks(Calls(c, input, ds)))
         == CaptureConverter.DrainAll(rig, m, CaptureCallbacks(Calls(c, input, es)))
         == CaptureConverter.Drain(rig, m.Plus(Window(input, 0, Sum(ds) * c.ch)))
  {
    DeliveriesComeTo(c, input, ds);
    DeliveriesComeTo(c, input, es);
    CallbacksConcat(Calls(c, input, ds));
    CallbacksConcat(Calls(c, input, es));
    CaptureConverter.CallbackSizesDoNotMatter(rig, m, CaptureCallbacks(Calls(c, input, ds)));
    CaptureConverter.CallbackSizesDoNotMatter(rig, m, CaptureCallbacks(Calls(c, input, es)));
  }

  /** What the playback calls ask of the converter, in samples. */
  function PlaybackRequests(calls: seq<Call>, ch: nat): seq<nat> {
    if calls == [] then []
    else PlaybackRequests(calls[..|calls| - 1], ch)
         + (match calls[|calls| - 1] case OnCapture(_) => [] case OnPlayback(n) => [n * ch])
  }

  lemma {:induction false} RequestsComeTo(calls: seq<Call>, ch: nat)
    ensures Sum(PlaybackRequests(calls, ch)) == Asked(calls) * ch
  {
    if calls != [] {
      var before, last := calls[..|calls| - 1], calls[|calls| - 1];
      RequestsComeTo(before, ch);
      match last
      case OnCapture(_) => assert PlaybackRequests(before, ch) + [] == PlaybackRequests(before, ch);
      case OnPlayback(n) =>
        SumAppend(PlaybackRequests(before, ch), n * ch);
        Distributes(Asked(before), n, ch);
    }
  }

  /** Composed with the playback converter: how often the inner source has been
      pulled depends only on the total number of frames delivered, and is the least
      that covers the frames owed for it. */
  lemma ConvertedPlaybackDependsOnTotal<S(!new)>(
      f: PlaybackConverter.Feed<S>, c: Clocks, input: seq<real>, ds: seq<nat>, es: seq<nat>)
    requires PlaybackConverter.FeedContract(f) && c.captureRate > 0 && Sum(ds) == Sum(es)
    ensures var p := PlaybackConverter.PullsFor(f, PlaybackRequests(Calls(c, input, ds), c.ch));
      && p == PlaybackConverter.PullsFor(f, PlaybackRequests(Calls(c, input, es), c.ch))
      && PlaybackConverter.LeastPulls(f, Owed(Sum(ds), c.captureRate, c.playbackRate) * c.ch, p)
  {
    var x, y := PlaybackRequests(Calls(c, input, ds), c.ch), PlaybackRequests(Calls(c, input, es), c.ch);
    DeliveriesComeTo(c, input, ds);
    DeliveriesComeTo(c, input, es);
    RequestsComeTo(Calls(c, input, ds), c.ch);
    RequestsComeTo(Calls(c, input, es), c.ch);
    PlaybackConverter.PullsAreLeast(f, x);
    PlaybackConverter.PullsAreLeast(f, y);
    PlaybackConverter.RequestSizesDoNotMatter(
      f, Sum(x), PlaybackConverter.PullsFor(f, x), PlaybackConverter.PullsFor(f, y));
  }

  function CaptureCallbacks(calls: seq<Call>): seq<seq<real>> {
    if calls == [] then []
    else CaptureCallbacks(calls[..|calls| - 1])
         + (match calls[|calls| - 1] case OnCapture(x) => [x] case OnPlayback(_) => [])
  }

  lemma {:induction false} ConcatAppend(xs: seq<seq<real>>, y: seq<real>)
    ensures CaptureConverter.Concat(xs + [y]) == CaptureConverter.Concat(xs) + y
  {
    if xs == [] {
      assert xs + [y] == [y];
    } else {
      ConcatAppend(xs[1..], y);
      assert (xs + [y])[1..] == xs[1..] + [y];
      assert xs[0] + (CaptureConverter.Concat(xs[1..]) + y) == xs[0] + CaptureConverter.Concat(xs[1..]) + y;
    }
  }

  lemma {:induction false} CallbacksConcat(calls: seq<Call>)
    ensures CaptureConverter.Concat(CaptureCallbacks(calls)) == Captured(calls)
  {
    if calls != [] {
      var before, last := calls[..|calls| - 1], calls[|calls| - 1];
      CallbacksConcat(before);
      match last
      case OnCapture(x) => ConcatAppend(CaptureCallbacks(before), x);
      case OnPlayback(_) => assert CaptureCallbacks(before) + [] == CaptureCallbacks(before);
    }
  }

  // -------------------------------------------------------------------------
  // The debt accumulator
  // -------------------------------------------------------------------------

  /** The debt after F frames: what is owed beyond the whole frames asked for. */
  ghost function Debt(frames: nat, captureRate: nat, playbackRate: nat): real
    requires captureRate > 0
  {
    (frames * playbackRate) as real / captureRate as real - Owed(frames, captureRate, playbackRate) as real
  }

  lemma DebtStaysBelowOne(frames: nat, captureRate: nat, playbackRate: nat)
    requires captureRate > 0
    ensures 0.0 <= Debt(frames, captureRate, playbackRate) < 1.0
    ensures playbackRate == captureRate ==> Debt(frames, captureRate, playbackRate) == 0.0
  {
    RealQuotient(frames * playbackRate, captureRate);
    if playbackRate == captureRate {
      QuotientIs(frames * playbackRate, captureRate, frames);
      assert frames * playbackRate % captureRate == 0;
    }
  }

  /** One accumulation: adding a delivery's share and taking the whole frames out
      asks for exactly the difference of the two totals. */
  lemma DebtStep(from: nat, frames: nat, captureRate: nat, playbackRate: nat)
    requires captureRate > 0
    ensures var debt := Debt(from, captureRate, playbackRate)
                        + frames as real * playbackRate as real / captureRate as real;
      && Owed(from, captureRate, playbackRate) <= Owed(from + frames, captureRate, playbackRate)
      && debt >= 0.0
      && debt.Floor == Owed(from + frames, captureRate, playbackRate) - Owed(from, captureRate, playbackRate)
      && debt - debt.Floor as real == Debt(from + frames, captureRate, playbackRate)
  {
    OwedGrows(from, from + frames, captureRate, playbackRate);
    var a, b, d := from * playbackRate, (from + frames) * playbackRate, frames * playbackRate;
    assert b == a + d;
    assert d as real == frames as real * playbackRate as real;
    SumOfQuotients(a as real, d as real, captureRate as real);
    DebtStaysBelowOne(from + frames, captureRate, playbackRate);
  }

  lemma SumOfQuotients(x: real, y: real, c: real)
    requires c > 0.0
    ensures x / c + y / c == (x + y) / c
  {
  }
}
