/** How one direction of a cpal stream is opened: the plan made from what the
    device advertises, what a refused attempt falls back to, and the outcome that
    is reported. Building a stream is an answer handed in by the host. */
module RateLadder {
  import opened Rates
  import opened Types
  import opened Wrappers

  datatype Host = CoreAudio | Wasapi | PipeWire | Alsa | UnknownHost

  datatype FormFactor = Speakers | Headphones | Headset | Microphone | LineLevel | Bluetooth | Hdmi | Unknown

  datatype Config = Config(channels: nat, rate: nat, f32: bool)

  /** A supported range: every rate from minRate to maxRate. */
  datatype ConfigRange = ConfigRange(channels: nat, minRate: nat, maxRate: nat, f32: bool)

  datatype Plan = Plan(open: Config, attempted: bool, convert: bool)

  /** Hosts that report a rate they could not honour instead of running another. */
  predicate VerifiesNegotiatedRate(host: Host) {
    host == PipeWire || host == CoreAudio || host == Wasapi
  }

  predicate Covers(r: ConfigRange, rate: nat) {
    r.minRate <= rate <= r.maxRate
  }

  // -------------------------------------------------------------------------
  // The best advertised configuration
  // -------------------------------------------------------------------------

  /** b is preferred to a, or as good: by sample type, then by having the native
      channel count, then by more channels. */
  predicate NoBetter(a: Config, b: Config, native: Config) {
    if a.f32 != b.f32 then b.f32
    else
      var x, y := a.channels == native.channels, b.channels == native.channels;
      if x != y then y else a.channels <= b.channels
  }

  /** The last of the best among the ranges that cover the rate. */
  function Best(native: Config, supported: seq<ConfigRange>, rate: nat): Option<Config> {
    if supported == [] then None
    else
      var before, r := Best(native, supported[..|supported| - 1], rate), supported[|supported| - 1];
      if !Covers(r, rate) then before
      else
        var c := Config(r.channels, rate, r.f32);
        if before.Some? && !NoBetter(before.value, c, native) then before else Some(c)
  }

  /** The choice is a covering range at exactly the rate asked for, no covering
      range is better, none after it is as good; it is missing exactly when
      nothing covers the rate. */
  lemma {:induction false} BestIsLastMaximum(native: Config, supported: seq<ConfigRange>, rate: nat)
    ensures var b := Best(native, supported, rate);
      && (b.None? <==> forall i :: 0 <= i < |supported| ==> !Covers(supported[i], rate))
      && (b.Some? ==>
            && b.value.rate == rate
            && exists k :: 0 <= k < |supported| && Chosen(native, supported, rate, b.value, k))
  {
    if supported != [] {
      var n := |supported| - 1;
      BestIsLastMaximum(native, supported[..n], rate);
      var before, b := Best(native, supported[..n], rate), Best(native, supported, rate);
      if b.Some? && (before.None? || b != before || Covers(supported[n], rate)) {
        if before.Some? {
          var k :| 0 <= k < n && Chosen(native, supported[..n], rate, before.value, k);
          if NoBetter(before.value, Config(supported[n].channels, rate, supported[n].f32), native)
             && Covers(supported[n], rate) {
            assert Chosen(native, supported, rate, b.value, n);
          } else {
            assert Chosen(native, supported, rate, b.value, k);
          }
        } else {
          assert Chosen(native, supported, rate, b.value, n);
        }
      } else if b.Some? {
        var k :| 0 <= k < n && Chosen(native, supported[..n], rate, before.value, k);
        assert Chosen(native, supported, rate, b.value, k);
      }
    }
  }

  ghost predicate Chosen(native: Config, supported: seq<ConfigRange>, rate: nat, c: Config, k: nat)
    requires k < |supported|
  {
    && Covers(supported[k], rate) && c == Config(supported[k].channels, rate, supported[k].f32)
    && forall i :: 0 <= i < |supported| && Covers(supported[i], rate) ==>
         var d := Config(supported[i].channels, rate, supported[i].f32);
         NoBetter(d, c, native) && (i > k ==> !NoBetter(c, d, native))
  }

  /** What every covering range comes short in, against the choice: an f32 range
      means an f32 choice; among equals in that, the native channel count means the
      native channel count; among equals in both, no range has more channels. */
  lemma BestPrefers(native: Config, supported: seq<ConfigRange>, rate: nat, i: nat)
    requires i < |supported| && Covers(supported[i], rate)
    ensures var b := Best(native, supported, rate); var r := supported[i];
      && r.minRate <= rate <= r.maxRate
      && b.Some?
      && (r.f32 ==> b.value.f32)
      && (r.f32 == b.value.f32 && r.channels == native.channels ==> b.value.channels == native.channels)
      && (r.f32 == b.value.f32 && (r.channels == native.channels <==> b.value.channels == native.channels) ==>
            r.channels <= b.value.channels)
  {
    BestIsLastMaximum(native, supported, rate);
    var b := Best(native, supported, rate).value;
    var k :| 0 <= k < |supported| && Chosen(native, supported, rate, b, k);
    assert NoBetter(Config(supported[i].channels, rate, supported[i].f32), b, native);
  }

  // -------------------------------------------------------------------------
  // The ladder
  // -------------------------------------------------------------------------

  function ConfigAtRate(native: Config, supported: seq<ConfigRange>, rate: nat): Option<Config> {
    if native.rate == rate then Some(native) else Best(native, supported, rate)
  }

  predicate TelephonyMic(direction: Direction, nativeRate: nat, form: FormFactor) {
    direction == Capture && (nativeRate == 8_000 || nativeRate == 16_000 || form == Bluetooth || form == Headset)
  }

  datatype Refusal = HandsFreeMicrophone | NativeOpenFailed | BuildFailed | HandlerClaimed

  function PlanDirection(session: nat, direction: Direction, native: Config, supported: seq<ConfigRange>,
                         hostConverts: bool, form: FormFactor, demoted: bool): Result<Plan, Refusal> {
    if demoted && native.rate != session then Ok(Plan(native, false, true))
    else
      match ConfigAtRate(native, supported, session)
      case Some(open) => Ok(Plan(open, false, false))
      case None =>
        if TelephonyMic(direction, native.rate, form) then Err(HandsFreeMicrophone)
        else if hostConverts then Ok(Plan(Config(native.channels, session, native.f32), true, false))
        else Ok(Plan(native, false, true))
  }

  /** Exactly when planning itself refuses, with no build attempted: a hands-free
      microphone away from the session rate that advertises no way back to it and
      has not been demoted. A demoted one is converted instead. */
  lemma PlanRefusesIff(session: nat, direction: Direction, native: Config, supported: seq<ConfigRange>,
                       hostConverts: bool, form: FormFactor, demoted: bool)
    ensures PlanDirection(session, direction, native, supported, hostConverts, form, demoted).Err? <==>
      && !demoted && native.rate != session && direction == Capture
      && (native.rate in {8_000, 16_000} || form in {Bluetooth, Headset})
      && forall i :: 0 <= i < |supported| ==> !Covers(supported[i], session)
  {
    BestIsLastMaximum(native, supported, session);
  }

  predicate SomeCovers(supported: seq<ConfigRange>, rate: nat) {
    exists i :: 0 <= i < |supported| && supported[i].minRate <= rate <= supported[i].maxRate
  }

  /** Which rung is planned, exactly. Unconverted without asking: the device is
      there already, or advertises the rate and is not demoted. Asked for a rate it
      does not advertise: undemoted, on a host that verifies. Converted at its own
      rate: every other that is not refused. */
  lemma LadderIs(session: nat, direction: Direction, native: Config, supported: seq<ConfigRange>,
                 hostConverts: bool, form: FormFactor, demoted: bool)
    requires PlanDirection(session, direction, native, supported, hostConverts, form, demoted).Ok?
    ensures var p := PlanDirection(session, direction, native, supported, hostConverts, form, demoted).value;
      && (!p.convert && !p.attempted <==>
            native.rate == session || (!demoted && SomeCovers(supported, session)))
      && (p.attempted <==>
            native.rate != session && !demoted && !SomeCovers(supported, session) && hostConverts)
      && !(p.convert && p.attempted)
      && (native.rate == session || p.convert ==> p.open == native)
      && (p.attempted ==> p.open == Config(native.channels, session, native.f32))
      && (native.rate != session && !p.convert && !p.attempted ==> Some(p.open) == Best(native, supported, session))
  {
    BestIsLastMaximum(native, supported, session);
    if i :| 0 <= i < |supported| && Covers(supported[i], session) {
      assert SomeCovers(supported, session);
    }
  }

  /** The hosts asked for a rate the device does not advertise. */
  lemma AskingHosts(host: Host)
    ensures VerifiesNegotiatedRate(host) <==> host in {CoreAudio, Wasapi, PipeWire}
  {
  }

  /** How the host answers: the planned build, the native-rate build tried after a
      refused attempt, and whether a failed build had already run the callback
      and so taken the handler half out of its slot. */
  datatype HostAnswers = HostAnswers(built: bool, claimed: bool, nativeBuilt: bool)

  /** One direction, open: the rate it runs at, and whether its half is wrapped. */
  datatype Side = Side(rate: nat, converter: bool)

  function OpenSide(native: Config, plan: Plan, host: HostAnswers): Result<Side, Refusal> {
    if plan.convert then
      if host.built then Ok(Side(plan.open.rate, true)) else Err(NativeOpenFailed)
    else if !plan.attempted then
      if host.built then Ok(Side(plan.open.rate, false)) else Err(BuildFailed)
    else if host.built then Ok(Side(plan.open.rate, false))
    else if host.claimed then Err(HandlerClaimed)
    else if host.nativeBuilt then Ok(Side(native.rate, true))
    else Err(NativeOpenFailed)
  }

  function OutcomeOf(host: Host, session: nat, nativeRate: nat, side: Side): RateOutcome {
    if side.converter then Resampled(side.rate)
    else if nativeRate == session then Native
    else
      match host
      case CoreAudio => ClockSet(nativeRate)
      case Wasapi | PipeWire => OsConverted(nativeRate)
      case _ => Native
  }

  /** Exactly when a planned direction opens, and as what: as planned when the host
      builds it; and when it refuses an attempt but hands the half back, at the
      device's own rate through the converter if that builds. */
  lemma OpensIff(native: Config, plan: Plan, host: HostAnswers)
    requires !(plan.convert && plan.attempted)
    ensures var s := OpenSide(native, plan, host);
      && (s.Ok? <==> host.built || (plan.attempted && !host.claimed && host.nativeBuilt))
      && (host.built ==> s == Ok(Side(plan.open.rate, plan.convert)))
      && (!host.built && s.Ok? ==> s == Ok(Side(native.rate, true)))
  {
  }

  /** What an open direction reports, host by host. */
  lemma OutcomeIs(host: Host, session: nat, nativeRate: nat, side: Side)
    ensures var o := OutcomeOf(host, session, nativeRate, side);
      && (side.converter ==> o == Resampled(side.rate))
      && (!side.converter && nativeRate == session ==> o == Native)
      && (!side.converter && nativeRate != session ==>
            && (host == CoreAudio ==> o == ClockSet(nativeRate))
            && (host in {Wasapi, PipeWire} ==> o == OsConverted(nativeRate))
            && (host in {Alsa, UnknownHost} ==> o == Native))
  {
  }

  /** Every rung gives the handler session-rate audio: a converter is in place
      exactly when the stream opened at another rate, and is reported exactly
      then, at that rate; also after a refused attempt fell back to native. */
  lemma EveryRungIsBridged(session: nat, direction: Direction, native: Config, supported: seq<ConfigRange>,
                           host: Host, form: FormFactor, demoted: bool, answers: HostAnswers)
    requires var p := PlanDirection(session, direction, native, supported, VerifiesNegotiatedRate(host), form, demoted);
      p.Ok? && OpenSide(native, p.value, answers).Ok?
    ensures var p := PlanDirection(session, direction, native, supported, VerifiesNegotiatedRate(host), form, demoted);
      var side := OpenSide(native, p.value, answers).value;
      Bridged(session, side.rate, side.converter, OutcomeOf(host, session, native.rate, side))
  {
    BestIsLastMaximum(native, supported, session);
  }

  predicate Advertises(r: ConfigRange, c: Config) {
    Covers(r, c.rate) && r.channels == c.channels && r.f32 == c.f32
  }

  /** A host that does not verify the rate is never asked for one the device did
      not advertise, so it cannot quietly run another. */
  lemma UnverifiedHostsAreNotAsked(session: nat, direction: Direction, native: Config, supported: seq<ConfigRange>,
                                   form: FormFactor, demoted: bool)
    ensures var p := PlanDirection(session, direction, native, supported, false, form, demoted);
      p.Ok? ==>
        && !p.value.attempted
        && (p.value.open == native || exists k :: 0 <= k < |supported| && Advertises(supported[k], p.value.open))
  {
    BestIsLastMaximum(native, supported, session);
    var p := PlanDirection(session, direction, native, supported, false, form, demoted);
    if p.Ok? && p.value.open != native {
      var k :| 0 <= k < |supported| && Chosen(native, supported, session, p.value.open, k);
      assert Advertises(supported[k], p.value.open);
    }
  }
}
