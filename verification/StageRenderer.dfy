/** A static scene repainted only when its key says the roster changed, and live
    meters with per-slot peak holds on top. A scene is the free
    term over what painting it reads, so two scenes are equal exactly when nothing
    they were painted from differs. */
module StageRenderer {
  import opened Wrappers
  import opened PeakHold

  const MAX_CARDS: nat := 10

  datatype Avatar = Avatar(buffer: nat, width: nat, height: nat, pixels: seq<int>)

  datatype Role = Musician | Listener

  datatype Member = Member(
    name: string,
    avatar: Option<Avatar>,
    peak: Decibels,
    rms: Decibels,
    connected: bool,
    role: Role)

  /** One call of render. */
  datatype Request = Request(frame: nat, members: seq<Member>, listeners: nat)

  // -------------------------------------------------------------------------
  // The roster and its key
  // -------------------------------------------------------------------------

  function Musicians(members: seq<Member>): seq<Member> {
    if members == [] then []
    else
      var last := |members| - 1;
      Musicians(members[..last]) + if members[last].role == Musician then [members[last]] else []
  }

  function FirstCards(ms: seq<Member>): (r: seq<Member>)
    ensures |r| <= MAX_CARDS && r <= ms
  {
    ms[..Min(|ms|, MAX_CARDS)]
  }

  /** The members that get cards: the first ten musicians, in order. */
  function Carded(members: seq<Member>): (r: seq<Member>)
    ensures |r| <= MAX_CARDS
  {
    FirstCards(Musicians(members))
  }

  /** Which members these are, by position. */
  ghost predicate Picks(members: seq<Member>, at: seq<nat>, picked: seq<Member>) {
    && |at| == |picked|
    && (forall k | 0 <= k < |at| :: at[k] < |members| && members[at[k]] == picked[k])
    && (forall j, k | 0 <= j < k < |at| :: at[j] < at[k])
  }

  predicate AllMusicians(members: seq<Member>, at: seq<nat>) {
    forall i: nat | i < |members| :: members[i].role == Musician <==> i in at
  }

  lemma PickOn(members: seq<Member>, m: Member, at: seq<nat>, picked: seq<Member>)
    requires Picks(members, at, picked)
    ensures Picks(members + [m], at, picked)
    ensures Picks(members + [m], at + [|members|], picked + [m])
  {
  }

  lemma AllOn(members: seq<Member>, m: Member, at: seq<nat>)
    requires AllMusicians(members, at) && forall k | 0 <= k < |at| :: at[k] < |members|
    ensures AllMusicians(members + [m], if m.role == Musician then at + [|members|] else at)
  {
    if m.role == Musician {
      assert forall i: nat :: i in at + [|members|] <==> i in at || i == |members|;
    }
  }

  ghost predicate PicksMusicians(members: seq<Member>, at: seq<nat>) {
    Picks(members, at, Musicians(members)) && AllMusicians(members, at)
  }

  lemma OneMoreMember(members: seq<Member>, m: Member, at: seq<nat>)
    requires PicksMusicians(members, at)
    ensures PicksMusicians(members + [m], if m.role == Musician then at + [|members|] else at)
  {
    PickOn(members, m, at, Musicians(members));
    AllOn(members, m, at);
    assert (members + [m])[..|members|] == members;
  }

  /** The musicians are picked in order, all of them and nobody else. */
  lemma {:induction false} MusiciansAre(members: seq<Member>) returns (at: seq<nat>)
    ensures PicksMusicians(members, at)
  {
    if members == [] {
      at := [];
    } else {
      var before, m := members[..|members| - 1], members[|members| - 1];
      var some := MusiciansAre(before);
      OneMoreMember(before, m, some);
      assert before + [m] == members;
      at := if m.role == Musician then some + [|before|] else some;
    }
  }

  /** No listener is carded; the first ten musicians are, in order, or all of them
      when there are fewer. */
  lemma CardedAre(members: seq<Member>) returns (at: seq<nat>)
    ensures |at| <= 10 && Picks(members, at, Carded(members))
    ensures forall k | 0 <= k < |at| :: Carded(members)[k].role == Musician
    ensures forall i: nat | i < |members| && members[i].role == Musician ::
      i in at || (|at| == 10 && at[9] < i)
  {
    var all := MusiciansAre(members);
    at := all[..Min(|all|, 10)];
    forall k | 0 <= k < |at| ensures Carded(members)[k].role == Musician {
      assert all[k] in all;
    }
    forall i: nat | i < |members| && members[i].role == Musician
      ensures i in at || (|at| == 10 && at[9] < i)
    {
      var k :| 0 <= k < |all| && all[k] == i;
      if k < |at| { assert at[k] == i; }
    }
  }

  datatype AvatarKey = AvatarKey(buffer: nat, width: nat, height: nat)

  datatype MemberKey = MemberKey(name: string, avatar: Option<AvatarKey>, connected: bool) {
    predicate Matches(m: Member) {
      name == m.name && connected == m.connected && avatar == AvatarKeyOf(m.avatar)
    }
  }

  function AvatarKeyOf(a: Option<Avatar>): Option<AvatarKey> {
    if a.Some? then Some(AvatarKey(a.value.buffer, a.value.width, a.value.height)) else None
  }

  datatype SceneKey = SceneKey(members: seq<MemberKey>, listeners: nat) {
    predicate Fits(roster: seq<Member>, count: nat) {
      && listeners == count && |members| == |roster|
      && forall i | 0 <= i < |roster| :: members[i].Matches(roster[i])
    }
  }

  /** What a static scene is painted for. */
  datatype Painting = Painting(roster: seq<Member>, listeners: nat)

  const BLANK: Painting := Painting([], 0)

  function Asked(r: Request): (p: Painting)
    ensures |p.roster| <= MAX_CARDS
  {
    Painting(Carded(r.members), r.listeners)
  }

  function KeyOf(p: Painting): SceneKey {
    SceneKey(seq(|p.roster|, i requires 0 <= i < |p.roster| =>
               MemberKey(p.roster[i].name, AvatarKeyOf(p.roster[i].avatar), p.roster[i].connected)), p.listeners)
  }

  // -------------------------------------------------------------------------
  // The static scene
  // -------------------------------------------------------------------------

  function RowBreaks(n: nat): seq<nat> {
    if n <= 1 then [1]
    else if n == 2 then [2]
    else if n == 3 then [3]
    else if n == 4 then [2, 2]
    else if n == 5 then [3, 2]
    else if n == 6 then [3, 3]
    else if n == 7 then [4, 3]
    else if n == 8 then [4, 4]
    else if n == 9 then [3, 3, 3]
    else [4, 3, 3]
  }

  /** Where a card goes: everything its rectangle is computed from, beside the size
      of the stage. */
  datatype Place = Place(musicians: nat, row: nat, column: nat)

  /** Slots are dealt out row by row, from row r on. */
  function Located(rows: seq<nat>, r: nat, slot: nat, n: nat): Place
    decreases |rows| - r
  {
    if r >= |rows| || slot < rows[r] then Place(n, r, slot) else Located(rows, r + 1, slot - rows[r], n)
  }

  function PlaceOf(n: nat, slot: nat): Place {
    Located(RowBreaks(n), 0, slot, n)
  }

  /** How many slots rows r and after hold. */
  function SlotsFrom(rows: seq<nat>, r: nat): nat
    decreases |rows| - r
  {
    if r >= |rows| then 0 else rows[r] + SlotsFrom(rows, r + 1)
  }

  /** The rows hold exactly the roster: every musician gets one slot. */
  lemma RowsHoldTheRoster(n: nat)
    requires 1 <= n <= MAX_CARDS
    ensures SlotsFrom(RowBreaks(n), 0) == n
  {
    var rows := RowBreaks(n);
    assert SlotsFrom(rows, 3) == 0;
    assert SlotsFrom(rows, 2) == if |rows| > 2 then rows[2] else 0;
    assert SlotsFrom(rows, 1) == (if |rows| > 1 then rows[1] else 0) + SlotsFrom(rows, 2);
  }

  /** The table is the balanced one: one row to three, two to eight, three to ten,
      with the longer rows first and no two apart by more than one. */
  lemma RowsAreBalanced(n: nat, r: nat)
    requires 1 <= n <= MAX_CARDS && r < |RowBreaks(n)|
    ensures var rows := |RowBreaks(n)|;
      && rows == (if n <= 3 then 1 else if n <= 8 then 2 else 3)
      && RowBreaks(n)[r] == (n + rows - 1 - r) / rows
  {
  }

  /** Counting row by row, slot c of row r comes after all the rows above it. */
  lemma {:induction false} SlotOf(rows: seq<nat>, from: nat, r: nat, c: nat, n: nat)
    requires from <= r < |rows| && c < rows[r]
    ensures SlotsFrom(rows, from) >= SlotsFrom(rows, r)
    ensures Located(rows, from, SlotsFrom(rows, from) - SlotsFrom(rows, r) + c, n) == Place(n, r, c)
    decreases r - from
  {
    if from < r {
      SlotOf(rows, from + 1, r, c, n);
    }
  }

  datatype Art = Art(width: nat, height: nat, pixels: seq<int>)

  datatype Card = Card(name: string, art: Option<Art>, connected: bool, place: Place)

  datatype Scene = Scene(cards: seq<Card>, listeners: nat)

  datatype Meter = Meter(place: Place, connected: bool)

  function ArtOf(a: Option<Avatar>): Option<Art> {
    if a.Some? then Some(Art(a.value.width, a.value.height, a.value.pixels)) else None
  }

  function CardOf(m: Member, place: Place): Card {
    Card(m.name, ArtOf(m.avatar), m.connected, place)
  }

  function SceneOf(p: Painting): Scene {
    var n := |p.roster|;
    Scene(seq(n, i requires 0 <= i < n => CardOf(p.roster[i], PlaceOf(n, i))), p.listeners)
  }

  function MetersOf(p: Painting): seq<Meter> {
    var n := |p.roster|;
    seq(n, i requires 0 <= i < n => Meter(PlaceOf(n, i), p.roster[i].connected))
  }

  /** A scene tells names, connection, art and the listener count apart, and where
      each card goes. */
  lemma SceneTellsApart(p: Painting, q: Painting, i: nat)
    requires SceneOf(p) == SceneOf(q) && i < |p.roster|
    ensures p.listeners == q.listeners && |p.roster| == |q.roster|
    ensures p.roster[i].name == q.roster[i].name && p.roster[i].connected == q.roster[i].connected
    ensures p.roster[i].avatar.Some? <==> q.roster[i].avatar.Some?
    ensures p.roster[i].avatar.Some? ==>
      var a, b := p.roster[i].avatar.value, q.roster[i].avatar.value;
      a.width == b.width && a.height == b.height && a.pixels == b.pixels
    ensures SceneOf(p).cards[i].place == MetersOf(p)[i].place == PlaceOf(|p.roster|, i)
  {
    assert SceneOf(p).cards[i] == SceneOf(q).cards[i];
  }

  /** The first cards of a painting and their meters. */
  ghost predicate PaintedSoFar(p: Painting, cards: seq<Card>, meters: seq<Meter>) {
    && |cards| == |meters| <= |p.roster|
    && cards == SceneOf(p).cards[..|cards|] && meters == MetersOf(p)[..|cards|]
  }

  lemma PaintOne(p: Painting, cards: seq<Card>, meters: seq<Meter>, place: Place)
    requires PaintedSoFar(p, cards, meters) && |cards| < |p.roster| && place == PlaceOf(|p.roster|, |cards|)
    ensures var m := p.roster[|cards|];
      PaintedSoFar(p, cards + [CardOf(m, place)], meters + [Meter(place, m.connected)])
  {
  }

  // -------------------------------------------------------------------------
  // Runs
  // -------------------------------------------------------------------------

  /** What the scene is painted for after one more request. */
  function Repainted(p: Painting, r: Request): (q: Painting)
    ensures |p.roster| <= MAX_CARDS ==> |q.roster| <= MAX_CARDS
  {
    if KeyOf(p).Fits(Asked(r).roster, r.listeners) then p else Asked(r)
  }

  function PaintedFor(run: seq<Request>): (p: Painting)
    ensures |p.roster| <= MAX_CARDS
  {
    if run == [] then BLANK else Repainted(PaintedFor(run[..|run| - 1]), run[|run| - 1])
  }

  lemma FitsIsKeyEquality(p: Painting, q: Painting)
    ensures KeyOf(p).Fits(q.roster, q.listeners) <==> KeyOf(p) == KeyOf(q)
  {
    var k, l := KeyOf(p), KeyOf(q);
    if k.Fits(q.roster, q.listeners) {
      forall i | 0 <= i < |q.roster| ensures k.members[i] == l.members[i] {
        assert k.members[i].Matches(q.roster[i]);
      }
      assert k.members == l.members;
    }
  }

  /** After every request the key held is the key of what was asked for. */
  lemma KeyIsCurrent(run: seq<Request>)
    requires run != []
    ensures KeyOf(PaintedFor(run)) == KeyOf(Asked(run[|run| - 1]))
  {
    FitsIsKeyEquality(PaintedFor(run[..|run| - 1]), Asked(run[|run| - 1]));
  }

  /** Request j painted the scene and every request since has had the same key. */
  ghost predicate PaintedAt(run: seq<Request>, j: int, p: Painting) {
    && -1 <= j < |run|
    && p == (if j == -1 then BLANK else Asked(run[j]))
    && forall k | j < k < |run| :: SameKey(p, run[k])
  }

  predicate SameKey(p: Painting, r: Request) {
    KeyOf(Asked(r)) == KeyOf(p)
  }

  lemma StillPaintedAt(run: seq<Request>, j: int, p: Painting)
    requires run != [] && PaintedAt(run[..|run| - 1], j, p) && SameKey(p, run[|run| - 1])
    ensures PaintedAt(run, j, p)
  {
    forall k | j < k < |run| ensures SameKey(p, run[k]) {
      if k < |run| - 1 { assert SameKey(p, run[..|run| - 1][k]); }
    }
  }

  lemma {:induction false} SceneHasAPainter(run: seq<Request>)
    ensures exists j :: PaintedAt(run, j, PaintedFor(run))
  {
    if run == [] {
      assert PaintedAt(run, -1, PaintedFor(run));
    } else {
      var last := |run| - 1;
      var p, q := PaintedFor(run[..last]), Asked(run[last]);
      FitsIsKeyEquality(p, q);
      if KeyOf(p) == KeyOf(q) {
        SceneHasAPainter(run[..last]);
        var j :| PaintedAt(run[..last], j, p);
        StillPaintedAt(run, j, p);
        assert PaintedAt(run, j, PaintedFor(run));
      } else {
        assert PaintedAt(run, last, PaintedFor(run));
      }
    }
  }

  // -------------------------------------------------------------------------
  // The cache against a repaint from scratch
  // -------------------------------------------------------------------------

  predicate SamePixels(a: Option<Avatar>, b: Option<Avatar>) {
    a.Some? && b.Some? ==> a.value.pixels == b.value.pixels
  }

  /** The key covers every field the static painting reads except the pixels: with
      equal keys the meters agree, and the scenes agree if and only if the avatars'
      pixels do. */
  lemma KeyCoversThePainting(p: Painting, q: Painting)
    requires KeyOf(p) == KeyOf(q)
    ensures |p.roster| == |q.roster| && MetersOf(p) == MetersOf(q)
    ensures SceneOf(p) == SceneOf(q) <==>
      forall i | 0 <= i < |p.roster| :: SamePixels(p.roster[i].avatar, q.roster[i].avatar)
  {
    var n := |p.roster|;
    assert |KeyOf(p).members| == |KeyOf(q).members|;
    forall i | 0 <= i < n
      ensures p.roster[i].name == q.roster[i].name && p.roster[i].connected == q.roster[i].connected
      ensures AvatarKeyOf(p.roster[i].avatar) == AvatarKeyOf(q.roster[i].avatar)
      ensures SceneOf(p).cards[i] == SceneOf(q).cards[i] <==> SamePixels(p.roster[i].avatar, q.roster[i].avatar)
    {
      assert KeyOf(p).members[i] == KeyOf(q).members[i];
    }
    assert MetersOf(p) == MetersOf(q);
    if forall i | 0 <= i < n :: SamePixels(p.roster[i].avatar, q.roster[i].avatar) {
      assert SceneOf(p).cards == SceneOf(q).cards;
    } else {
      var i :| 0 <= i < n && !SamePixels(p.roster[i].avatar, q.roster[i].avatar);
      assert SceneOf(p).cards[i] != SceneOf(q).cards[i];
    }
  }

  /** After any run the cached meters are those of a repaint from scratch, one for
      every slot; and the cached scene is that of a repaint if and only if no
      carded avatar's pixels have changed under its buffer since the scene was
      painted. */
  lemma CacheIsCurrentIff(run: seq<Request>)
    requires run != []
    ensures var p, q := PaintedFor(run), Asked(run[|run| - 1]);
      && MetersOf(p) == MetersOf(q) && |MetersOf(p)| == |q.roster| == |p.roster|
      && (SceneOf(p) == SceneOf(q) <==>
          forall i | 0 <= i < |q.roster| :: SamePixels(p.roster[i].avatar, q.roster[i].avatar))
  {
    KeyIsCurrent(run);
    KeyCoversThePainting(PaintedFor(run), Asked(run[|run| - 1]));
  }

  /** Every avatar shows what one fixed memory holds at its buffer and size. */
  ghost predicate Backed(members: seq<Member>, memory: AvatarKey -> seq<int>) {
    forall i | 0 <= i < |members| && members[i].avatar.Some? ::
      members[i].avatar.value.pixels == memory(AvatarKeyOf(members[i].avatar).value)
  }

  ghost predicate Stable(run: seq<Request>, memory: AvatarKey -> seq<int>) {
    forall k | 0 <= k < |run| :: Backed(run[k].members, memory)
  }

  lemma {:induction false} MusiciansAreBacked(members: seq<Member>, memory: AvatarKey -> seq<int>)
    requires Backed(members, memory)
    ensures Backed(Musicians(members), memory)
  {
    if members != [] {
      MusiciansAreBacked(members[..|members| - 1], memory);
    }
  }

  lemma {:induction false} PaintingIsBacked(run: seq<Request>, memory: AvatarKey -> seq<int>)
    requires Stable(run, memory)
    ensures Backed(PaintedFor(run).roster, memory)
  {
    if run != [] {
      PaintingIsBacked(run[..|run| - 1], memory);
      MusiciansAreBacked(run[|run| - 1].members, memory);
    }
  }

  /** With avatar buffers kept stable, as callers are told to, the cached scene is
      always that of a repaint from scratch. */
  lemma CacheIsNeverStale(run: seq<Request>, memory: AvatarKey -> seq<int>)
    requires run != [] && Stable(run, memory)
    ensures SceneOf(PaintedFor(run)) == SceneOf(Asked(run[|run| - 1]))
    ensures MetersOf(PaintedFor(run)) == MetersOf(Asked(run[|run| - 1]))
  {
    var p, q := PaintedFor(run), Asked(run[|run| - 1]);
    CacheIsCurrentIff(run);
    PaintingIsBacked(run, memory);
    MusiciansAreBacked(run[|run| - 1].members, memory);
    KeyIsCurrent(run);
    forall i | 0 <= i < |q.roster| ensures SamePixels(p.roster[i].avatar, q.roster[i].avatar) {
      assert KeyOf(p).members[i] == KeyOf(q).members[i];
    }
  }

  /** Pixels rewritten in place are not noticed. */
  lemma RewrittenPixelsStayOnStage() returns (run: seq<Request>)
    ensures |run| == 2 && SceneOf(PaintedFor(run)) != SceneOf(Asked(run[1]))
  {
    var m := Member("Ana", Some(Avatar(7, 1, 1, [0])), -60.0, -60.0, true, Musician);
    var n := m.(avatar := Some(Avatar(7, 1, 1, [255])));
    var first, second := Request(0, [m], 0), Request(1, [n], 0);
    run := [first, second];
    OneMusician(m);
    OneMusician(n);
    assert run[..1] == [first] && run[..1][..0] == [];
    assert PaintedFor([first]) == Asked(first);
    KeyIsCurrent(run);
    assert PaintedFor(run) == Asked(first);
    assert SceneOf(Asked(first)).cards[0].art != SceneOf(Asked(second)).cards[0].art;
  }

  lemma OneMusician(m: Member)
    requires m.role == Musician
    ensures Carded([m]) == [m]
  {
    assert Musicians([m][..0]) == [];
  }

  // -------------------------------------------------------------------------
  // Frames
  // -------------------------------------------------------------------------

  /** A frame on the wire: the scene and, slot by slot, the segments lit over it. */
  datatype Frame = Frame(scene: Scene, lit: seq<seq<Option<real>>>)

  function TickOf(m: Member, frame: nat): Tick {
    Tick(frame, m.peak, m.connected)
  }

  /** How many segments a meter has; `raw` is what its pixel width works out to. */
  function Segments(raw: Place -> nat, place: Place): (n: nat)
    ensures n >= 1 && n >= raw(place) && (n > raw(place) ==> raw(place) == 0)
  {
    Max(raw(place), 1)
  }

  predicate Ready(hs: seq<Hold>) {
    |hs| == MAX_CARDS && forall i | 0 <= i < |hs| :: hs[i].frac >= 0.0
  }

  /** Slots in use settle their holds; the others keep theirs. */
  function NextHolds(hs: seq<Hold>, t: Timing, roster: seq<Member>, frame: nat): (r: seq<Hold>)
    requires Ready(hs) && |roster| <= MAX_CARDS
    ensures Ready(r)
  {
    seq(|hs|, i requires 0 <= i < |hs| => if i < |roster| then Settled(hs[i], t, TickOf(roster[i], frame)) else hs[i])
  }

  function IdleHolds(): (hs: seq<Hold>)
    ensures Ready(hs) && forall i | 0 <= i < |hs| :: hs[i] == IDLE
  {
    seq(MAX_CARDS, _ => IDLE)
  }

  function HoldsAfter(t: Timing, run: seq<Request>): (hs: seq<Hold>)
    ensures Ready(hs)
  {
    if run == [] then IdleHolds()
    else
      var last := run[|run| - 1];
      NextHolds(HoldsAfter(t, run[..|run| - 1]), t, Carded(last.members), last.frame)
  }

  /** The drawings of one slot's meter in a run. */
  function SlotTicks(run: seq<Request>, slot: nat): seq<Tick> {
    if run == [] then []
    else
      var last := run[|run| - 1];
      var roster := Carded(last.members);
      SlotTicks(run[..|run| - 1], slot) + if slot < |roster|
        then [Tick(last.frame, roster[slot].peak, roster[slot].connected)] else []
  }

  /** A slot's hold is that of one meter drawn for whoever was in the slot: what is
      proved of a meter over a run holds of every slot, whoever comes and goes. */
  lemma {:induction false} SlotIsOneMeter(t: Timing, run: seq<Request>, slot: nat)
    requires slot < MAX_CARDS
    ensures HoldsAfter(t, run)[slot] == After(t, SlotTicks(run, slot))
  {
    if run != [] {
      var before := SlotTicks(run[..|run| - 1], slot);
      SlotIsOneMeter(t, run[..|run| - 1], slot);
      var ticks := SlotTicks(run, slot);
      if ticks != before { assert ticks[..|ticks| - 1] == before; }
    }
  }

  function MeterLit(h: Hold, t: Timing, m: Member, frame: nat, count: nat): (lit: seq<Option<real>>)
    requires t.Positive() && count > 0 && h.frac >= 0.0
    ensures |lit| == count
  {
    Painted(h, t, TickOf(m, frame), m.rms, count)
  }

  function Lit(hs: seq<Hold>, t: Timing, raw: Place -> nat, roster: seq<Member>, frame: nat)
    : (lit: seq<seq<Option<real>>>)
    requires t.Positive() && Ready(hs) && |roster| <= MAX_CARDS
    ensures |lit| == |roster|
  {
    var n := |roster|;
    seq(n, i requires 0 <= i < n => MeterLit(hs[i], t, roster[i], frame, Segments(raw, PlaceOf(n, i))))
  }

  /** The frame a renderer with this past answers the request with. */
  function FrameAfter(t: Timing, raw: Place -> nat, past: seq<Request>, r: Request): Frame
    requires t.Positive()
  {
    Frame(SceneOf(Repainted(PaintedFor(past), r)), Lit(HoldsAfter(t, past), t, raw, Carded(r.members), r.frame))
  }

  /** What a frame is, slot by slot: the scene cached for the request, and over it each
      carded member's peak and rms on the hold its slot carries. */
  lemma FrameIs(t: Timing, raw: Place -> nat, past: seq<Request>, r: Request, i: nat)
    requires t.Positive() && i < |Carded(r.members)|
    ensures var f := FrameAfter(t, raw, past, r); var roster := Carded(r.members); var m := roster[i];
      && f.scene == SceneOf(PaintedFor(past + [r])) && |f.lit| == |roster|
      && f.lit[i] == Painted(HoldsAfter(t, past)[i], t, Tick(r.frame, m.peak, m.connected), m.rms,
                             Segments(raw, PlaceOf(|roster|, i)))
  {
    assert (past + [r])[..|past|] == past;
  }

  /** Some slot's hold from the past shows on this frame. */
  predicate PastShows(t: Timing, raw: Place -> nat, past: seq<Request>, r: Request) {
    var roster := Carded(r.members);
    exists i | 0 <= i < |roster| :: SlotShows(HoldsAfter(t, past), t, raw, roster, r.frame, i)
  }

  predicate SlotShows(hs: seq<Hold>, t: Timing, raw: Place -> nat, roster: seq<Member>, frame: nat, i: nat)
    requires Ready(hs) && i < |roster| <= MAX_CARDS
  {
    Shows(hs[i], t, TickOf(roster[i], frame), roster[i].rms, Segments(raw, PlaceOf(|roster|, i)))
  }

  lemma LitRemembersIff(hs: seq<Hold>, t: Timing, raw: Place -> nat, roster: seq<Member>, frame: nat)
    requires t.Positive() && Ready(hs) && |roster| <= MAX_CARDS
    ensures Lit(hs, t, raw, roster, frame) == Lit(IdleHolds(), t, raw, roster, frame) <==>
      forall i | 0 <= i < |roster| :: !SlotShows(hs, t, raw, roster, frame, i)
  {
    var was, anew := Lit(hs, t, raw, roster, frame), Lit(IdleHolds(), t, raw, roster, frame);
    forall i | 0 <= i < |roster| ensures was[i] == anew[i] <==> !SlotShows(hs, t, raw, roster, frame, i) {
      PixelsRememberIff(hs[i], t, TickOf(roster[i], frame), roster[i].rms, Segments(raw, PlaceOf(|roster|, i)));
    }
    if forall i | 0 <= i < |roster| :: !SlotShows(hs, t, raw, roster, frame, i) {
      assert was == anew;
    }
  }

  /** The pixels every card was painted with are the ones asked for now. */
  predicate PixelsUnchanged(past: seq<Request>, r: Request) {
    var p, q := PaintedFor(past + [r]), Asked(r);
    forall i | 0 <= i < |p.roster| && i < |q.roster| :: SamePixels(p.roster[i].avatar, q.roster[i].avatar)
  }

  lemma FirstFrameIsCurrent(r: Request)
    ensures SceneOf(Repainted(BLANK, r)) == SceneOf(Asked(r))
  {
    FitsIsKeyEquality(BLANK, Asked(r));
    if KeyOf(BLANK) == KeyOf(Asked(r)) { KeyCoversThePainting(BLANK, Asked(r)); }
  }

  /** A frame is the one a new renderer would draw from the same arguments if and
      only if no carded avatar's pixels changed under its buffer and no hold from an
      earlier frame shows. */
  lemma FrameIsPureIff(t: Timing, raw: Place -> nat, past: seq<Request>, r: Request)
    requires t.Positive()
    ensures FrameAfter(t, raw, past, r) == FrameAfter(t, raw, [], r) <==>
      PixelsUnchanged(past, r) && !PastShows(t, raw, past, r)
  {
    assert (past + [r])[..|past|] == past;
    CacheIsCurrentIff(past + [r]);
    FirstFrameIsCurrent(r);
    LitRemembersIff(HoldsAfter(t, past), t, raw, Carded(r.members), r.frame);
  }

  /** With stable avatar buffers only the holds are left to tell. */
  lemma StableFrameIsPureIff(
      t: Timing, raw: Place -> nat, past: seq<Request>, r: Request, memory: AvatarKey -> seq<int>)
    requires t.Positive() && Stable(past + [r], memory)
    ensures FrameAfter(t, raw, past, r) == FrameAfter(t, raw, [], r) <==> !PastShows(t, raw, past, r)
  {
    CacheIsNeverStale(past + [r], memory);
    CacheIsCurrentIff(past + [r]);
    FrameIsPureIff(t, raw, past, r);
  }

  lemma MiddleIsAboveZero(i: nat, count: nat)
    requires count > 0
    ensures SegmentMiddle(i, count) > 0.0
  {
  }

  /** So frames are not functions of their arguments alone: a slot's hold outlives
      the member it was set by. Ana leaves on a loud frame, Ben joins in silence,
      and Ben's meter shows Ana's peak. */
  lemma HoldOutlivesItsMember(t: Timing, raw: Place -> nat) returns (past: seq<Request>, r: Request)
    requires t.Positive()
    ensures |past| == 1 && Carded(r.members)[..] == r.members && |r.members| == |past[0].members| == 1
    ensures past[0].members[0].name != r.members[0].name
    ensures FrameAfter(t, raw, past, r) != FrameAfter(t, raw, [], r)
  {
    var ana := Member("Ana", None, 0.0, 0.0, true, Musician);
    var ben := Member("Ben", None, -60.0, -60.0, true, Musician);
    var loud := Request(0, [ana], 0);
    past, r := [loud], Request(1, [ben], 0);
    OneMusician(ana);
    OneMusician(ben);
    assert past[..0] == [];
    assert HoldsAfter(t, past[..0]) == IdleHolds();
    assert HoldsAfter(t, past) == NextHolds(IdleHolds(), t, [ana], 0);
    assert HoldsAfter(t, past)[0] == Hold(1.0, 0, true);
    var count := Segments(raw, PlaceOf(1, 0));
    MiddleIsAboveZero(SegmentOf(1.0, count), count);
    assert SlotShows(HoldsAfter(t, past), t, raw, [ben], 1, 0);
    LitRemembersIff(HoldsAfter(t, past), t, raw, [ben], 1);
  }

  // -------------------------------------------------------------------------
  // The renderer
  // -------------------------------------------------------------------------

  class Renderer {
    const timing: Timing
    const raw: Place -> nat
    const holds: array<Hold>
    var scene: Scene
    var key: SceneKey
    var meters: seq<Meter>
    ghost var past: seq<Request>
    ghost var painted: Painting

    ghost predicate Valid()
      reads this, holds
    {
      && timing.Positive() && holds.Length == MAX_CARDS
      && painted == PaintedFor(past) && holds[..] == HoldsAfter(timing, past)
      && scene == SceneOf(painted) && key == KeyOf(painted) && meters == MetersOf(painted)
    }

    constructor (fps: nat, raw: Place -> nat)
      ensures Valid() && past == []
      ensures timing == TimingFor(fps) && this.raw == raw && fresh(holds)
    {
      timing := TimingFor(fps);
      this.raw := raw;
      holds := new Hold[MAX_CARDS](_ => IDLE);
      scene := Scene([], 0);
      key := SceneKey([], 0);
      meters := [];
      past, painted := [], BLANK;
      new;
      assert holds[..] == IdleHolds();
    }

    /** One frame: the renderer moves as the run says and answers as FrameAfter
        does. */
    method Render(frame: nat, members: seq<Member>, listeners: nat) returns (out: Frame)
      requires Valid()
      modifies this, holds
      ensures Valid()
      ensures var r := Request(frame, members, listeners);
        past == old(past) + [r] && out == FrameAfter(timing, raw, old(past), r)
    {
      ghost var r := Request(frame, members, listeners);
      ghost var was := holds[..];
      assert (past + [r])[..|past|] == past;
      var roster := TakeCards(members);
      if !key.Fits(roster, listeners) {
        Rebuild(roster, listeners);
      }
      KeyIsCurrent(past + [r]);
      KeyCoversThePainting(painted, Asked(r));
      assert MetersOf(Asked(r)) == meters;
      var lit := DrawMeters(roster, frame);
      assert HoldsAfter(timing, past + [r]) == NextHolds(was, timing, roster, frame);
      out := Frame(scene, lit);
      past := past + [r];
    }

    /** The first ten musicians, listeners passed over. */
    method TakeCards(members: seq<Member>) returns (roster: seq<Member>)
      ensures roster == Carded(members)
    {
      roster := [];
      var k := 0;
      assert members[..0] == [];
      while k < |members| && |roster| < MAX_CARDS
        invariant k <= |members| && |roster| <= MAX_CARDS
        invariant roster == Musicians(members[..k])
      {
        assert members[..k + 1][..k] == members[..k];
        if members[k].role == Musician {
          roster := roster + [members[k]];
        }
        k := k + 1;
      }
      MusiciansPrefix(members, k);
      assert members[..|members|] == members;
    }

    /** Paints every card in its slot and notes its meter, row by row. */
    method Rebuild(roster: seq<Member>, listeners: nat)
      requires |roster| <= MAX_CARDS
      modifies this`scene, this`key, this`meters, this`painted
      ensures painted == Painting(roster, listeners)
      ensures scene == SceneOf(painted) && key == KeyOf(painted) && meters == MetersOf(painted)
    {
      var p := Painting(roster, listeners);
      var cards: seq<Card> := [];
      meters := [];
      if roster != [] {
        var rows, r: nat := RowBreaks(|roster|), 0;
        RowsHoldTheRoster(|roster|);
        while r < |rows|
          invariant r <= |rows| && |cards| + SlotsFrom(rows, r) == |roster|
          invariant PaintedSoFar(p, cards, meters)
        {
          cards, meters := PaintRow(p, r, cards, meters);
          r := r + 1;
        }
      }
      scene := Scene(cards, listeners);
      key := KeyOf(p);
      painted := p;
    }

    /** One row of cards, left to right. */
    method PaintRow(p: Painting, r: nat, above: seq<Card>, aboveMeters: seq<Meter>)
      returns (cards: seq<Card>, row: seq<Meter>)
      requires 1 <= |p.roster| <= MAX_CARDS && r < |RowBreaks(|p.roster|)|
      requires |above| + SlotsFrom(RowBreaks(|p.roster|), r) == |p.roster| && PaintedSoFar(p, above, aboveMeters)
      ensures |cards| == |above| + RowBreaks(|p.roster|)[r] && PaintedSoFar(p, cards, row)
    {
      var n := |p.roster|;
      var rows := RowBreaks(n);
      RowsHoldTheRoster(n);
      cards, row := above, aboveMeters;
      var c: nat := 0;
      while c < rows[r]
        invariant c <= rows[r] && |cards| == |above| + c
        invariant PaintedSoFar(p, cards, row)
      {
        var idx := |cards|;
        SlotOf(rows, 0, r, c, n);
        PaintOne(p, cards, row, Place(n, r, c));
        cards := cards + [CardOf(p.roster[idx], Place(n, r, c))];
        row := row + [Meter(Place(n, r, c), p.roster[idx].connected)];
        c := c + 1;
      }
    }

    /** The live pass over every slot: its segments, and its hold settled. */
    method DrawMeters(roster: seq<Member>, frame: nat) returns (lit: seq<seq<Option<real>>>)
      requires timing.Positive() && holds.Length == MAX_CARDS && Ready(holds[..])
      requires |roster| <= MAX_CARDS && meters == MetersOf(Painting(roster, 0))
      modifies holds
      ensures holds[..] == NextHolds(old(holds[..]), timing, roster, frame)
      ensures lit == Lit(old(holds[..]), timing, raw, roster, frame)
    {
      lit := [];
      ghost var was := holds[..];
      var slot: nat := 0;
      while slot < |roster|
        invariant slot <= |roster| && |lit| == slot
        invariant forall i | 0 <= i < slot :: holds[i] == Settled(was[i], timing, TickOf(roster[i], frame))
        invariant forall i | slot <= i < MAX_CARDS :: holds[i] == was[i]
        invariant lit == Lit(was, timing, raw, roster, frame)[..slot]
      {
        var now, segments := DrawMeterLive(meters[slot], holds[slot], frame, roster[slot]);
        holds[slot] := now;
        lit := lit + [segments];
        slot := slot + 1;
      }
    }

    method DrawMeterLive(geom: Meter, h: Hold, frame: nat, m: Member) returns (now: Hold, lit: seq<Option<real>>)
      requires timing.Positive() && h.frac >= 0.0 && geom.connected == m.connected
      ensures now == Settled(h, timing, TickOf(m, frame))
      ensures lit == MeterLit(h, timing, m, frame, Segments(raw, geom.place))
    {
      var count, tick := Segments(raw, geom.place), TickOf(m, frame);
      now := Settled(h, timing, tick);
      lit := [];
      var i: nat := 0;
      while i < count
        invariant i <= count && lit == MeterLit(h, timing, m, frame, count)[..i]
      {
        lit := lit + [if geom.connected then Segment(now, timing, tick, m.rms, count, i) else None];
        i := i + 1;
      }
    }
  }

  /** Past ten cards, or past the end, the rest of the list adds nothing. */
  lemma {:induction false} MusiciansPrefix(members: seq<Member>, k: nat)
    requires k <= |members|
    ensures Musicians(members[..k]) <= Musicians(members)
    decreases |members|
  {
    if k == |members| {
      assert members[..k] == members;
    } else {
      var last := |members| - 1;
      MusiciansPrefix(members[..last], k);
      assert members[..last][..k] == members[..k];
    }
  }
}
