/** The conversion stage of one direction: whole buffers of samples through the
    codec, frames from one channel count to another, and the scratch a device
    thread takes its slices from. A sample format is here just a width and two
    conversions, so the raw 32-bit float format is one of them. */
module DeviceStage {
  import opened Arithmetic
  import opened Wrappers
  import SampleCodec

  type Byte = SampleCodec.Byte
  type Float = SampleCodec.Float

  datatype Layout = Layout(width: nat, encode: Float -> seq<Byte>, decode: seq<Byte> -> Float)

  ghost predicate Lawful(l: Layout) {
    l.width > 0 && forall s :: |l.encode(s)| == l.width
  }

  /** The integer formats of the codec. */
  function IntegerLayout(f: SampleCodec.Format): (l: Layout)
    ensures Lawful(l) && l.width == SampleCodec.Bytes(f)
    ensures forall s :: l.encode(s) == SampleCodec.Encode(f, s)
    ensures forall raw | |raw| == l.width :: l.decode(raw) == SampleCodec.Num(SampleCodec.Decode(f, raw))
  {
    var width := SampleCodec.Bytes(f);
    Layout(width, s => SampleCodec.Encode(f, s),
           raw => if |raw| == width then SampleCodec.Num(SampleCodec.Decode(f, raw)) else SampleCodec.NaN)
  }

  // -------------------------------------------------------------------------
  // Buffers of samples
  // -------------------------------------------------------------------------

  /** Whole samples of src, at most room of them; a partial last one is ignored. */
  ghost function Decoded(l: Layout, src: seq<Byte>, room: nat): (s: seq<Float>)
    requires Lawful(l)
    ensures |s| <= room
    decreases room
  {
    if room == 0 || |src| < l.width then []
    else [l.decode(src[..l.width])] + Decoded(l, src[l.width..], room - 1)
  }

  /** Samples of src, as long as a whole one fits the room in bytes. */
  ghost function Encoded(l: Layout, src: seq<Float>, room: nat): (raw: seq<Byte>)
    requires Lawful(l)
    ensures |raw| <= room
    decreases |src|
  {
    if src == [] || room < l.width then []
    else l.encode(src[0]) + Encoded(l, src[1..], room - l.width)
  }

  /** Exactly min(room, whole samples in src) samples are decoded. */
  lemma {:induction false} DecodedCount(l: Layout, src: seq<Byte>, room: nat)
    requires Lawful(l)
    ensures |Decoded(l, src, room)| == Min(room, |src| / l.width)
    decreases room
  {
    if room > 0 && |src| >= l.width {
      DecodedCount(l, src[l.width..], room - 1);
      QuotientOneLess(|src|, l.width);
    } else if |src| < l.width {
      QuotientIs(|src|, l.width, 0);
    }
  }

  /** Exactly min(samples, whole samples the room holds) are encoded. */
  lemma {:induction false} EncodedCount(l: Layout, src: seq<Float>, room: nat)
    requires Lawful(l)
    ensures |Encoded(l, src, room)| == Min(|src|, room / l.width) * l.width
    decreases |src|
  {
    if src != [] && room >= l.width {
      EncodedCount(l, src[1..], room - l.width);
      QuotientOneLess(room, l.width);
      OneMoreTimes(Min(|src| - 1, (room - l.width) / l.width), l.width);
    } else if room < l.width {
      QuotientIs(room, l.width, 0);
    }
  }

  /** Sample k is what the format makes of its own bytes. */
  lemma {:induction false} DecodedAt(l: Layout, src: seq<Byte>, room: nat, k: nat)
    requires Lawful(l) && k < |Decoded(l, src, room)|
    ensures k * l.width + l.width <= |src|
    ensures Decoded(l, src, room)[k] == l.decode(src[k * l.width..k * l.width + l.width])
    decreases room
  {
    if k > 0 {
      var rest, at := src[l.width..], (k - 1) * l.width;
      DecodedAt(l, rest, room - 1, k - 1);
      OneMoreTimes(k - 1, l.width);
      assert rest[at..at + l.width] == src[l.width + at..l.width + at + l.width];
    }
  }

  /** And sample k's bytes are the ones it is encoded to. */
  lemma {:induction false} EncodedAt(l: Layout, src: seq<Float>, room: nat, k: nat)
    requires Lawful(l) && k < |src| && k * l.width + l.width <= room
    ensures k * l.width + l.width <= |Encoded(l, src, room)|
    ensures Encoded(l, src, room)[k * l.width..k * l.width + l.width] == l.encode(src[k])
    decreases k
  {
    OneMoreTimes(k - 1, l.width);
    var head, at := l.encode(src[0]), (k - 1) * l.width;
    if k == 0 {
      assert Encoded(l, src, room)[..l.width] == head;
    } else {
      WidthFits(k - 1, l.width);
      var rest := Encoded(l, src[1..], room - l.width);
      EncodedAt(l, src[1..], room - l.width, k - 1);
      assert (head + rest)[l.width + at..l.width + at + l.width] == rest[at..at + l.width];
    }
  }

  lemma WidthFits(k: nat, width: nat)
    ensures k * width >= 0
  {
    Grows(0, k, width);
  }

  /** What was decoded replaces the front of the slice; the rest is left alone. */
  method DecodeToF32(src: seq<Byte>, l: Layout, dst: array<Float>, room: nat)
    requires Lawful(l) && room <= dst.Length
    modifies dst
    ensures var s := Decoded(l, src, room); dst[..] == s + old(dst[..])[|s|..]
  {
    var i: nat, at: nat := 0, 0;
    ghost var all := Decoded(l, src, room);
    assert src[0..] == src;
    while i < room && at + l.width <= |src|
      invariant i <= room && at <= |src|
      invariant dst[..i] + Decoded(l, src[at..], room - i) == all
      invariant dst[i..] == old(dst[..])[i..]
      decreases room - i
    {
      var rest := src[at..];
      assert rest[l.width..] == src[at + l.width..] && rest[..l.width] == src[at..at + l.width];
      dst[i] := l.decode(src[at..at + l.width]);
      i, at := i + 1, at + l.width;
    }
    assert dst[..] == dst[..i] + dst[i..];
  }

  /** One more piece written at `at`: the part done grows by it, what is still to
      come shrinks by it, and the tail stays. */
  lemma Spliced<T>(was: seq<T>, at: nat, piece: seq<T>, rest: seq<T>)
    requires at + |piece| <= |was|
    ensures var now := was[..at] + piece + was[at + |piece|..];
      && now[..at + |piece|] + rest == was[..at] + (piece + rest)
      && now[at + |piece|..] == was[at + |piece|..]
  {
  }

  method WriteSample(dst: array<Byte>, at: nat, raw: seq<Byte>)
    requires at + |raw| <= dst.Length
    modifies dst
    ensures dst[..] == old(dst[..])[..at] + raw + old(dst[..])[at + |raw|..]
  {
    var j := 0;
    while j < |raw|
      invariant j <= |raw|
      invariant dst[..] == old(dst[..])[..at] + raw[..j] + old(dst[..])[at + j..]
    {
      dst[at + j] := raw[j];
      j := j + 1;
    }
  }

  method EncodeFromF32(src: seq<Float>, l: Layout, dst: array<Byte>, room: nat)
    requires Lawful(l) && room <= dst.Length
    modifies dst
    ensures var raw := Encoded(l, src, room); dst[..] == raw + old(dst[..])[|raw|..]
  {
    var i: nat, at: nat := 0, 0;
    ghost var all := Encoded(l, src, room);
    assert src[0..] == src;
    while i < |src| && at + l.width <= room
      invariant i <= |src| && at <= room
      invariant dst[..at] + Encoded(l, src[i..], room - at) == all
      invariant dst[at..] == old(dst[..])[at..]
      decreases |src| - i
    {
      ghost var was := dst[..];
      assert src[i..][1..] == src[i + 1..];
      WriteSample(dst, at, l.encode(src[i]));
      Spliced(was, at, l.encode(src[i]), Encoded(l, src[i + 1..], room - at - l.width));
      i, at := i + 1, at + l.width;
    }
    assert dst[..] == dst[..at] + dst[at..];
  }

  // -------------------------------------------------------------------------
  // Frames
  // -------------------------------------------------------------------------

  function Channel(offset: nat, i: nat, srcCh: nat): (c: nat)
    requires srcCh > 0
    ensures c < srcCh
  {
    Min(offset + i, srcCh - 1)
  }

  ghost function MappedFrame(frame: seq<Float>, offset: nat, dstCh: nat): (r: seq<Float>)
    requires |frame| > 0
    ensures |r| == dstCh
  {
    seq(dstCh, i requires 0 <= i < dstCh => frame[Channel(offset, i, |frame|)])
  }

  /** Frame by frame, as long as both sides have a whole one. */
  ghost function Mapped(src: seq<Float>, srcCh: nat, offset: nat, dstCh: nat, room: nat): (r: seq<Float>)
    requires srcCh > 0 && dstCh > 0
    ensures |r| <= room
    decreases |src|
  {
    if |src| < srcCh || room < dstCh then []
    else MappedFrame(src[..srcCh], offset, dstCh) + Mapped(src[srcCh..], srcCh, offset, dstCh, room - dstCh)
  }

  /** Whole frames on both sides come out one for one. */
  lemma {:induction false} MappedCount(src: seq<Float>, srcCh: nat, offset: nat, dstCh: nat, room: nat, frames: nat)
    requires srcCh > 0 && dstCh > 0 && |src| == frames * srcCh && room == frames * dstCh
    ensures |Mapped(src, srcCh, offset, dstCh, room)| == frames * dstCh
    decreases frames
  {
    if frames > 0 {
      OneMoreTimes(frames - 1, srcCh);
      OneMoreTimes(frames - 1, dstCh);
      MappedCount(src[srcCh..], srcCh, offset, dstCh, room - dstCh, frames - 1);
    }
  }

  /** Where every mapped sample comes from: the same frame, the channel shifted by
      the offset and held at the last. */
  lemma {:induction false} MappedAt(src: seq<Float>, srcCh: nat, offset: nat, dstCh: nat, room: nat, k: nat, i: nat)
    requires srcCh > 0 && dstCh > 0 && i < dstCh
    requires k * dstCh + i < |Mapped(src, srcCh, offset, dstCh, room)|
    ensures var c := if offset + i < srcCh then offset + i else srcCh - 1;
      k * srcCh + c < |src| && Mapped(src, srcCh, offset, dstCh, room)[k * dstCh + i] == src[k * srcCh + c]
    decreases k
  {
    if k > 0 {
      OneMoreTimes(k - 1, dstCh);
      OneMoreTimes(k - 1, srcCh);
      var a, b := (k - 1) * dstCh + i, (k - 1) * srcCh + Channel(offset, i, srcCh);
      MappedAt(src[srcCh..], srcCh, offset, dstCh, room - dstCh, k - 1, i);
      assert src[srcCh..][b] == src[srcCh + b];
      var rest := Mapped(src[srcCh..], srcCh, offset, dstCh, room - dstCh);
      assert Mapped(src, srcCh, offset, dstCh, room)[dstCh + a] == rest[a];
    }
  }

  method MapFrame(frame: seq<Float>, offset: nat, dst: array<Float>, at: nat, dstCh: nat)
    requires |frame| > 0 && at + dstCh <= dst.Length
    modifies dst
    ensures dst[..] == old(dst[..])[..at] + MappedFrame(frame, offset, dstCh) + old(dst[..])[at + dstCh..]
  {
    var i: nat := 0;
    ghost var mapped := MappedFrame(frame, offset, dstCh);
    while i < dstCh
      invariant i <= dstCh
      invariant dst[..at] == old(dst[..])[..at] && dst[at + i..] == old(dst[..])[at + i..]
      invariant dst[at..at + i] == mapped[..i]
    {
      dst[at + i] := frame[Channel(offset, i, |frame|)];
      i := i + 1;
    }
  }

  method MapFramesFrom(src: seq<Float>, srcCh: nat, offset: nat, dst: array<Float>, room: nat, dstCh: nat)
    requires srcCh > 0 && dstCh > 0 && room <= dst.Length
    modifies dst
    ensures var r := Mapped(src, srcCh, offset, dstCh, room); dst[..] == r + old(dst[..])[|r|..]
  {
    var from: nat, at: nat := 0, 0;
    ghost var all := Mapped(src, srcCh, offset, dstCh, room);
    assert src[0..] == src;
    while from + srcCh <= |src| && at + dstCh <= room
      invariant from <= |src| && at <= room
      invariant dst[..at] + Mapped(src[from..], srcCh, offset, dstCh, room - at) == all
      invariant dst[at..] == old(dst[..])[at..]
      decreases |src| - from
    {
      ghost var was, rest := dst[..], src[from..];
      assert rest[srcCh..] == src[from + srcCh..] && rest[..srcCh] == src[from..from + srcCh];
      MapFrame(src[from..from + srcCh], offset, dst, at, dstCh);
      Spliced(was, at, MappedFrame(rest[..srcCh], offset, dstCh),
              Mapped(rest[srcCh..], srcCh, offset, dstCh, room - at - dstCh));
      from, at := from + srcCh, at + dstCh;
    }
    assert dst[..] == dst[..at] + dst[at..];
  }

  lemma MappedCons(frame: seq<Float>, rest: seq<Float>, srcCh: nat, offset: nat, dstCh: nat, room: nat)
    requires |frame| == srcCh > 0 && dstCh > 0
    ensures Mapped(frame + rest, srcCh, offset, dstCh, dstCh + room)
         == MappedFrame(frame, offset, dstCh) + Mapped(rest, srcCh, offset, dstCh, room)
  {
    assert (frame + rest)[..srcCh] == frame && (frame + rest)[srcCh..] == rest;
  }

  /** Equal channel counts and no offset: the mapping changes nothing, which is
      what lets a stage skip it. */
  lemma {:induction false} MappedSame(src: seq<Float>, ch: nat, frames: nat)
    requires ch > 0 && |src| == frames * ch
    ensures Mapped(src, ch, 0, ch, frames * ch) == src
    decreases frames
  {
    if frames > 0 {
      OneMoreTimes(frames - 1, ch);
      assert MappedFrame(src[..ch], 0, ch) == src[..ch];
      MappedSame(src[ch..], ch, frames - 1);
    }
  }

  lemma OneFrameThereAndBack(src: seq<Float>, ch: nat, wide: nat, out: nat, back: nat)
    requires 0 < ch <= wide && ch <= |src|
    requires Mapped(Mapped(src[ch..], ch, 0, wide, out), wide, 0, ch, back) == src[ch..]
    ensures Mapped(Mapped(src, ch, 0, wide, wide + out), wide, 0, ch, ch + back) == src
  {
    var frame := MappedFrame(src[..ch], 0, wide);
    assert src == src[..ch] + src[ch..];
    MappedCons(src[..ch], src[ch..], ch, 0, wide, out);
    MappedCons(frame, Mapped(src[ch..], ch, 0, wide, out), wide, 0, ch, back);
    assert MappedFrame(frame, 0, ch) == src[..ch];
  }

  /** Fanned out to at least as many channels and taken back, frames are as they
      were. */
  lemma {:induction false} MappedThereAndBack(src: seq<Float>, ch: nat, wide: nat, frames: nat)
    requires 0 < ch <= wide && |src| == frames * ch
    ensures Mapped(Mapped(src, ch, 0, wide, frames * wide), wide, 0, ch, frames * ch) == src
    decreases frames
  {
    if frames > 0 {
      OneMoreTimes(frames - 1, ch);
      OneMoreTimes(frames - 1, wide);
      MappedThereAndBack(src[ch..], ch, wide, frames - 1);
      OneFrameThereAndBack(src, ch, wide, (frames - 1) * wide, (frames - 1) * ch);
    }
  }

  // -------------------------------------------------------------------------
  // The stage
  // -------------------------------------------------------------------------

  /** A packet of whole frames holds exactly the samples its floats have room for:
      the byte buffer and the float buffer describe the same samples. */
  lemma SameSamples(l: Layout, ch: nat, frames: nat)
    requires l.width > 0
    ensures frames * (l.width * ch) == (frames * ch) * l.width
    ensures frames * (l.width * ch) / l.width == frames * ch
  {
    assert frames * (l.width * ch) == (frames * ch) * l.width;
    MultipleHasNoRemainder(frames * ch, l.width);
  }

  ghost function Silence(n: nat): (s: seq<Float>)
    ensures |s| == n
  {
    seq(n, _ => SampleCodec.Num(0.0))
  }

  /** The device's own samples in a packet. */
  ghost function Packet(l: Layout, raw: seq<Byte>, silent: bool, samples: nat): (s: seq<Float>)
    requires Lawful(l)
  {
    if silent then Silence(samples) else Decoded(l, raw, samples)
  }

  /** Silence in any channels is silence. */
  lemma {:induction false} MappedSilence(samples: nat, srcCh: nat, offset: nat, dstCh: nat, room: nat)
    requires srcCh > 0 && dstCh > 0
    ensures forall j | 0 <= j < |Mapped(Silence(samples), srcCh, offset, dstCh, room)| ::
      Mapped(Silence(samples), srcCh, offset, dstCh, room)[j] == SampleCodec.Num(0.0)
    decreases samples
  {
    if samples >= srcCh && room >= dstCh {
      assert Silence(samples)[srcCh..] == Silence(samples - srcCh);
      MappedSilence(samples - srcCh, srcCh, offset, dstCh, room - dstCh);
    }
  }

  class Stage {
    const layout: Layout
    const deviceChannels: nat
    const handlerChannels: nat
    const blockAlign: nat
    const frames: nat
    const bytes: array<Byte>
    const deviceFloats: array<Float>
    const handlerFloats: array<Float>

    ghost predicate Valid() {
      && Lawful(layout) && deviceChannels > 0 && handlerChannels > 0
      && blockAlign == layout.width * deviceChannels
      && bytes.Length == frames * blockAlign
      && deviceFloats.Length == frames * deviceChannels
      && handlerFloats.Length == frames * handlerChannels
      && deviceFloats != handlerFloats
    }

    constructor (layout: Layout, channels: nat, handlerChannels: nat, bufferFrames: nat, periods: nat)
      requires Lawful(layout)
      ensures Valid() && this.layout == layout && frames == periods * bufferFrames
      ensures deviceChannels == Max(channels, 1) && this.handlerChannels == Max(handlerChannels, 1)
      ensures fresh(bytes) && fresh(deviceFloats) && fresh(handlerFloats)
    {
      this.layout := layout;
      deviceChannels := Max(channels, 1);
      this.handlerChannels := Max(handlerChannels, 1);
      blockAlign := layout.width * Max(channels, 1);
      frames := periods * bufferFrames;
      bytes := new Byte[periods * bufferFrames * (layout.width * Max(channels, 1))](_ => 0);
      deviceFloats := new Float[periods * bufferFrames * Max(channels, 1)](_ => SampleCodec.Num(0.0));
      handlerFloats := new Float[periods * bufferFrames * Max(handlerChannels, 1)](_ => SampleCodec.Num(0.0));
    }

    predicate SameLayout() {
      deviceChannels == handlerChannels
    }

    /** The packet's samples fill the whole slice: nothing stale from an earlier
        packet is left in it. */
    method DecodePacket(raw: seq<Byte>, silent: bool, n: nat) returns (decoded: seq<Float>)
      requires Valid() && n <= frames && |raw| == n * blockAlign
      modifies deviceFloats
      ensures decoded == Packet(layout, raw, silent, n * deviceChannels) && |decoded| == n * deviceChannels
    {
      var samples := n * deviceChannels;
      Grows(n, frames, deviceChannels);
      if silent {
        Fill(deviceFloats, samples);
      } else {
        DecodeToF32(raw, layout, deviceFloats, samples);
        DecodedCount(layout, raw, samples);
        SameSamples(layout, deviceChannels, n);
      }
      decoded := deviceFloats[..samples];
    }

    /** What the handler hears of a packet: its frames in the handler's channels,
        whichever path they took. None when the device had nothing more. */
    method Deliver(raw: seq<Byte>, silent: bool, n: nat, offset: nat) returns (heard: Option<seq<Float>>)
      requires Valid() && n <= frames && |raw| == n * blockAlign
      modifies deviceFloats, handlerFloats
      ensures heard == None <==> n == 0
      ensures heard.Some? ==>
        heard.value == Mapped(Packet(layout, raw, silent, n * deviceChannels), deviceChannels, offset,
                              handlerChannels, n * handlerChannels)
        && |heard.value| == n * handlerChannels
        && (silent ==> forall j | 0 <= j < |heard.value| :: heard.value[j] == SampleCodec.Num(0.0))
    {
      if n == 0 { return None; }
      var decoded := DecodePacket(raw, silent, n);
      MappedCount(decoded, deviceChannels, offset, handlerChannels, n * handlerChannels, n);
      if silent { MappedSilence(n * deviceChannels, deviceChannels, offset, handlerChannels, n * handlerChannels); }
      if SameLayout() && offset == 0 {
        MappedSame(decoded, deviceChannels, n);
        return Some(decoded);
      }
      Grows(n, frames, handlerChannels);
      MapFramesFrom(decoded, deviceChannels, offset, handlerFloats, n * handlerChannels, handlerChannels);
      heard := Some(handlerFloats[..n * handlerChannels]);
    }

    /** One period for the device, from what the handler wrote into the silenced
        slice it was lent. */
    method Write(pulled: seq<Float>, n: nat) returns (raw: seq<Byte>)
      requires Valid() && n <= frames && |pulled| == n * handlerChannels
      modifies bytes, deviceFloats
      ensures |raw| == n * blockAlign
      ensures var mapped := Mapped(pulled, handlerChannels, 0, deviceChannels, n * deviceChannels);
        raw == Encoded(layout, mapped, n * blockAlign)
    {
      var samples := n * deviceChannels;
      Grows(n, frames, deviceChannels);
      Grows(n, frames, blockAlign);
      var staged := pulled;
      MappedCount(pulled, handlerChannels, 0, deviceChannels, samples, n);
      if SameLayout() {
        MappedSame(pulled, deviceChannels, n);
      } else {
        MapFramesFrom(pulled, handlerChannels, 0, deviceFloats, samples, deviceChannels);
        staged := deviceFloats[..samples];
      }
      EncodeFromF32(staged, layout, bytes, n * blockAlign);
      EncodedCount(layout, staged, n * blockAlign);
      SameSamples(layout, deviceChannels, n);
      raw := bytes[..n * blockAlign];
    }
  }

  method Fill(a: array<Float>, n: nat)
    requires n <= a.Length
    modifies a
    ensures a[..] == Silence(n) + old(a[..])[n..]
  {
    var i := 0;
    while i < n
      invariant i <= n
      invariant forall j | 0 <= j < i :: a[j] == SampleCodec.Num(0.0)
      invariant forall j | i <= j < a.Length :: a[j] == old(a[j])
    {
      a[i] := SampleCodec.Num(0.0);
      i := i + 1;
    }
  }

  // -------------------------------------------------------------------------
  // There and back
  // -------------------------------------------------------------------------

  ghost function Trip(l: Layout, src: seq<Float>): (r: seq<Float>)
    ensures |r| == |src|
  {
    seq(|src|, i requires 0 <= i < |src| => l.decode(l.encode(src[i])))
  }

  lemma {:induction false} DecodedOfEncoded(l: Layout, src: seq<Float>)
    requires Lawful(l)
    ensures Decoded(l, Encoded(l, src, |src| * l.width), |src|) == Trip(l, src)
    decreases |src|
  {
    if src != [] {
      OneMoreTimes(|src| - 1, l.width);
      var head, rest := l.encode(src[0]), Encoded(l, src[1..], (|src| - 1) * l.width);
      assert (head + rest)[..l.width] == head && (head + rest)[l.width..] == rest;
      DecodedOfEncoded(l, src[1..]);
      assert Trip(l, src) == [l.decode(head)] + Trip(l, src[1..]);
    }
  }

  lemma EncodedCons(l: Layout, head: Float, rest: seq<Float>, room: nat)
    requires Lawful(l) && room >= l.width
    ensures Encoded(l, [head] + rest, room) == l.encode(head) + Encoded(l, rest, room - l.width)
  {
    assert ([head] + rest)[1..] == rest;
  }

  lemma {:induction false} EncodedOfDecoded(l: Layout, raw: seq<Byte>, n: nat)
    requires Lawful(l) && |raw| == n * l.width
    requires forall w: seq<Byte> | |w| == l.width :: l.encode(l.decode(w)) == w
    ensures Encoded(l, Decoded(l, raw, n), |raw|) == raw
    decreases n
  {
    if n > 0 {
      OneMoreTimes(n - 1, l.width);
      EncodedOfDecoded(l, raw[l.width..], n - 1);
      var head, rest := l.decode(raw[..l.width]), Decoded(l, raw[l.width..], n - 1);
      EncodedCons(l, head, rest, |raw|);
      assert l.encode(head) == raw[..l.width];
    }
  }

  /** A 16-bit or packed 24-bit device buffer goes through the handler's samples
      and back unchanged, whatever bytes it holds. */
  lemma NarrowBuffersRoundTrip(f: SampleCodec.Format, raw: seq<Byte>, n: nat)
    requires (f == SampleCodec.I16 || f == SampleCodec.I24) && |raw| == n * SampleCodec.Bytes(f)
    ensures var l := IntegerLayout(f); Encoded(l, Decoded(l, raw, n), |raw|) == raw
  {
    var l := IntegerLayout(f);
    forall w: seq<Byte> | |w| == l.width ensures l.encode(l.decode(w)) == w {
      SampleCodec.EncodeOfDecode(f, w);
    }
    EncodedOfDecoded(l, raw, n);
  }

  lemma {:induction false} TripOfMapped(l: Layout, src: seq<Float>, srcCh: nat, offset: nat, dstCh: nat, room: nat)
    requires srcCh > 0 && dstCh > 0
    ensures Trip(l, Mapped(src, srcCh, offset, dstCh, room)) == Mapped(Trip(l, src), srcCh, offset, dstCh, room)
    decreases |src|
  {
    if |src| >= srcCh && room >= dstCh {
      TripOfMapped(l, src[srcCh..], srcCh, offset, dstCh, room - dstCh);
      assert Trip(l, src)[srcCh..] == Trip(l, src[srcCh..]);
      assert Trip(l, src)[..srcCh] == Trip(l, src[..srcCh]);
      assert Trip(l, MappedFrame(src[..srcCh], offset, dstCh)) == MappedFrame(Trip(l, src[..srcCh]), offset, dstCh);
      var a, b := MappedFrame(src[..srcCh], offset, dstCh), Mapped(src[srcCh..], srcCh, offset, dstCh, room - dstCh);
      assert Trip(l, a + b) == Trip(l, a) + Trip(l, b);
    }
  }

  /** What a render stage writes, a capture stage of the same format and channel
      counts hears as the handler's own frames, each sample through the codec once,
      when the device has at least the handler's channels. */
  lemma LoopbackIsTheCodec(l: Layout, pulled: seq<Float>, handler: nat, device: nat, n: nat)
    requires Lawful(l) && 0 < handler <= device && |pulled| == n * handler
    ensures var raw := Encoded(l, Mapped(pulled, handler, 0, device, n * device), n * (l.width * device));
      Mapped(Packet(l, raw, false, n * device), device, 0, handler, n * handler) == Trip(l, pulled)
  {
    var wide := Mapped(pulled, handler, 0, device, n * device);
    MappedCount(pulled, handler, 0, device, n * device, n);
    SameSamples(l, device, n);
    DecodedOfEncoded(l, wide);
    TripOfMapped(l, pulled, handler, 0, device, n * device);
    MappedThereAndBack(Trip(l, pulled), handler, device, n);
  }
}
