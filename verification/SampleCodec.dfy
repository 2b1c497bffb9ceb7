/** The integer sample codec at the device edge, down to the byte. Samples are
    reals with the three non-finite values beside them. Scaling by a power of two
    is exact in binary32; the one conversion that is not, a 32-bit integer to
    binary32, is rounded here as IEEE 754 does it, to nearest with ties to even. */
module SampleCodec {
  import opened Arithmetic

  type Byte = b: int | 0 <= b < 256

  datatype Float = NaN | PosInf | NegInf | Num(r: real)

  datatype Format = I32 | I24In32 | I24 | I16

  function Bytes(f: Format): nat {
    match f
    case I32 | I24In32 => 4
    case I24 => 3
    case I16 => 2
  }

  const P15: int := 0x8000
  const P16: int := 0x1_0000
  const P23: int := 0x80_0000
  const P24: int := 0x100_0000
  const P31: int := 0x8000_0000
  const P32: int := 0x1_0000_0000

  // -------------------------------------------------------------------------
  // Bytes: little-endian two's complement
  // -------------------------------------------------------------------------

  function Signed(u: int, span: int): int {
    if 2 * u >= span then u - span else u
  }

  /** Two's complement: the bit pattern of a value, read as unsigned. */
  function Pattern(v: int, span: int): int {
    if v < 0 then v + span else v
  }

  function FromLe2(b: seq<Byte>): int
    requires |b| == 2
  {
    Signed(b[0] as int + 256 * b[1] as int, P16)
  }

  function FromLe4(b: seq<Byte>): int
    requires |b| == 4
  {
    Signed(b[0] as int + 256 * (b[1] as int + 256 * (b[2] as int + 256 * b[3] as int)), P32)
  }

  function ToLe2(v: int): seq<Byte>
    requires -P15 <= v < P15
  {
    var u := Pattern(v, P16);
    [u % 256, u / 256]
  }

  function ToLe4(v: int): seq<Byte>
    requires -P31 <= v < P31
  {
    var u := Pattern(v, P32);
    [u % 256, u / 256 % 256, u / 256 / 256 % 256, u / 256 / 256 / 256]
  }

  /** Three packed bytes get their sign from a shift down by one byte. */
  function Unpack(f: Format, raw: seq<Byte>): int
    requires |raw| == Bytes(f)
  {
    match f
    case I32 | I24In32 => FromLe4(raw)
    case I24 => FromLe4([0] + raw) / 256
    case I16 => FromLe2(raw)
  }

  function Pack(f: Format, v: int): (raw: seq<Byte>)
    requires -Half(f) <= v < Half(f)
    ensures |raw| == Bytes(f)
  {
    match f
    case I32 | I24In32 => ToLe4(v)
    case I24 => ToLe4(v)[..3]
    case I16 => ToLe2(v)
  }

  /** Half the span of the integers a format can carry. */
  function Half(f: Format): int {
    match f
    case I32 | I24In32 => P31
    case I24 => P23
    case I16 => P15
  }

  lemma UnpackInRange(f: Format, raw: seq<Byte>)
    requires |raw| == Bytes(f)
    ensures -Half(f) <= Unpack(f, raw) < Half(f)
  {
  }

  /** Byte order and sign: the bytes are digits to base 256, the first the lowest, and
      a pattern in the upper half of the span stands for a negative value. */
  lemma LowByteFirst(f: Format, raw: seq<Byte>)
    requires |raw| == Bytes(f)
    ensures f == I16 ==> var u := raw[0] as int + 256 * raw[1] as int;
      Unpack(f, raw) == if u < 0x8000 then u else u - 0x1_0000
    ensures f == I24 ==> var u := raw[0] as int + 256 * raw[1] as int + 0x1_0000 * raw[2] as int;
      Unpack(f, raw) == if u < 0x80_0000 then u else u - 0x100_0000
    ensures f == I32 || f == I24In32 ==>
      var u := raw[0] as int + 256 * raw[1] as int + 0x1_0000 * raw[2] as int + 0x100_0000 * raw[3] as int;
      Unpack(f, raw) == if u < 0x8000_0000 then u else u - 0x1_0000_0000
  {
    if f == I24 { assert [0] + raw == [0, raw[0], raw[1], raw[2]]; }
  }

  lemma Peel(b: Byte, m: int)
    ensures (b as int + 256 * m) % 256 == b as int && (b as int + 256 * m) / 256 == m
  {
  }

  lemma Digits(u: int)
    requires 0 <= u
    ensures u == u % 256 + 256 * (u / 256 % 256 + 256 * (u / 256 / 256 % 256 + 256 * (u / 256 / 256 / 256)))
  {
  }

  lemma UnpackOfPack32(v: int)
    requires -P31 <= v < P31
    ensures FromLe4(ToLe4(v)) == v
  {
    Digits(Pattern(v, P32));
  }

  lemma UnpackOfPack24(v: int)
    requires -P23 <= v < P23
    ensures Unpack(I24, Pack(I24, v)) == v
  {
    var u := Pattern(v, P32);
    var a, b, c, d := u % 256, u / 256 % 256, u / 256 / 256 % 256, u / 256 / 256 / 256;
    Digits(u);
    assert [0] + ToLe4(v)[..3] == [0, a, b, c];
    assert d == if v < 0 then 255 else 0;
    assert FromLe4([0, a, b, c]) == 256 * v;
  }

  lemma UnpackOfPack(f: Format, v: int)
    requires -Half(f) <= v < Half(f)
    ensures Unpack(f, Pack(f, v)) == v
  {
    match f
    case I32 | I24In32 => UnpackOfPack32(v);
    case I24 => UnpackOfPack24(v);
    case I16 =>
  }

  lemma PackOfUnpack32(raw: seq<Byte>)
    requires |raw| == 4
    ensures -P31 <= FromLe4(raw) < P31 && ToLe4(FromLe4(raw)) == raw
  {
    Peel(raw[0], raw[1] as int + 256 * (raw[2] as int + 256 * raw[3] as int));
    Peel(raw[1], raw[2] as int + 256 * raw[3] as int);
    Peel(raw[2], raw[3] as int);
  }

  lemma PackOfUnpack24(raw: seq<Byte>)
    requires |raw| == 3
    ensures -P23 <= Unpack(I24, raw) < P23 && Pack(I24, Unpack(I24, raw)) == raw
  {
    UnpackInRange(I24, raw);
    assert [0] + raw == [0, raw[0], raw[1], raw[2]];
    var v := Unpack(I24, raw);
    var top := if v < 0 then 255 else 0;
    assert Pattern(v, P32) == raw[0] as int + 256 * (raw[1] as int + 256 * (raw[2] as int + 256 * top));
    Peel(raw[0], raw[1] as int + 256 * (raw[2] as int + 256 * top));
    Peel(raw[1], raw[2] as int + 256 * top);
    Peel(raw[2], top);
  }

  lemma PackOfUnpack(f: Format, raw: seq<Byte>)
    requires |raw| == Bytes(f)
    ensures -Half(f) <= Unpack(f, raw) < Half(f) && Pack(f, Unpack(f, raw)) == raw
  {
    match f
    case I16 => Peel(raw[0], raw[1] as int);
    case I32 | I24In32 => PackOfUnpack32(raw);
    case I24 => PackOfUnpack24(raw);
  }

  // -------------------------------------------------------------------------
  // Integers to binary32
  // -------------------------------------------------------------------------

  /** The spacing of binary32 values around an integer of this magnitude. */
  function Ulp(m: nat): nat {
    if m < P24 then 1
    else if m < 2 * P24 then 2
    else if m < 4 * P24 then 4
    else if m < 8 * P24 then 8
    else if m < 16 * P24 then 16
    else if m < 32 * P24 then 32
    else if m < 64 * P24 then 64
    else if m < 128 * P24 then 128
    else 256
  }

  function Abs(v: int): nat {
    if v < 0 then -v else v
  }

  /** Exactly representable: a multiple of the spacing around it. */
  predicate Representable(v: int) {
    Abs(v) % Ulp(Abs(v)) == 0
  }

  function RoundMagnitude(m: nat): nat {
    var u := Ulp(m);
    var q, r := m / u, m % u;
    if 2 * r > u || (2 * r == u && q % 2 == 1) then (q + 1) * u else q * u
  }

  /** `v as f32`. */
  function ToBinary32(v: int): int {
    if v < 0 then -(RoundMagnitude(-v) as int) else RoundMagnitude(v)
  }

  predicate Spacing(u: nat) {
    u == 1 || u == 2 || u == 4 || u == 8 || u == 16 || u == 32 || u == 64 || u == 128
  }

  lemma UlpIs(x: nat, u: nat)
    requires Spacing(u) && x < u * P24 && (u > 1 ==> u * P23 <= x)
    ensures Ulp(x) == u
  {
  }

  lemma UlpBrackets(m: nat)
    requires m < P31
    ensures Spacing(Ulp(m)) && m < Ulp(m) * P24 && (Ulp(m) > 1 ==> Ulp(m) * P23 <= m)
  {
  }

  lemma QuotientInBinade(m: nat, u: nat)
    requires m < P31 && u == Ulp(m)
    ensures m / u < P24 && (u > 1 ==> P23 <= m / u)
  {
    UlpBrackets(m);
    assert m == m / u * u + m % u && (m / u + 1) * u == m / u * u + u;
    Cancels(m / u, P24, u);
    if u > 1 { Cancels(P23, m / u + 1, u); }
  }

  /** A multiple of a spacing with at most 24 significant bits is representable:
      at the top of a binade it is the power of two above. */
  lemma MultipleIsRepresentable(q: nat, u: nat)
    requires Spacing(u) && q <= P24 && (u > 1 ==> P23 <= q)
    ensures q * u <= P31 && q * u % Ulp(q * u) == 0
  {
    Grows(q, P24, u);
    if q < P24 {
      Grows(q + 1, P24, u);
      assert (q + 1) * u == q * u + u;
      if u > 1 { Grows(P23, q, u); }
      UlpIs(q * u, u);
      MultipleHasNoRemainder(q, u);
    }
  }

  lemma RoundsToNearest(m: nat)
    requires m <= P31
    ensures var r := RoundMagnitude(m);
      && 2 * Abs(r - m) <= Ulp(m) && r % Ulp(r) == 0 && r <= P31
      && (r == m <==> m % Ulp(m) == 0)
  {
    if m < P31 {
      var u := Ulp(m);
      assert m == m / u * u + m % u;
      assert (m / u + 1) * u == m / u * u + u;
      UlpBrackets(m);
      QuotientInBinade(m, u);
      MultipleIsRepresentable(m / u, u);
      MultipleIsRepresentable(m / u + 1, u);
    }
  }

  /** A tie goes to the even neighbour. */
  lemma TiesGoToEven(m: nat)
    requires m <= P31 && 2 * (m % Ulp(m)) == Ulp(m)
    ensures RoundMagnitude(m) / Ulp(m) % 2 == 0
  {
    var u := Ulp(m);
    MultipleHasNoRemainder(m / u, u);
    MultipleHasNoRemainder(m / u + 1, u);
  }

  /** Of either sign, the conversion is within half a spacing. */
  lemma ToBinary32IsNear(v: int)
    requires -P31 <= v < P31
    ensures 2 * Abs(ToBinary32(v) - v) <= Ulp(Abs(v))
    ensures (v > 0 ==> ToBinary32(v) >= 0) && (v < 0 ==> ToBinary32(v) <= 0)
  {
    RoundsToNearest(Abs(v));
  }

  lemma ToBinary32Facts(v: int)
    requires -P31 <= v < P31
    ensures -P31 <= ToBinary32(v) <= P31 && Representable(ToBinary32(v))
    ensures ToBinary32(v) == v <==> Representable(v)
    ensures Representable(v) ==> ToBinary32(v) == v
    ensures v == P31 - 1 ==> ToBinary32(v) == P31
    ensures ToBinary32(ToBinary32(v)) == ToBinary32(v)
  {
    RoundsToNearest(Abs(v));
    RoundsToNearest(RoundMagnitude(Abs(v)));
  }

  // -------------------------------------------------------------------------
  // Samples
  // -------------------------------------------------------------------------

  /** What reaches the quantiser: in the unit range, silence for what is no number. */
  function ClampUnit(s: Float): real {
    match s
    case NaN => 0.0
    case PosInf => 1.0
    case NegInf => -1.0
    case Num(r) => if r > 1.0 then 1.0 else if r < -1.0 then -1.0 else r
  }

  /** Float-to-int casts truncate toward zero. */
  function Truncate(x: real): int {
    if x >= 0.0 then x.Floor else -(-x).Floor
  }

  function Saturate32(v: int): int {
    if v >= P31 then P31 - 1 else if v < -P31 then -P31 else v
  }

  function Ceiling(x: real, top: int): real {
    if x > top as real then top as real else x
  }

  function Quantise(f: Format, x: real): int {
    match f
    case I32 => Saturate32(Truncate(x * P31 as real))
    case I24In32 => var v := Saturate32(Truncate(x * P31 as real)); v - v % 256
    case I24 => Truncate(Ceiling(x * P23 as real, P23 - 1))
    case I16 => Truncate(Ceiling(x * P15 as real, P15 - 1))
  }

  function Value(f: Format, v: int): real {
    match f
    case I32 | I24In32 => ToBinary32(v) as real / P31 as real
    case I24 => v as real / P23 as real
    case I16 => v as real / P15 as real
  }

  function Encode(f: Format, s: Float): (raw: seq<Byte>)
    ensures |raw| == Bytes(f)
  {
    QuantiseInRange(f, ClampUnit(s));
    Pack(f, Quantise(f, ClampUnit(s)))
  }

  function Decode(f: Format, raw: seq<Byte>): real
    requires |raw| == Bytes(f)
  {
    Value(f, Unpack(f, raw))
  }

  lemma QuantiseInRange(f: Format, x: real)
    requires -1.0 <= x <= 1.0
    ensures -Half(f) <= Quantise(f, x) < Half(f)
    ensures f == I24In32 ==> Quantise(f, x) % 256 == 0
  {
    Scaled(x, P31);
    Scaled(x, P23);
    Scaled(x, P15);
  }

  lemma ValueInUnit(f: Format, v: int)
    requires -Half(f) <= v < Half(f)
    ensures -1.0 <= Value(f, v) <= 1.0
  {
    if f == I32 || f == I24In32 { ToBinary32Facts(v); }
  }

  /** Quantising truncates: the magnitude is the whole part of the scaled magnitude,
      but for positive full scale, which is one short; the 24-in-32 layout then clears
      its low byte, downwards. */
  lemma QuantiseTruncates(f: Format, x: real)
    requires -1.0 <= x <= 1.0 && f != I24In32
    ensures x >= 0.0 ==> var y := x * Half(f) as real;
      Quantise(f, x) == if y > (Half(f) - 1) as real then Half(f) - 1 else y.Floor
    ensures x < 0.0 ==> Quantise(f, x) == -((-(x * Half(f) as real)).Floor)
  {
    Scaled(x, Half(f));
  }

  lemma JustifiedTruncates(x: real)
    requires -1.0 <= x <= 1.0
    ensures Quantise(I24In32, x) == Quantise(I32, x) / 256 * 256
  {
    var v := Quantise(I32, x);
    assert v == v / 256 * 256 + v % 256;
  }

  /** What is no number is silence, and what is out of range is full scale. */
  lemma OutOfRangeSamples(f: Format, r: real)
    ensures Encode(f, NaN) == Encode(f, Num(0.0)) && Quantise(f, 0.0) == 0
    ensures Encode(f, PosInf) == Encode(f, Num(1.0)) && Encode(f, NegInf) == Encode(f, Num(-1.0))
    ensures r > 1.0 ==> Encode(f, Num(r)) == Encode(f, Num(1.0))
    ensures r < -1.0 ==> Encode(f, Num(r)) == Encode(f, Num(-1.0))
    ensures Quantise(f, 1.0) == (if f == I24In32 then Half(f) - 256 else Half(f) - 1)
    ensures Quantise(f, -1.0) == -Half(f)
  {
  }

  // -------------------------------------------------------------------------
  // Bytes there and back
  // -------------------------------------------------------------------------

  lemma TruncateInteger(n: int, p: int)
    requires p > 0
    ensures Truncate(n as real / p as real * p as real) == n
  {
    assert n as real / p as real * p as real == n as real;
  }

  /** Exactly which integers survive decode and encode. Every 16-bit and packed
      24-bit one does; a 24-in-32 one exactly when its low byte is clear; a 32-bit one
      does exactly when binary32 can hold it, or when it is i32::MAX, which rounds
      up to full scale and saturates back. */
  lemma QuantiseOfValue(f: Format, v: int)
    requires -Half(f) <= v < Half(f)
    ensures f == I16 || f == I24 ==> Quantise(f, Value(f, v)) == v
    ensures f == I24In32 ==> (Quantise(f, Value(f, v)) == v <==> v % 256 == 0)
    ensures f == I32 ==> (Quantise(f, Value(f, v)) == v <==> Representable(v) || v == P31 - 1)
  {
    match f
    case I16 => TruncateInteger(v, P15);
    case I24 => TruncateInteger(v, P23);
    case I32 => QuantiseOfWideValue(v);
    case I24In32 => QuantiseOfJustifiedValue(v);
  }

  lemma QuantiseOfQuotient(n: int)
    requires -P31 <= n <= P31
    ensures Quantise(I32, n as real / P31 as real) == Saturate32(n)
    ensures Quantise(I24In32, n as real / P31 as real) % 256 == 0
    ensures n < P31 && n % 256 == 0 ==> Quantise(I24In32, n as real / P31 as real) == n
  {
    TruncateInteger(n, P31);
  }

  lemma QuantiseOfWideValue(v: int)
    requires -P31 <= v < P31
    ensures Quantise(I32, Value(I32, v)) == Saturate32(ToBinary32(v))
    ensures Quantise(I32, Value(I32, v)) == v <==> Representable(v) || v == P31 - 1
  {
    ToBinary32Facts(v);
    QuantiseOfQuotient(ToBinary32(v));
  }

  lemma QuantiseOfJustifiedValue(v: int)
    requires -P31 <= v < P31
    ensures Quantise(I24In32, Value(I24In32, v)) == v <==> v % 256 == 0
  {
    ToBinary32Facts(v);
    var n := ToBinary32(v);
    assert Value(I24In32, v) == n as real / P31 as real;
    QuantiseOfQuotient(n);
    if v % 256 == 0 {
      ClearLowByteIsRepresentable(v);
      assert n == v;
    }
  }

  lemma ClearLowByteIsRepresentable(v: int)
    requires -P31 <= v < P31 && v % 256 == 0
    ensures Representable(v)
  {
    var m := Abs(v);
    var u, k := Ulp(m), m / 256;
    assert m == 256 * k;
    if u == 256 {
    } else if u == 128 { MultipleHasNoRemainder(2 * k, 128);
    } else if u == 64 { MultipleHasNoRemainder(4 * k, 64);
    } else if u == 32 { MultipleHasNoRemainder(8 * k, 32);
    } else if u == 16 { MultipleHasNoRemainder(16 * k, 16);
    } else if u == 8 { MultipleHasNoRemainder(32 * k, 8);
    } else if u == 4 { MultipleHasNoRemainder(64 * k, 4);
    } else if u == 2 { MultipleHasNoRemainder(128 * k, 2);
    }
  }

  lemma PackIsInjective(f: Format, v: int, w: int)
    requires -Half(f) <= v < Half(f) && -Half(f) <= w < Half(f)
    ensures Pack(f, v) == Pack(f, w) <==> v == w
  {
    UnpackOfPack(f, v);
    UnpackOfPack(f, w);
  }

  lemma LowByte(raw: seq<Byte>)
    requires |raw| == 4
    ensures FromLe4(raw) % 256 == raw[0] as int
  {
    Peel(raw[0], raw[1] as int + 256 * (raw[2] as int + 256 * raw[3] as int));
  }

  /** Through a sample and back is through the integer it stands for. */
  lemma EncodeOfValue(f: Format, v: int)
    requires -Half(f) <= v < Half(f)
    ensures -Half(f) <= Quantise(f, Value(f, v)) < Half(f)
    ensures Encode(f, Num(Value(f, v))) == Pack(f, Quantise(f, Value(f, v)))
  {
    ValueInUnit(f, v);
    QuantiseInRange(f, Value(f, v));
  }

  /** encode(decode(b)) == b: for every 16-bit and packed 24-bit sample, for a 24-in-32
      word exactly when its low byte is clear, and for a 32-bit word exactly when
      binary32 can hold it or it is i32::MAX. */
  lemma EncodeOfDecode(f: Format, raw: seq<Byte>)
    requires |raw| == Bytes(f)
    ensures f == I16 || f == I24 ==> Encode(f, Num(Decode(f, raw))) == raw
    ensures f == I24In32 ==> (Encode(f, Num(Decode(f, raw))) == raw <==> raw[0] == 0)
    ensures f == I32 ==>
      (Encode(f, Num(Decode(f, raw))) == raw <==> Representable(Unpack(f, raw)) || Unpack(f, raw) == P31 - 1)
  {
    var v := Unpack(f, raw);
    PackOfUnpack(f, raw);
    EncodeOfValue(f, v);
    PackIsInjective(f, v, Quantise(f, Value(f, v)));
    QuantiseOfValue(f, v);
    if f == I24In32 { LowByte(raw); }
  }

  /** A word decode and encode do not give back: 2^24 + 1 is an odd integer that
      binary32 has no room for. */
  lemma LostWord()
    ensures var raw: seq<Byte> := [1, 0, 0, 1];
      Unpack(I32, raw) == P24 + 1 && Encode(I32, Num(Decode(I32, raw))) != raw
  {
    var raw: seq<Byte> := [1, 0, 0, 1];
    assert Unpack(I32, raw) == P24 + 1;
    assert Ulp(P24 + 1) == 2;
    EncodeOfDecode(I32, raw);
  }

  // -------------------------------------------------------------------------
  // Samples there and back
  // -------------------------------------------------------------------------

  /** A binary32 sample in the unit range, scaled by 2^31: below 2^24 it is
      anything, from there on an integer with 24 significant bits. */
  predicate ScalesLikeBinary32(x: real) {
    var y := x * P31 as real;
    (y >= P24 as real || y <= -(P24 as real)) ==> y == y.Floor as real && Representable(y.Floor)
  }

  function Pow2(k: nat): nat {
    if k == 0 then 1 else 2 * Pow2(k - 1)
  }

  predicate IsWhole(x: real, m: int, k: nat) {
    x * P31 as real == (m * Pow2(k)) as real
  }

  predicate IsFraction(x: real, m: int, k: nat) {
    x * P31 as real * Pow2(k) as real == m as real
  }

  /** x * 2^31 is m * 2^k or m / 2^k, for a significand m of at most 24 bits. */
  predicate HasSignificand(x: real, m: int, k: nat) {
    Abs(m) < P24 && (IsWhole(x, m, k) || IsFraction(x, m, k))
  }

  /** Every finite binary32 is one of these, subnormals included. */
  ghost predicate IsBinary32(x: real) {
    exists m, k :: HasSignificand(x, m, k)
  }

  lemma {:induction false} Pow2Divides(k: nat, j: nat)
    requires j <= k
    ensures Pow2(k) >= Pow2(j) > 0 && Pow2(k) % Pow2(j) == 0
    decreases k
  {
    if j == k {
      Pow2Positive(k);
      MultipleHasNoRemainder(1, Pow2(k));
    } else {
      Pow2Divides(k - 1, j);
      var q := Pow2(k - 1) / Pow2(j);
      assert Pow2(k) == 2 * q * Pow2(j);
      MultipleHasNoRemainder(2 * q, Pow2(j));
    }
  }

  lemma {:induction false} Pow2Positive(k: nat)
    ensures Pow2(k) > 0
  {
    if k > 0 { Pow2Positive(k - 1); }
  }

  lemma SpacingIsPow2(u: nat) returns (j: nat)
    requires Spacing(u)
    ensures u == Pow2(j)
  {
    assert Pow2(1) == 2 && Pow2(2) == 4 && Pow2(3) == 8;
    assert Pow2(4) == 16 && Pow2(5) == 32;
    assert Pow2(6) == 64 && Pow2(7) == 128;
    j := if u == 1 then 0 else if u == 2 then 1 else if u == 4 then 2 else if u == 8 then 3
         else if u == 16 then 4 else if u == 32 then 5 else if u == 64 then 6 else 7;
  }

  lemma FallsShort(n: nat, k: nat, j: nat)
    requires n < P24 && k < j
    ensures n * Pow2(k) < Pow2(j) * P23
  {
    Pow2Divides(j - 1, k);
    Grows(n, P24 - 1, Pow2(k));
    Grows(Pow2(k), Pow2(j - 1), P24 - 1);
  }

  /** A power of two that brings 24 bits into a binade is a multiple of its spacing. */
  lemma ReachesSpacing(n: nat, k: nat, u: nat)
    requires Spacing(u) && n < P24 && u * P23 <= n * Pow2(k)
    ensures Pow2(k) % u == 0
  {
    var j := SpacingIsPow2(u);
    if k < j {
      FallsShort(n, k, j);
      assert false;
    } else {
      Pow2Divides(k, j);
    }
  }

  lemma StaysMultiple(n: nat, p: nat, u: nat)
    requires u > 0 && p % u == 0
    ensures n * p % u == 0
  {
    var q := p / u;
    assert p == q * u;
    assert n * p == n * q * u;
    MultipleHasNoRemainder(n * q, u);
  }

  lemma SignificandIsRepresentable(n: nat, k: nat)
    requires n < P24 && n * Pow2(k) <= P31
    ensures var v := n * Pow2(k); v % Ulp(v) == 0
  {
    var v := n * Pow2(k);
    if P24 <= v < P31 {
      UlpBrackets(v);
      var u := Ulp(v);
      ReachesSpacing(n, k, u);
      StaysMultiple(n, Pow2(k), u);
    }
  }

  lemma IntegerScales(x: real, v: int)
    requires x * P31 as real == v as real && Representable(v)
    ensures ScalesLikeBinary32(x)
  {
    assert (v as real).Floor == v;
  }

  lemma AbsTimes(m: int, p: nat)
    ensures Abs(m * p) == Abs(m) * p
  {
    if m < 0 { assert m * p == -(Abs(m) * p); }
    Grows(0, Abs(m), p);
  }

  lemma WholeIsBounded(x: real, w: int)
    requires -1.0 <= x <= 1.0 && x * P31 as real == w as real
    ensures Abs(w) <= P31
  {
  }

  lemma WholeScales(x: real, m: int, k: nat)
    requires -1.0 <= x <= 1.0 && Abs(m) < P24 && IsWhole(x, m, k)
    ensures ScalesLikeBinary32(x)
  {
    WholeIsBounded(x, m * Pow2(k));
    AbsTimes(m, Pow2(k));
    SignificandIsRepresentable(Abs(m), k);
    IntegerScales(x, m * Pow2(k));
  }

  lemma FractionScales(x: real, m: int, k: nat)
    requires Abs(m) < P24 && IsFraction(x, m, k)
    ensures ScalesLikeBinary32(x)
  {
    Pow2Positive(k);
    ShrinksUnder(x * P31 as real, Pow2(k) as real, m as real);
  }

  lemma Binary32Scales(x: real)
    requires -1.0 <= x <= 1.0 && IsBinary32(x)
    ensures ScalesLikeBinary32(x)
  {
    var m, k :| HasSignificand(x, m, k);
    if IsWhole(x, m, k) {
      WholeScales(x, m, k);
    } else {
      FractionScales(x, m, k);
    }
  }

  lemma ShrinksUnder(y: real, p: real, m: real)
    requires p >= 1.0 && y * p == m
    ensures -(if m < 0.0 then -m else m) <= y <= if m < 0.0 then -m else m
  {
    if y >= 0.0 { assert y * (p - 1.0) >= 0.0; } else { assert (0.0 - y) * (p - 1.0) >= 0.0; }
  }

  /** One quantisation step of a format, as a fraction of full scale. */
  function StepsPerUnit(f: Format): int {
    match f
    case I32 => P31
    case I24In32 | I24 => P23
    case I16 => P15
  }

  predicate WithinOneStep(f: Format, d: real, x: real) {
    -1.0 <= (d - x) * StepsPerUnit(f) as real <= 1.0
  }

  lemma TruncateIsClose(y: real)
    ensures y - 1.0 < Truncate(y) as real < y + 1.0
    ensures y == y.Floor as real ==> Truncate(y) == y.Floor
    ensures y >= 0.0 ==> 0.0 <= Truncate(y) as real <= y
    ensures y <= 0.0 ==> y <= Truncate(y) as real <= 0.0
  {
    if y < 0.0 && y == y.Floor as real {
      assert (-y).Floor == -y.Floor;
    }
  }

  /** What a binary32 sample encodes to is exactly decodable. */
  lemma QuantisedIsRepresentable(x: real)
    requires -1.0 <= x <= 1.0 && ScalesLikeBinary32(x)
    ensures Quantise(I32, x) == P31 - 1 || Representable(Quantise(I32, x))
  {
    var y := x * P31 as real;
    TruncateIsClose(y);
    if -(P24 as real) < y < P24 as real {
      assert -P24 <= Truncate(y) <= P24;
    }
  }

  lemma Scaled(x: real, p: int)
    requires -1.0 <= x <= 1.0 && p > 0
    ensures -(p as real) <= x * p as real <= p as real
  {
    var q := p as real;
    assert (1.0 - x) * q >= 0.0 && (1.0 + x) * q >= 0.0;
  }

  lemma Rescaled(n: int, x: real, p: int)
    requires p > 0
    ensures (n as real / p as real - x) * p as real == n as real - x * p as real
  {
    var q := p as real;
    var t := n as real / q;
    assert t * q == n as real;
    assert (t - x) * q == t * q - x * q;
  }

  /** Truncation below the positive ceiling, in units of the step. */
  lemma NarrowIsClose(x: real, p: int)
    requires -1.0 <= x <= 1.0 && p > 0
    ensures var v := Truncate(Ceiling(x * p as real, p - 1));
      -1.0 <= (v as real / p as real - x) * p as real <= 1.0
  {
    var y := x * p as real;
    Scaled(x, p);
    TruncateIsClose(Ceiling(y, p - 1));
    Rescaled(Truncate(Ceiling(y, p - 1)), x, p);
  }

  lemma SixteenIsClose(x: real)
    requires -1.0 <= x <= 1.0
    ensures WithinOneStep(I16, Value(I16, Quantise(I16, x)), x)
  {
    NarrowIsClose(x, P15);
  }

  lemma PackedIsClose(x: real)
    requires -1.0 <= x <= 1.0
    ensures WithinOneStep(I24, Value(I24, Quantise(I24, x)), x)
  {
    NarrowIsClose(x, P23);
  }

  /** A 32-bit word decodes to within k units of the scaled sample. */
  predicate WordIsNear(v: int, x: real, k: int) {
    -(k as real) <= ToBinary32(v) as real - x * P31 as real <= k as real
  }

  lemma Shrunk(n: int, x: real, k: int)
    requires -(k as real) <= n as real - x * P31 as real <= k as real
    ensures k == 1 ==> -1.0 <= (n as real / P31 as real - x) * P31 as real <= 1.0
    ensures k == 256 ==> -1.0 <= (n as real / P31 as real - x) * P23 as real <= 1.0
  {
    Rescaled(n, x, P31);
  }

  lemma NearWordIsClose(f: Format, v: int, x: real)
    requires (f == I32 && WordIsNear(v, x, 1)) || (f == I24In32 && WordIsNear(v, x, 256))
    ensures WithinOneStep(f, Value(f, v), x)
  {
    Shrunk(ToBinary32(v), x, if f == I32 then 1 else 256);
  }

  /** The 32-bit word as decoded, against the scaled sample it came from. */
  lemma WideWord(x: real)
    requires -1.0 <= x <= 1.0 && ScalesLikeBinary32(x)
    ensures WordIsNear(Quantise(I32, x), x, 1)
  {
    var y := x * P31 as real;
    var v := Quantise(I32, x);
    Scaled(x, P31);
    TruncateIsClose(y);
    QuantiseInRange(I32, x);
    QuantisedIsRepresentable(x);
    ToBinary32Facts(v);
  }

  lemma WideIsClose(x: real)
    requires -1.0 <= x <= 1.0 && ScalesLikeBinary32(x)
    ensures WithinOneStep(I32, Value(I32, Quantise(I32, x)), x)
  {
    WideWord(x);
    NearWordIsClose(I32, Quantise(I32, x), x);
  }

  lemma JustifiedWord(x: real)
    requires -1.0 <= x <= 1.0
    ensures WordIsNear(Quantise(I24In32, x), x, 256)
  {
    var v := Quantise(I24In32, x);
    Scaled(x, P31);
    TruncateIsClose(x * P31 as real);
    QuantiseInRange(I24In32, x);
    ClearLowByteIsRepresentable(v);
    ToBinary32Facts(v);
  }

  lemma JustifiedIsClose(x: real)
    requires -1.0 <= x <= 1.0
    ensures WithinOneStep(I24In32, Value(I24In32, Quantise(I24In32, x)), x)
  {
    JustifiedWord(x);
    NearWordIsClose(I24In32, Quantise(I24In32, x), x);
  }

  lemma QuantisedIsClose(f: Format, x: real)
    requires -1.0 <= x <= 1.0 && (f == I32 ==> ScalesLikeBinary32(x))
    ensures WithinOneStep(f, Value(f, Quantise(f, x)), x)
  {
    match f
    case I16 => SixteenIsClose(x);
    case I24 => PackedIsClose(x);
    case I32 => WideIsClose(x);
    case I24In32 => JustifiedIsClose(x);
  }

  lemma DecodeOfEncode(f: Format, s: Float)
    ensures Decode(f, Encode(f, s)) == Value(f, Quantise(f, ClampUnit(s)))
  {
    QuantiseInRange(f, ClampUnit(s));
    UnpackOfPack(f, Quantise(f, ClampUnit(s)));
  }

  lemma ClampedScales(s: Float)
    requires s.Num? ==> IsBinary32(s.r)
    ensures ScalesLikeBinary32(ClampUnit(s))
  {
    if s.Num? && -1.0 <= s.r <= 1.0 {
      Binary32Scales(s.r);
    } else if ClampUnit(s) == 1.0 {
      IntegerScales(1.0, P31);
    } else if ClampUnit(s) == -1.0 {
      IntegerScales(-1.0, -P31);
    } else {
      IntegerScales(0.0, 0);
    }
  }

  /** decode(encode(s)) is within one quantisation step of the clamped sample, for
      every format and every sample a binary32 can be, non-finite ones included. */
  lemma DecodeOfEncodeIsClose(f: Format, s: Float)
    requires s.Num? ==> IsBinary32(s.r)
    ensures WithinOneStep(f, Decode(f, Encode(f, s)), ClampUnit(s))
  {
    DecodeOfEncode(f, s);
    ClampedScales(s);
    QuantisedIsClose(f, ClampUnit(s));
  }

  lemma RequantisedIsSame(f: Format, x: real)
    requires -1.0 <= x <= 1.0
    ensures var d := Value(f, Quantise(f, x)); Value(f, Quantise(f, d)) == d
  {
    var v := Quantise(f, x);
    QuantiseInRange(f, x);
    QuantiseOfValue(f, v);
    if f == I32 {
      ToBinary32Facts(v);
      ToBinary32Facts(P31 - 1);
      QuantiseOfWideValue(v);
    }
  }

  /** And it is a projection: a second trip changes nothing. */
  lemma DecodeOfEncodeIsProjection(f: Format, s: Float)
    ensures var d := Decode(f, Encode(f, s)); Decode(f, Encode(f, Num(d))) == d
  {
    var x := ClampUnit(s);
    DecodeOfEncode(f, s);
    QuantiseInRange(f, x);
    ValueInUnit(f, Quantise(f, x));
    DecodeOfEncode(f, Num(Value(f, Quantise(f, x))));
    RequantisedIsSame(f, x);
  }
}
