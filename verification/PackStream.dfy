/**
 * PackStream: how values are written (packer.go) and read back (unpacker.go), byte for byte.
 */
module PackStream {
  import opened Bytes

  const TWO32: nat := 0x1_0000_0000
  const TWO64: nat := 0x1_0000_0000_0000_0000

  // ---------------------------------------------------------------------------------------------
  // Writing
  // ---------------------------------------------------------------------------------------------

  predicate IsInt64(i: int)
  {
    -0x8000_0000_0000_0000 <= i < 0x8000_0000_0000_0000
  }

  /** The two's complement of `i` in `width` bytes. */
  function TwosComplement(i: int, width: nat): (b: seq<Byte>)
    ensures |b| == width
  {
    BigEndian(i % Pow256(width), width)
  }

  function IntBytes(i: int): (b: seq<Byte>)
  {
    if -0x10 <= i < 0x80 then [i % 0x100]
    else if -0x80 <= i < -0x10 then [0xc8, i % 0x100]
    else if -0x8000 <= i < 0x8000 then [0xc9] + TwosComplement(i, 2)
    else if -0x8000_0000 <= i < 0x8000_0000 then [0xca] + TwosComplement(i, 4)
    else [0xcb] + TwosComplement(i, 8)
  }

  /** The header of a string, a list or a map; nothing at all if the length does not fit. */
  function Header(l: nat, short: Byte, long: Byte): (b: seq<Byte>)
    requires short <= 0xf0 && long <= 0xfd
  {
    if l < 0x10 then [short + l]
    else if l < 0x100 then [long, l]
    else if l < 0x1_0000 then [long + 1] + BigEndian(l, 2)
    else if l < TWO32 - 1 then [long + 2] + BigEndian(l, 4)
    else []
  }

  function BytesHeader(l: nat): (b: seq<Byte>)
  {
    if l < 0x100 then [0xcc, l]
    else if l < 0x1_0000 then [0xcd] + BigEndian(l, 2)
    else if l < TWO32 then [0xce] + BigEndian(l, 4)
    else []
  }

  function FloatBytes(bits: nat): seq<Byte>
  {
    [0xc1] + BigEndian(bits, 8)
  }

  function StringBytes(s: seq<Byte>): seq<Byte>
  {
    Header(|s|, 0x80, 0xd0) + s
  }

  function ByteArrayBytes(s: seq<Byte>): seq<Byte>
  {
    BytesHeader(|s|) + s
  }

  // ---------------------------------------------------------------------------------------------
  // Reading
  // ---------------------------------------------------------------------------------------------

  datatype Type = Undef | IntT | FloatT | StrT | StructT | ByteArrayT | ArrayT | MapT | NilT | TrueT | FalseT | UuidT

  datatype Marker = Marker(typ: Type, shortlen: int, numlenbytes: nat)

  /** What each of the 256 marker bytes means. */
  function MarkerOf(b: Byte): (m: Marker)
    ensures -0x10 <= m.shortlen < 0x80 && m.numlenbytes in {0, 1, 2, 4, 8}
  {
    if b < 0x80 then Marker(IntT, b, 0)
    else if b < 0x90 then Marker(StrT, b - 0x80, 0)
    else if b < 0xa0 then Marker(ArrayT, b - 0x90, 0)
    else if b < 0xb0 then Marker(MapT, b - 0xa0, 0)
    else if b < 0xc0 then Marker(StructT, b - 0xb0, 0)
    else if b >= 0xf0 then Marker(IntT, b - 0x100, 0)
    else match b
      case 0xc0 => Marker(NilT, 0, 0)
      case 0xc1 => Marker(FloatT, 0, 8)
      case 0xc2 => Marker(FalseT, 0, 0)
      case 0xc3 => Marker(TrueT, 0, 0)
      case 0xc8 => Marker(IntT, 0, 1)
      case 0xc9 => Marker(IntT, 0, 2)
      case 0xca => Marker(IntT, 0, 4)
      case 0xcb => Marker(IntT, 0, 8)
      case 0xcc => Marker(ByteArrayT, 0, 1)
      case 0xcd => Marker(ByteArrayT, 0, 2)
      case 0xce => Marker(ByteArrayT, 0, 4)
      case 0xd0 => Marker(StrT, 0, 1)
      case 0xd1 => Marker(StrT, 0, 2)
      case 0xd2 => Marker(StrT, 0, 4)
      case 0xd4 => Marker(ArrayT, 0, 1)
      case 0xd5 => Marker(ArrayT, 0, 2)
      case 0xd6 => Marker(ArrayT, 0, 4)
      case 0xd8 => Marker(MapT, 0, 1)
      case 0xd9 => Marker(MapT, 0, 2)
      case 0xda => Marker(MapT, 0, 4)
      case 0xe0 => Marker(UuidT, 0, 0)
      case _ => Marker(Undef, 0, 0)
  }

  /** Where reading has got to: what is left, whether something failed, and the marker read last. */
  datatype Cursor = Cursor(rest: seq<Byte>, err: bool, mrk: Marker)

  function Start(buf: seq<Byte>): Cursor
  {
    Cursor(buf, false, Marker(Undef, 0, 0))
  }

  function Failed(c: Cursor): Cursor
  {
    c.(err := true)
  }

  function Skip(c: Cursor, n: nat): Cursor
    requires n <= |c.rest|
  {
    c.(rest := c.rest[n..])
  }

  /** The next byte, or zero if there is none. */
  function Pop(c: Cursor): (r: (Byte, Cursor))
    ensures |r.1.rest| <= |c.rest| && (|r.1.rest| == |c.rest| ==> r.0 == 0) && r.1.mrk == c.mrk
    ensures r.1.err <==> c.err || c.rest == []
  {
    if c.rest != [] then (c.rest[0], Skip(c, 1)) else (0, Failed(c))
  }

  function Next(c: Cursor): (r: Cursor)
    ensures |r.rest| <= |c.rest| && (|r.rest| == |c.rest| ==> r.mrk == MarkerOf(0) && r.err) && (c.err ==> r.err)
  {
    var (b, d) := Pop(c);
    d.(mrk := MarkerOf(b))
  }

  function Read(c: Cursor, n: nat): (r: (seq<Byte>, Cursor))
    ensures |r.1.rest| <= |c.rest| && r.1.mrk == c.mrk && (c.err ==> r.1.err)
    ensures !r.1.err ==> |r.0| == n
  {
    if n > |c.rest| then ([], Failed(c)) else (c.rest[..n], Skip(c, n))
  }

  function ReadLen(c: Cursor, n: nat): (r: (nat, Cursor))
    ensures r.0 < TWO32 && |r.1.rest| <= |c.rest| && r.1.mrk == c.mrk && (c.err ==> r.1.err)
  {
    Pow256Values();
    if n > |c.rest| then (0, Failed(c))
    else if n == 1 || n == 2 || n == 4 then
      FromBigEndianBound(c.rest[..n]);
      (FromBigEndian(c.rest[..n]), Skip(c, n))
    else (0, Failed(Skip(c, n)))
  }

  /** A short length as a uint32: the negative ones of the tiny integers wrap around. */
  function ShortLen(m: Marker): (n: nat)
    requires -0x10 <= m.shortlen < 0x80
    ensures n < TWO32
  {
    if m.shortlen < 0 then m.shortlen + TWO32 else m.shortlen
  }

  predicate GoodMarker(c: Cursor)
  {
    -0x10 <= c.mrk.shortlen < 0x80
  }

  function Len(c: Cursor): (r: (nat, Cursor))
    requires GoodMarker(c)
    ensures r.0 < TWO32 && |r.1.rest| <= |c.rest| && r.1.mrk == c.mrk && (c.err ==> r.1.err)
  {
    if c.mrk.numlenbytes == 0 then (ShortLen(c.mrk), c) else ReadLen(c, c.mrk.numlenbytes)
  }

  /** The signed number that `width` bytes stand for. */
  function Signed(b: seq<Byte>): int
  {
    var n := FromBigEndian(b);
    if b != [] && b[0] >= 0x80 then n - Pow256(|b|) else n
  }

  function Int(c: Cursor): (r: (int, Cursor))
    ensures |r.1.rest| <= |c.rest| && r.1.mrk == c.mrk && (c.err ==> r.1.err)
  {
    var n := c.mrk.numlenbytes;
    if n == 0 then (c.mrk.shortlen, c)
    else if n > |c.rest| then (0, Failed(c))
    else if n == 1 || n == 2 || n == 4 || n == 8 then (Signed(c.rest[..n]), Skip(c, n))
    else (0, Failed(c))
  }

  const NAN := 0x7ff8_0000_0000_0001

  /** The bits of a 64-bit float. */
  function Float(c: Cursor): (r: (nat, Cursor))
    ensures |r.1.rest| <= |c.rest| && r.1.mrk == c.mrk && (c.err ==> r.1.err)
  {
    var (b, d) := Read(c, 8);
    (if d.err then NAN else FromBigEndian(b), d)
  }

  function Str(c: Cursor): (r: (seq<Byte>, Cursor))
    requires GoodMarker(c)
    ensures |r.1.rest| <= |c.rest| && r.1.mrk == c.mrk && (c.err ==> r.1.err)
  {
    var (n, d) := Len(c);
    Read(d, n)
  }

  function ByteArray(c: Cursor): (r: (seq<Byte>, Cursor))
    requires GoodMarker(c)
    ensures |r.1.rest| <= |c.rest| && r.1.mrk == c.mrk && (c.err ==> r.1.err)
  {
    var (n, d) := Len(c);
    Read(d, n)
  }

  const ZERO_UUID: seq<Byte> := [0, 0, 0, 0, 0, 0, 0, 0, 0, 0, 0, 0, 0, 0, 0, 0]

  function Uuid(c: Cursor): (r: (seq<Byte>, Cursor))
    ensures |r.0| == 16 && |r.1.rest| <= |c.rest| && r.1.mrk == c.mrk && (c.err ==> r.1.err)
  {
    if |c.rest| < 16 then (ZERO_UUID, Failed(c)) else (c.rest[..16], Skip(c, 16))
  }

  function Bool(c: Cursor): (r: (bool, Cursor))
    ensures r.1.rest == c.rest && r.1.mrk == c.mrk && (c.err ==> r.1.err)
  {
    if c.mrk.typ.TrueT? then (true, c) else if c.mrk.typ.FalseT? then (false, c) else (false, Failed(c))
  }

  // ---------------------------------------------------------------------------------------------
  // What was written is what is read
  // ---------------------------------------------------------------------------------------------

  /** Sign extension at every width. */
  lemma {:induction false} SignedRoundTrip(i: int, width: nat)
    requires width >= 1 && -(Pow256(width) / 2) <= i < Pow256(width) / 2
    ensures Signed(TwosComplement(i, width)) == i
  {
    var p := Pow256(width);
    var k := Pow256(width - 1);
    assert p == 0x100 * k && p / 2 == 0x80 * k;
    var n: nat := if i < 0 then i + p else i;
    ModOnce(i, p);
    BigEndianRoundTrip(n, width);
    TopByte(n, width);
    HalfTop(n, k);
  }

  lemma {:induction false} ModOnce(i: int, p: nat)
    requires p > 0 && 0 <= i + p && i < p
    ensures i % p == if i < 0 then i + p else i
  {
    if i < 0 {
      assert i % p == (i + p) % p by { ModAdd(i, p); }
    }
  }

  lemma {:induction false} ModAdd(i: int, p: nat)
    requires p > 0
    ensures (i + p) % p == i % p
  {
    var q := i / p;
    assert i == q * p + i % p;
    assert i + p == (q + 1) * p + i % p;
    ModUnique(i + p, p, q + 1, i % p);
  }

  lemma {:induction false} ModUnique(n: int, d: nat, q: int, r: nat)
    requires d > 0 && n == q * d + r && r < d
    ensures n / d == q && n % d == r
  {
    var q', r' := n / d, n % d;
    assert n == q' * d + r';
    var e := q - q';
    assert e * d == r' - r by { assert e * d == q * d - q' * d; }
    MulAtLeast(e, d);
    MulAtLeast(-e, d);
  }

  lemma {:induction false} MulAtLeast(e: int, d: nat)
    ensures e >= 1 ==> e * d >= d
  {
    if e < 1 { return; }
    assert e * d == (e - 1) * d + d;
    assert (e - 1) * d >= 0;
  }

  /** The top byte's top bit is set just in the upper half. */
  lemma {:induction false} HalfTop(n: nat, k: nat)
    requires k > 0
    ensures n / k >= 0x80 <==> n >= 0x80 * k
  {
    var q, r := n / k, n % k;
    assert n == q * k + r;
    if q >= 0x80 { assert q * k == (q - 0x80) * k + 0x80 * k; } else { assert (0x7f - q) * k == 0x7f * k - q * k; }
  }

  lemma {:induction false} TopByte(n: nat, width: nat)
    requires width >= 1 && n < Pow256(width)
    ensures BigEndian(n, width)[0] == n / Pow256(width - 1)
    decreases width
  {
    if width == 1 {
      assert BigEndian(n, 1) == BigEndian(n / 0x100, 0) + [n % 0x100];
      assert Pow256(1) == 0x100 * Pow256(0) && Pow256(0) == 1;
    } else {
      assert Pow256(width) == 0x100 * Pow256(width - 1);
      TopByte(n / 0x100, width - 1);
      assert BigEndian(n, width)[0] == BigEndian(n / 0x100, width - 1)[0];
      DivDiv(n, Pow256(width - 2));
    }
  }

  lemma {:induction false} DivDiv(n: nat, k: nat)
    requires k > 0
    ensures n / 0x100 / k == n / (0x100 * k)
  {
    var q := n / 0x100 / k;
    var r := n / 0x100 % k;
    assert n / 0x100 == q * k + r;
    assert n == 0x100 * (q * k + r) + n % 0x100;
    assert n == q * (0x100 * k) + (0x100 * r + n % 0x100);
    ModUnique(n, 0x100 * k, q, 0x100 * r + n % 0x100);
  }

  // --- scalars ---------------------------------------------------------------------------------

  lemma {:induction false} Popped(b: Byte, tail: seq<Byte>, m: Marker)
    ensures Next(Cursor([b] + tail, false, m)) == Cursor(tail, false, MarkerOf(b))
  {
    assert ([b] + tail)[1..] == tail;
  }

  lemma {:induction false} Taken(a: seq<Byte>, tail: seq<Byte>)
    ensures (a + tail)[..|a|] == a && (a + tail)[|a|..] == tail
  {
  }

  /** Reading an integer right after its marker. */
  lemma {:induction false} IntAfterMarker(i: int, w: nat, tail: seq<Byte>)
    requires (w == 1 || w == 2 || w == 4 || w == 8) && -(Pow256(w) / 2) <= i < Pow256(w) / 2
    ensures Int(Cursor(TwosComplement(i, w) + tail, false, Marker(IntT, 0, w))) == (i, Cursor(tail, false, Marker(IntT, 0, w)))
  {
    Taken(TwosComplement(i, w), tail);
    SignedRoundTrip(i, w);
  }

  lemma {:induction false} Assoc(a: seq<Byte>, b: seq<Byte>, c: seq<Byte>)
    ensures (a + b) + c == a + (b + c)
  {
  }

  lemma {:induction false} OneByte(i: int)
    requires -0x80 <= i < 0x80
    ensures TwosComplement(i, 1) == [i % 0x100]
  {
    Pow256Values();
    assert BigEndian(i % 0x100, 1) == BigEndian(i % 0x100 / 0x100, 0) + [i % 0x100 % 0x100];
  }

  /** Every int64, at the width chosen for it, is read back with its sign and nothing more is read. */
  lemma {:induction false} IntRoundTrip(i: int, tail: seq<Byte>, m: Marker)
    requires IsInt64(i)
    ensures var c := Next(Cursor(IntBytes(i) + tail, false, m));
            c.mrk.typ.IntT? && Int(c) == (i, Cursor(tail, false, c.mrk))
  {
    Pow256Values();
    if -0x10 <= i < 0x80 {
      Popped(i % 0x100, tail, m);
    } else if -0x80 <= i < -0x10 {
      OneByte(i);
      IntWide(i, 0xc8, 1, tail, m);
    } else if -0x8000 <= i < 0x8000 {
      IntWide(i, 0xc9, 2, tail, m);
    } else if -0x8000_0000 <= i < 0x8000_0000 {
      IntWide(i, 0xca, 4, tail, m);
    } else {
      IntWide(i, 0xcb, 8, tail, m);
    }
  }

  lemma {:induction false} IntWide(i: int, b: Byte, w: nat, tail: seq<Byte>, m: Marker)
    requires (w == 1 || w == 2 || w == 4 || w == 8) && -(Pow256(w) / 2) <= i < Pow256(w) / 2
    requires MarkerOf(b) == Marker(IntT, 0, w)
    ensures var c := Next(Cursor(([b] + TwosComplement(i, w)) + tail, false, m));
            c.mrk == MarkerOf(b) && Int(c) == (i, Cursor(tail, false, c.mrk))
  {
    Assoc([b], TwosComplement(i, w), tail);
    Popped(b, TwosComplement(i, w) + tail, m);
    IntAfterMarker(i, w, tail);
  }

  lemma {:induction false} FloatRoundTrip(bits: nat, tail: seq<Byte>, m: Marker)
    requires bits < TWO64
    ensures var c := Next(Cursor(FloatBytes(bits) + tail, false, m));
            c.mrk.typ.FloatT? && Float(c) == (bits, Cursor(tail, false, c.mrk))
  {
    Pow256Values();
    Assoc([0xc1], BigEndian(bits, 8), tail);
    Popped(0xc1, BigEndian(bits, 8) + tail, m);
    Taken(BigEndian(bits, 8), tail);
    BigEndianRoundTrip(bits, 8);
  }

  // --- headers ---------------------------------------------------------------------------------

  lemma {:induction false} LenAfterMarker(l: nat, w: nat, mrk: Marker, tail: seq<Byte>)
    requires (w == 1 || w == 2 || w == 4) && l < Pow256(w) && mrk.numlenbytes == w && -0x10 <= mrk.shortlen < 0x80
    ensures Len(Cursor(BigEndian(l, w) + tail, false, mrk)) == (l, Cursor(tail, false, mrk))
  {
    Taken(BigEndian(l, w), tail);
    BigEndianRoundTrip(l, w);
  }

  lemma {:induction false} LenWide(l: nat, b: Byte, w: nat, tail: seq<Byte>, m: Marker)
    requires (w == 1 || w == 2 || w == 4) && l < Pow256(w) && MarkerOf(b).numlenbytes == w
    ensures var c := Next(Cursor(([b] + BigEndian(l, w)) + tail, false, m));
            c.mrk == MarkerOf(b) && Len(c) == (l, Cursor(tail, false, c.mrk))
  {
    Assoc([b], BigEndian(l, w), tail);
    Popped(b, BigEndian(l, w) + tail, m);
    LenAfterMarker(l, w, MarkerOf(b), tail);
  }

  lemma {:induction false} OneByteLen(l: nat)
    requires l < 0x100
    ensures BigEndian(l, 1) == [l]
  {
    assert BigEndian(l, 1) == BigEndian(l / 0x100, 0) + [l % 0x100];
  }

  /** The markers from which strings, lists and maps count. */
  predicate HeaderOf(short: Byte, long: Byte, typ: Type)
  {
    || (short == 0x80 && long == 0xd0 && typ == StrT)
    || (short == 0x90 && long == 0xd4 && typ == ArrayT)
    || (short == 0xa0 && long == 0xd8 && typ == MapT)
  }

  lemma {:induction false} ShortHeader(l: nat, short: Byte, long: Byte, typ: Type, tail: seq<Byte>, m: Marker)
    requires l < 0x10 && HeaderOf(short, long, typ)
    ensures var c := Next(Cursor([short + l] + tail, false, m));
            c.mrk.typ == typ && Len(c) == (l, Cursor(tail, false, c.mrk))
  {
    Popped(short + l, tail, m);
    assert MarkerOf(short + l) == Marker(typ, l, 0);
  }

  lemma {:induction false} WideMarkers(short: Byte, long: Byte, typ: Type)
    requires HeaderOf(short, long, typ)
    ensures long <= 0xfd && MarkerOf(long) == Marker(typ, 0, 1) && MarkerOf(long + 1) == Marker(typ, 0, 2) && MarkerOf(long + 2) == Marker(typ, 0, 4)
  {
  }

  lemma {:induction false} HeaderRoundTrip(l: nat, short: Byte, long: Byte, typ: Type, tail: seq<Byte>, m: Marker)
    requires l < TWO32 - 1 && HeaderOf(short, long, typ)
    ensures var c := Next(Cursor(Header(l, short, long) + tail, false, m));
            c.mrk.typ == typ && Len(c) == (l, Cursor(tail, false, c.mrk))
  {
    Pow256Values();
    WideMarkers(short, long, typ);
    if l < 0x10 {
      ShortHeader(l, short, long, typ, tail, m);
    } else if l < 0x100 {
      OneByteLen(l);
      LenWide(l, long, 1, tail, m);
    } else if l < 0x1_0000 {
      LenWide(l, long + 1, 2, tail, m);
    } else {
      LenWide(l, long + 2, 4, tail, m);
    }
  }

  lemma {:induction false} BytesHeaderRoundTrip(l: nat, tail: seq<Byte>, m: Marker)
    requires l < TWO32
    ensures var c := Next(Cursor(BytesHeader(l) + tail, false, m));
            c.mrk.typ == ByteArrayT && Len(c) == (l, Cursor(tail, false, c.mrk))
  {
    Pow256Values();
    if l < 0x100 {
      OneByteLen(l);
      LenWide(l, 0xcc, 1, tail, m);
    } else if l < 0x1_0000 {
      LenWide(l, 0xcd, 2, tail, m);
    } else {
      LenWide(l, 0xce, 4, tail, m);
    }
  }

  lemma {:induction false} StringRoundTrip(s: seq<Byte>, tail: seq<Byte>, m: Marker)
    requires |s| < TWO32 - 1
    ensures var c := Next(Cursor(StringBytes(s) + tail, false, m));
            c.mrk.typ == StrT && Str(c) == (s, Cursor(tail, false, c.mrk))
  {
    Assoc(Header(|s|, 0x80, 0xd0), s, tail);
    HeaderRoundTrip(|s|, 0x80, 0xd0, StrT, s + tail, m);
    Taken(s, tail);
  }

  lemma {:induction false} ByteArrayRoundTrip(s: seq<Byte>, tail: seq<Byte>, m: Marker)
    requires |s| < TWO32
    ensures var c := Next(Cursor(ByteArrayBytes(s) + tail, false, m));
            c.mrk.typ == ByteArrayT && ByteArray(c) == (s, Cursor(tail, false, c.mrk))
  {
    Assoc(BytesHeader(|s|), s, tail);
    BytesHeaderRoundTrip(|s|, s + tail, m);
    Taken(s, tail);
  }

  // ---------------------------------------------------------------------------------------------
  // Nested values
  // ---------------------------------------------------------------------------------------------

  /** Strings are their UTF-8 bytes and floats their 64 bits; a map is listed in the order it is written. */
  datatype Value =
    | Nil
    | BoolV(b: bool)
    | IntV(i: int)
    | FloatV(bits: nat)
    | StrV(s: seq<Byte>)
    | BytesV(s: seq<Byte>)
    | UuidV(u: seq<Byte>)
    | ListV(items: seq<Value>)
    | MapV(entries: seq<Entry>)
    | StructV(tag: Byte, fields: seq<Value>)

  datatype Entry = Entry(key: seq<Byte>, value: Value)

  /** Within what the headers can say. */
  predicate Packable(v: Value)
  {
    match v
    case Nil => true
    case BoolV(_) => true
    case IntV(i) => IsInt64(i)
    case FloatV(bits) => bits < TWO64
    case StrV(s) => |s| < TWO32 - 1
    case BytesV(s) => |s| < TWO32
    case UuidV(u) => |u| == 16
    case ListV(items) => |items| < TWO32 - 1 && forall i :: 0 <= i < |items| ==> Packable(items[i])
    case MapV(entries) =>
      |entries| < TWO32 - 1 && forall i :: 0 <= i < |entries| ==> |entries[i].key| < TWO32 - 1 && Packable(entries[i].value)
    case StructV(_, fields) => |fields| <= 0xf && forall i :: 0 <= i < |fields| ==> Packable(fields[i])
  }

  function Pack(v: Value): seq<Byte>
    requires Packable(v)
  {
    match v
    case Nil => [0xc0]
    case BoolV(b) => [if b then 0xc3 else 0xc2]
    case IntV(i) => IntBytes(i)
    case FloatV(bits) => FloatBytes(bits)
    case StrV(s) => StringBytes(s)
    case BytesV(s) => ByteArrayBytes(s)
    case UuidV(u) => [0xe0] + u
    case ListV(items) => Header(|items|, 0x90, 0xd4) + PackAll(items)
    case MapV(entries) => Header(|entries|, 0xa0, 0xd8) + PackEntries(entries)
    case StructV(tag, fields) => [0xb0 + |fields|, tag] + PackAll(fields)
  }

  function PackAll(vs: seq<Value>): seq<Byte>
    requires forall i :: 0 <= i < |vs| ==> Packable(vs[i])
  {
    if vs == [] then [] else Pack(vs[0]) + PackAll(vs[1..])
  }

  function PackEntries(es: seq<Entry>): seq<Byte>
    requires forall i :: 0 <= i < |es| ==> |es[i].key| < TWO32 - 1 && Packable(es[i].value)
  {
    if es == [] then [] else StringBytes(es[0].key) + (Pack(es[0].value) + PackEntries(es[1..]))
  }

  predicate Container(t: Type)
  {
    t.ArrayT? || t.MapT? || t.StructT?
  }

  /**
   * The value whose marker was just read. After an error the reader goes on with the markers of
   * zero bytes, which are tiny integers, so it ends even on the longest header.
   */
  function ReadValue(c: Cursor): (r: (Value, Cursor))
    requires GoodMarker(c)
    ensures |r.1.rest| <= |c.rest| && (c.err ==> r.1.err)
    decreases |c.rest|, if Container(c.mrk.typ) then 2 * TWO32 else 0
  {
    match c.mrk.typ
    case NilT => (Nil, c)
    case TrueT => (BoolV(true), c)
    case FalseT => (BoolV(false), c)
    case IntT => var (i, d) := Int(c); (IntV(i), d)
    case FloatT => var (f, d) := Float(c); (FloatV(f), d)
    case StrT => var (s, d) := Str(c); (StrV(s), d)
    case ByteArrayT => var (s, d) := ByteArray(c); (BytesV(s), d)
    case UuidT => var (u, d) := Uuid(c); (UuidV(u), d)
    case ArrayT => var (n, d) := Len(c); var (vs, e) := ReadAll(d, n); (ListV(vs), e)
    case MapT => var (n, d) := Len(c); var (es, e) := ReadEntries(d, n); (MapV(es), e)
    case StructT =>
      var (tag, d) := Pop(c);
      var (n, e) := Len(d);
      var (vs, f) := ReadAll(e, n);
      (StructV(tag, vs), f)
    case Undef => (Nil, Failed(c))
  }

  function ReadAll(c: Cursor, n: nat): (r: (seq<Value>, Cursor))
    ensures |r.1.rest| <= |c.rest| && (c.err ==> r.1.err)
    decreases |c.rest|, n
  {
    if n == 0 then ([], c) else
    var (v, d) := ReadValue(Next(c));
    var (vs, e) := ReadAll(d, n - 1);
    ([v] + vs, e)
  }

  /** A key and its value. */
  function ReadEntry(c: Cursor): (r: (Entry, Cursor))
    ensures |r.1.rest| <= |c.rest| && (c.err ==> r.1.err)
    decreases |c.rest|, 1
  {
    var (k, d) := Str(Next(c));
    var (v, e) := ReadValue(Next(d));
    (Entry(k, v), e)
  }

  function ReadEntries(c: Cursor, n: nat): (r: (seq<Entry>, Cursor))
    ensures |r.1.rest| <= |c.rest| && (c.err ==> r.1.err)
    decreases |c.rest|, n + 1
  {
    if n == 0 then ([], c) else
    var (e, d) := ReadEntry(c);
    var (es, f) := ReadEntries(d, n - 1);
    ([e] + es, f)
  }

  /** Reading succeeded with value `v` and has read exactly as far as `tail`. */
  predicate Reads(r: (Value, Cursor), v: Value, tail: seq<Byte>)
  {
    r.0 == v && r.1.rest == tail && !r.1.err
  }

  /** Unpacking what was packed gives the value back and stops exactly at its end, whatever follows. */
  lemma {:induction false} PackRoundTrip(v: Value, tail: seq<Byte>, m: Marker)
    requires Packable(v)
    ensures Reads(ReadValue(Next(Cursor(Pack(v) + tail, false, m))), v, tail)
    decreases v, 3, 0
  {
    match v
    case Nil => Popped(0xc0, tail, m);
    case BoolV(b) => Popped(if b then 0xc3 else 0xc2, tail, m);
    case IntV(i) => IntRoundTrip(i, tail, m);
    case FloatV(bits) => FloatRoundTrip(bits, tail, m);
    case StrV(s) => StringRoundTrip(s, tail, m);
    case BytesV(s) => ByteArrayRoundTrip(s, tail, m);
    case UuidV(u) => UuidRoundTrip(u, tail, m);
    case ListV(items) => ListRoundTrip(v, tail, m);
    case MapV(entries) => MapRoundTrip(v, tail, m);
    case StructV(tag, fields) => StructRoundTrip(v, tail, m);
  }

  lemma {:induction false} UuidRoundTrip(u: seq<Byte>, tail: seq<Byte>, m: Marker)
    requires |u| == 16
    ensures var c := Next(Cursor(([0xe0] + u) + tail, false, m));
            c.mrk.typ == UuidT && Uuid(c) == (u, Cursor(tail, false, c.mrk))
  {
    Assoc([0xe0], u, tail);
    Popped(0xe0, u + tail, m);
    Taken(u, tail);
  }

  lemma {:induction false} ListRoundTrip(v: Value, tail: seq<Byte>, m: Marker)
    requires v.ListV? && Packable(v)
    ensures Reads(ReadValue(Next(Cursor(Pack(v) + tail, false, m))), v, tail)
    decreases v, 2, 0
  {
    var h := Header(|v.items|, 0x90, 0xd4);
    var body := PackAll(v.items);
    Assoc(h, body, tail);
    HeaderRoundTrip(|v.items|, 0x90, 0xd4, ArrayT, body + tail, m);
    AllRoundTrip(v, v.items, tail, Next(Cursor(h + (body + tail), false, m)).mrk);
  }

  /** A structure's marker, its tag and its number of fields. */
  lemma {:induction false} StructStart(tag: Byte, n: nat, tail: seq<Byte>, m: Marker)
    requires n <= 0xf
    ensures var c := Next(Cursor([0xb0 + n, tag] + tail, false, m));
            && c.mrk == Marker(StructT, n, 0) && Pop(c) == (tag, Cursor(tail, false, c.mrk))
            && Len(Pop(c).1) == (n, Cursor(tail, false, c.mrk))
  {
    assert [0xb0 + n, tag] + tail == [0xb0 + n] + ([tag] + tail);
    Popped(0xb0 + n, [tag] + tail, m);
    assert ([tag] + tail)[1..] == tail;
  }

  lemma {:induction false} StructRoundTrip(v: Value, tail: seq<Byte>, m: Marker)
    requires v.StructV? && Packable(v)
    ensures Reads(ReadValue(Next(Cursor(Pack(v) + tail, false, m))), v, tail)
    decreases v, 2, 0
  {
    var body := PackAll(v.fields);
    Assoc([0xb0 + |v.fields|, v.tag], body, tail);
    StructStart(v.tag, |v.fields|, body + tail, m);
    AllRoundTrip(v, v.fields, tail, Marker(StructT, |v.fields|, 0));
  }

  lemma {:induction false} MapRoundTrip(v: Value, tail: seq<Byte>, m: Marker)
    requires v.MapV? && Packable(v)
    ensures Reads(ReadValue(Next(Cursor(Pack(v) + tail, false, m))), v, tail)
    decreases v, 2, 0
  {
    var h := Header(|v.entries|, 0xa0, 0xd8);
    var body := PackEntries(v.entries);
    Assoc(h, body, tail);
    HeaderRoundTrip(|v.entries|, 0xa0, 0xd8, MapT, body + tail, m);
    EntriesRoundTrip(v, v.entries, tail, Next(Cursor(h + (body + tail), false, m)).mrk);
  }

  lemma {:induction false} AllRoundTrip(parent: Value, vs: seq<Value>, tail: seq<Byte>, m: Marker)
    requires forall i :: 0 <= i < |vs| ==> Packable(vs[i]) && vs[i] < parent
    ensures var r := ReadAll(Cursor(PackAll(vs) + tail, false, m), |vs|);
            r.0 == vs && r.1.rest == tail && !r.1.err
    decreases parent, 1, |vs|
  {
    if vs == [] {
      assert PackAll(vs) + tail == tail;
    } else {
      var first, more := Pack(vs[0]), PackAll(vs[1..]);
      Assoc(first, more, tail);
      PackRoundTrip(vs[0], more + tail, m);
      var c := ReadValue(Next(Cursor(first + (more + tail), false, m))).1;
      AllRoundTrip(parent, vs[1..], tail, c.mrk);
      assert c == Cursor(more + tail, false, c.mrk);
    }
  }

  lemma {:induction false} EntriesRoundTrip(parent: Value, es: seq<Entry>, tail: seq<Byte>, m: Marker)
    requires forall i :: 0 <= i < |es| ==> |es[i].key| < TWO32 - 1 && Packable(es[i].value) && es[i].value < parent
    ensures var r := ReadEntries(Cursor(PackEntries(es) + tail, false, m), |es|);
            r.0 == es && r.1.rest == tail && !r.1.err
    decreases parent, 1, |es|
  {
    if es == [] {
      assert PackEntries(es) + tail == tail;
    } else {
      var key, first, more := StringBytes(es[0].key), Pack(es[0].value), PackEntries(es[1..]);
      Assoc(key, first + more, tail);
      Assoc(first, more, tail);
      EntryRoundTrip(es[0], more + tail, m);
      var c := ReadEntry(Cursor(key + (first + (more + tail)), false, m)).1;
      EntriesRoundTrip(parent, es[1..], tail, c.mrk);
      assert c == Cursor(more + tail, false, c.mrk);
    }
  }

  lemma {:induction false} EntryRoundTrip(e: Entry, tail: seq<Byte>, m: Marker)
    requires |e.key| < TWO32 - 1 && Packable(e.value)
    ensures var r := ReadEntry(Cursor(StringBytes(e.key) + (Pack(e.value) + tail), false, m));
            r.0 == e && r.1.rest == tail && !r.1.err
    decreases e.value, 4
  {
    StringRoundTrip(e.key, Pack(e.value) + tail, m);
    var d := Str(Next(Cursor(StringBytes(e.key) + (Pack(e.value) + tail), false, m))).1;
    PackRoundTrip(e.value, tail, d.mrk);
  }

  // ---------------------------------------------------------------------------------------------
  // Less than the whole
  // ---------------------------------------------------------------------------------------------

  /** What an unpacker sees of a buffer: as much of it as its length says in 32 bits. */
  function Visible(buf: seq<Byte>): (seen: seq<Byte>)
    ensures |buf| < TWO32 ==> seen == buf
    ensures |buf| >= TWO32 ==> |seen| < |buf| && seen == buf[..|seen|]
  {
    VisibleLength(|buf|);
    buf[..|buf| % TWO32]
  }

  lemma {:induction false} VisibleLength(n: nat)
    ensures n % TWO32 <= n && (n < TWO32 ==> n % TWO32 == n) && (n >= TWO32 ==> n % TWO32 < n)
  {
  }

  /** No 32-bit offset wraps around on it, whatever its bytes: the widest field is eight of them. */
  predicate NoWrap(buf: seq<Byte>)
  {
    |buf| % TWO32 + 8 < TWO32
  }

  /** The same place with more behind it. */
  function Plus(c: Cursor, q: seq<Byte>): Cursor
  {
    c.(rest := c.rest + q)
  }

  lemma {:induction false} SkipMore(c: Cursor, n: nat, q: seq<Byte>)
    requires n <= |c.rest|
    ensures Skip(Plus(c, q), n) == Plus(Skip(c, n), q) && (c.rest + q)[..n] == c.rest[..n]
  {
    assert (c.rest + q)[n..] == c.rest[n..] + q;
  }

  lemma {:induction false} PopMore(c: Cursor, q: seq<Byte>)
    requires !Pop(c).1.err
    ensures Pop(Plus(c, q)) == (Pop(c).0, Plus(Pop(c).1, q))
  {
    SkipMore(c, 1, q);
  }

  lemma {:induction false} NextMore(c: Cursor, q: seq<Byte>)
    requires !Next(c).err
    ensures Next(Plus(c, q)) == Plus(Next(c), q)
  {
    PopMore(c, q);
  }

  lemma {:induction false} ReadMore(c: Cursor, n: nat, q: seq<Byte>)
    requires !Read(c, n).1.err
    ensures Read(Plus(c, q), n) == (Read(c, n).0, Plus(Read(c, n).1, q))
  {
    SkipMore(c, n, q);
  }

  lemma {:induction false} LenMore(c: Cursor, q: seq<Byte>)
    requires GoodMarker(c) && !Len(c).1.err
    ensures Len(Plus(c, q)) == (Len(c).0, Plus(Len(c).1, q))
  {
    if c.mrk.numlenbytes != 0 { SkipMore(c, c.mrk.numlenbytes, q); }
  }

  lemma {:induction false} IntMore(c: Cursor, q: seq<Byte>)
    requires !Int(c).1.err
    ensures Int(Plus(c, q)) == (Int(c).0, Plus(Int(c).1, q))
  {
    if c.mrk.numlenbytes != 0 { SkipMore(c, c.mrk.numlenbytes, q); }
  }

  lemma {:induction false} FloatMore(c: Cursor, q: seq<Byte>)
    requires !Float(c).1.err
    ensures Float(Plus(c, q)) == (Float(c).0, Plus(Float(c).1, q))
  {
    ReadMore(c, 8, q);
  }

  lemma {:induction false} StrMore(c: Cursor, q: seq<Byte>)
    requires GoodMarker(c) && !Str(c).1.err
    ensures Str(Plus(c, q)) == (Str(c).0, Plus(Str(c).1, q))
    ensures ByteArray(Plus(c, q)) == (ByteArray(c).0, Plus(ByteArray(c).1, q))
  {
    LenMore(c, q);
    ReadMore(Len(c).1, Len(c).0, q);
  }

  lemma {:induction false} UuidMore(c: Cursor, q: seq<Byte>)
    requires !Uuid(c).1.err
    ensures Uuid(Plus(c, q)) == (Uuid(c).0, Plus(Uuid(c).1, q))
  {
    SkipMore(c, 16, q);
  }

  /** What is read without running out is read the same whatever more there is. */
  lemma {:induction false} ReadValueMore(c: Cursor, q: seq<Byte>)
    requires GoodMarker(c) && !ReadValue(c).1.err
    ensures ReadValue(Plus(c, q)) == (ReadValue(c).0, Plus(ReadValue(c).1, q))
    decreases |c.rest|, if Container(c.mrk.typ) then 2 * TWO32 else 0
  {
    match c.mrk.typ {
      case IntT => IntMore(c, q);
      case FloatT => FloatMore(c, q);
      case StrT => StrMore(c, q);
      case ByteArrayT => StrMore(c, q);
      case UuidT => UuidMore(c, q);
      case ArrayT => LenMore(c, q); ReadAllMore(Len(c).1, Len(c).0, q);
      case MapT => LenMore(c, q); ReadEntriesMore(Len(c).1, Len(c).0, q);
      case StructT =>
        PopMore(c, q);
        LenMore(Pop(c).1, q);
        ReadAllMore(Len(Pop(c).1).1, Len(Pop(c).1).0, q);
      case _ =>
    }
  }

  lemma {:induction false} ReadAllMore(c: Cursor, n: nat, q: seq<Byte>)
    requires !ReadAll(c, n).1.err
    ensures ReadAll(Plus(c, q), n) == (ReadAll(c, n).0, Plus(ReadAll(c, n).1, q))
    decreases |c.rest|, n
  {
    if n > 0 {
      NextMore(c, q);
      ReadValueMore(Next(c), q);
      ReadAllMore(ReadValue(Next(c)).1, n - 1, q);
    }
  }

  lemma {:induction false} ReadEntryMore(c: Cursor, q: seq<Byte>)
    requires !ReadEntry(c).1.err
    ensures ReadEntry(Plus(c, q)) == (ReadEntry(c).0, Plus(ReadEntry(c).1, q))
    decreases |c.rest|, 1
  {
    NextMore(c, q);
    StrMore(Next(c), q);
    var d := Str(Next(c)).1;
    NextMore(d, q);
    ReadValueMore(Next(d), q);
  }

  lemma {:induction false} ReadEntriesMore(c: Cursor, n: nat, q: seq<Byte>)
    requires !ReadEntries(c, n).1.err
    ensures ReadEntries(Plus(c, q), n) == (ReadEntries(c, n).0, Plus(ReadEntries(c, n).1, q))
    decreases |c.rest|, n + 1
  {
    if n > 0 {
      ReadEntryMore(c, q);
      ReadEntriesMore(ReadEntry(c).1, n - 1, q);
    }
  }

  /** No proper beginning of a packed value is read without running out. */
  lemma {:induction false} ProperPrefixRunsOut(v: Value, k: nat, m: Marker)
    requires Packable(v) && k < |Pack(v)|
    ensures ReadValue(Next(Cursor(Pack(v)[..k], false, m))).1.err
  {
    var c := Cursor(Pack(v)[..k], false, m);
    var q := Pack(v)[k..];
    assert Pack(v)[..k] + q == Pack(v) == Pack(v) + [];
    PackRoundTrip(v, [], m);
    if !ReadValue(Next(c)).1.err {
      NextMore(c, q);
      ReadValueMore(Next(c), q);
    }
  }
}
