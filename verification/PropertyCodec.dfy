/**
 * Decoding property values (decode.go), and what it has to do with encoding them: every accepted
 * value comes back, under the table it was written with and under every later one.
 */
module PropertyCodec {
  import opened Bytes
  import opened PackStream
  import opened PropertyScheme

  // ---------------------------------------------------------------------------------------------
  // The decoder
  // ---------------------------------------------------------------------------------------------

  datatype Err = Unsupported | Malformed

  /** The unpacker and the decoder's own first error. */
  datatype Dec = Dec(c: Cursor, err: Option<Err>)

  /** The table and the version recorded with the value: what a definition must be no newer than. */
  datatype Scheme = Scheme(table: Table, recorded: Version)

  function Fail(d: Dec, e: Err): (r: Dec)
    ensures r.err.Some? && r.c == d.c
  {
    if d.err.None? then d.(err := Some(e)) else d
  }

  predicate Known(s: Scheme, t: PType)
  {
    t in s.table && AtLeast(s.recorded, s.table[t])
  }

  function FieldInt(d: Dec): (r: (int, Dec))
    ensures |r.1.c.rest| <= |d.c.rest| && (d.err.Some? ==> r.1.err == d.err) && (d.c.err ==> r.1.c.err)
  {
    var c := Next(d.c);
    if !c.mrk.typ.IntT? then (0, Fail(d.(c := c), Malformed)) else
    var (i, e) := Int(c);
    (i, d.(c := e))
  }

  function FieldFloat(d: Dec): (r: (nat, Dec))
    ensures |r.1.c.rest| <= |d.c.rest| && (d.err.Some? ==> r.1.err == d.err) && (d.c.err ==> r.1.c.err)
  {
    var c := Next(d.c);
    if !c.mrk.typ.FloatT? then (0, Fail(d.(c := c), Malformed)) else
    var (f, e) := Float(c);
    (f, d.(c := e))
  }

  function FieldStr(d: Dec): (r: (seq<Byte>, Dec))
    ensures |r.1.c.rest| <= |d.c.rest| && (d.err.Some? ==> r.1.err == d.err) && (d.c.err ==> r.1.c.err)
  {
    var c := Next(d.c);
    if !c.mrk.typ.StrT? then ([], Fail(d.(c := c), Malformed)) else
    var (s, e) := Str(c);
    (s, d.(c := e))
  }

  function FieldBytes(d: Dec): (r: (seq<Byte>, Dec))
    ensures |r.1.c.rest| <= |d.c.rest| && (d.err.Some? ==> r.1.err == d.err) && (d.c.err ==> r.1.c.err)
  {
    var c := Next(d.c);
    if !c.mrk.typ.ByteArrayT? then ([], Fail(d.(c := c), Malformed)) else
    var (s, e) := ByteArray(c);
    (s, d.(c := e))
  }

  /** The value, unless a field was not what it should be. */
  function Unless(d: Dec, x: Property): (Option<Property>, Dec)
  {
    if d.err.Some? then (None, d) else (Some(x), d)
  }

  function DateFields(d: Dec): (r: (Option<Property>, Dec))
    ensures |r.1.c.rest| <= |d.c.rest| && (d.c.err ==> r.1.c.err) && (r.0.None? ==> r.1.err.Some?)
  {
    var (days, e) := FieldInt(d);
    Unless(e, PDate(days * SECONDS_PER_DAY))
  }

  function ZonedTimeFields(d: Dec): (r: (Option<Property>, Dec))
    ensures |r.1.c.rest| <= |d.c.rest| && (d.c.err ==> r.1.c.err) && (r.0.None? ==> r.1.err.Some?)
  {
    var (n, e) := FieldInt(d);
    var (o, f) := FieldInt(e);
    Unless(f, PZonedTime(n % NANOS_PER_DAY, o))
  }

  function LocalTimeFields(d: Dec): (r: (Option<Property>, Dec))
    ensures |r.1.c.rest| <= |d.c.rest| && (d.c.err ==> r.1.c.err) && (r.0.None? ==> r.1.err.Some?)
  {
    var (n, e) := FieldInt(d);
    Unless(e, PLocalTime(n % NANOS_PER_DAY))
  }

  function LocalDateTimeFields(d: Dec): (r: (Option<Property>, Dec))
    ensures |r.1.c.rest| <= |d.c.rest| && (d.c.err ==> r.1.c.err) && (r.0.None? ==> r.1.err.Some?)
  {
    var (s, e) := FieldInt(d);
    var (n, f) := FieldInt(e);
    Unless(f, PLocalDateTime(s + n / NANOS_PER_SECOND, n % NANOS_PER_SECOND))
  }

  function ZonedDateTimeFields(d: Dec): (r: (Option<Property>, Dec))
    ensures |r.1.c.rest| <= |d.c.rest| && (d.c.err ==> r.1.c.err) && (r.0.None? ==> r.1.err.Some?)
  {
    var (s, e) := FieldInt(d);
    var (n, f) := FieldInt(e);
    var (o, g) := FieldInt(f);
    Unless(g, PZonedDateTime(s + n / NANOS_PER_SECOND, n % NANOS_PER_SECOND, o))
  }

  function DurationFields(d: Dec): (r: (Option<Property>, Dec))
    ensures |r.1.c.rest| <= |d.c.rest| && (d.c.err ==> r.1.c.err) && (r.0.None? ==> r.1.err.Some?)
  {
    var (m, e) := FieldInt(d);
    var (y, f) := FieldInt(e);
    var (s, g) := FieldInt(f);
    var (n, h) := FieldInt(g);
    Unless(h, PDuration(m, y, s, n))
  }

  function Point2DFields(d: Dec): (r: (Option<Property>, Dec))
    ensures |r.1.c.rest| <= |d.c.rest| && (d.c.err ==> r.1.c.err) && (r.0.None? ==> r.1.err.Some?)
  {
    var (r, e) := FieldInt(d);
    var (x, f) := FieldFloat(e);
    var (y, g) := FieldFloat(f);
    Unless(g, PPoint2D(r % TWO32, x, y))
  }

  function Point3DFields(d: Dec): (r: (Option<Property>, Dec))
    ensures |r.1.c.rest| <= |d.c.rest| && (d.c.err ==> r.1.c.err) && (r.0.None? ==> r.1.err.Some?)
  {
    var (r, e) := FieldInt(d);
    var (x, f) := FieldFloat(e);
    var (y, g) := FieldFloat(f);
    var (z, h) := FieldFloat(g);
    Unless(h, PPoint3D(r % TWO32, x, y, z))
  }

  function KindFor(b: Byte): Option<VectorKind>
  {
    match b
    case 0xc1 => Some(F64) case 0xc6 => Some(F32) case 0xc8 => Some(I8)
    case 0xc9 => Some(I16) case 0xca => Some(I32) case 0xcb => Some(I64)
    case _ => None
  }

  function Element(k: VectorKind, b: seq<Byte>): int
  {
    if IsFloat(k) then FromBigEndian(b) else Signed(b)
  }

  function Elements(k: VectorKind, b: seq<Byte>): seq<int>
    requires |b| % KindWidth(k) == 0
    decreases |b|
  {
    if b == [] then [] else
    WidthDivides(|b|, KindWidth(k));
    [Element(k, b[..KindWidth(k)])] + Elements(k, b[KindWidth(k)..])
  }

  lemma {:induction false} WidthDivides(n: nat, w: nat)
    requires w > 0 && n > 0 && n % w == 0
    ensures n >= w && (n - w) % w == 0
  {
    ModAdd(n - w, w);
  }

  function VectorFields(d: Dec): (r: (Option<Property>, Dec))
    ensures |r.1.c.rest| <= |d.c.rest| && (d.c.err ==> r.1.c.err) && (r.0.None? ==> r.1.err.Some?)
  {
    var (marker, e) := FieldBytes(d);
    var (data, f) := FieldBytes(e);
    if f.err.Some? then (None, f)
    else if |marker| != 1 then (None, Fail(f, Malformed))
    else match KindFor(marker[0])
      case None => (None, Fail(f, Unsupported))
      case Some(k) =>
        if |data| % KindWidth(k) != 0 then (None, Fail(f, Malformed)) else (Some(PVector(k, Elements(k, data))), f)
  }

  /** Which type a structure's tag stands for, and how many fields it must have. */
  function TagType(tag: Byte): Option<(PType, nat)>
  {
    match tag
    case 0x44 => Some((TDate, 1))
    case 0x54 => Some((TZonedTime, 2))
    case 0x74 => Some((TLocalTime, 1))
    case 0x64 => Some((TLocalDateTime, 2))
    case 0x49 => Some((TZonedDateTime, 3))
    case 0x45 => Some((TDuration, 4))
    case 0x58 => Some((TPoint, 3))
    case 0x59 => Some((TPoint, 4))
    case 0x56 => Some((TVector, 2))
    case _ => None
  }

  function Fields(tag: Byte, d: Dec): (r: (Option<Property>, Dec))
    requires TagType(tag).Some?
    ensures |r.1.c.rest| <= |d.c.rest| && (d.c.err ==> r.1.c.err) && (r.0.None? ==> r.1.err.Some?)
  {
    match tag
    case 0x44 => DateFields(d)
    case 0x54 => ZonedTimeFields(d)
    case 0x74 => LocalTimeFields(d)
    case 0x64 => LocalDateTimeFields(d)
    case 0x49 => ZonedDateTimeFields(d)
    case 0x45 => DurationFields(d)
    case 0x58 => Point2DFields(d)
    case 0x59 => Point3DFields(d)
    case _ => VectorFields(d)
  }

  function Structure(d: Dec, s: Scheme): (r: (Option<Property>, Dec))
    requires GoodMarker(d.c)
    ensures |r.1.c.rest| <= |d.c.rest| && (d.c.err ==> r.1.c.err) && (r.0.None? ==> r.1.err.Some? || r.1.c.err)
  {
    var (tag, c) := Pop(d.c);
    var (n, c') := Len(c);
    var e := d.(c := c');
    if c'.err then (None, e)
    else match TagType(tag)
      case None => (None, Fail(e, Unsupported))
      case Some(t) =>
        if !Known(s, t.0) then (None, Fail(e, Unsupported))
        else if n != t.1 then (None, Fail(e, Malformed))
        else Fields(tag, e)
  }

  /** A value of a type without structure, once its marker is read and its type known. */
  function Scalar(c: Cursor): (r: (Property, Cursor))
    requires GoodMarker(c)
    ensures |r.1.rest| <= |c.rest| && (c.err ==> r.1.err)
  {
    match c.mrk.typ
    case IntT => var (i, e) := Int(c); (PInt(i), e)
    case FloatT => var (f, e) := Float(c); (PFloat(f), e)
    case StrT => var (b, e) := Str(c); (PStr(b), e)
    case ByteArrayT => var (b, e) := ByteArray(c); (PBytes(b), e)
    case UuidT => var (u, e) := Uuid(c); (PUuid(u), e)
    case _ => var (b, e) := Bool(c); (PBool(b), e)
  }

  function ScalarType(t: Type): Option<PType>
  {
    match t
    case IntT => Some(TInteger)
    case FloatT => Some(TFloat)
    case StrT => Some(TString)
    case ByteArrayT => Some(TBytes)
    case TrueT => Some(TBoolean)
    case FalseT => Some(TBoolean)
    case UuidT => Some(TUuid)
    case _ => None
  }

  /** Decodes one value. It ends on any bytes whatever. */
  function DecodeOne(d: Dec, s: Scheme, inList: bool): (r: (Option<Property>, Dec))
    ensures |r.1.c.rest| <= |d.c.rest| && (d.c.err ==> r.1.c.err)
    ensures r.1.err.None? && !r.1.c.err ==> r.0.Some? && |r.1.c.rest| < |d.c.rest|
    decreases |d.c.rest|, 0
  {
    if d.err.Some? then (None, d) else
    var c := Next(d.c);
    var e := d.(c := c);
    var st := ScalarType(c.mrk.typ);
    if st.Some? then
      if !Known(s, st.value) then (None, Fail(e, Unsupported)) else
      var (x, c') := Scalar(c);
      (Some(x), d.(c := c'))
    else if c.mrk.typ.ArrayT? then
      if !Known(s, TList) then (None, Fail(e, Unsupported)) else
      var (n, c') := Len(c);
      if c'.err then (None, d.(c := c')) else
      var (xs, f) := DecodeItems(d.(c := c'), s, n);
      if f.err.Some? || f.c.err then (None, f) else (Some(PList(xs)), f)
    else if c.mrk.typ.StructT? then Structure(e, s)
    else if c.mrk.typ.NilT? then
      if inList then (None, Fail(e, Malformed))
      else if !Known(s, TNull) then (None, Fail(e, Unsupported)) else (Some(PNull), e)
    else (None, Fail(e, Unsupported))
  }

  /** The elements of a list, up to the first that fails. */
  function DecodeItems(d: Dec, s: Scheme, n: nat): (r: (seq<Property>, Dec))
    ensures |r.1.c.rest| <= |d.c.rest| && (d.c.err ==> r.1.c.err)
    decreases |d.c.rest|, n
  {
    if n == 0 then ([], d) else
    var (x, e) := DecodeOne(d, s, true);
    if e.err.Some? || e.c.err || x.None? then ([], e) else
    var (xs, f) := DecodeItems(e, s, n - 1);
    ([x.value] + xs, f)
  }

  // ---------------------------------------------------------------------------------------------
  // Reading back what was written, field by field
  // ---------------------------------------------------------------------------------------------

  /** The decoder in good order, about to read `rest`. */
  function At(rest: seq<Byte>, m: Marker): Dec
  {
    Dec(Cursor(rest, false, m), None)
  }

  predicate Good(d: Dec, rest: seq<Byte>)
  {
    d == At(rest, d.c.mrk)
  }

  lemma {:induction false} IntField(i: int, tail: seq<Byte>, m: Marker)
    requires IsInt64(i)
    ensures var r := FieldInt(At(Pack(IntV(i)) + tail, m)); r.0 == i && Good(r.1, tail)
  {
    IntRoundTrip(i, tail, m);
  }

  lemma {:induction false} FloatField(f: nat, tail: seq<Byte>, m: Marker)
    requires f < TWO64
    ensures var r := FieldFloat(At(Pack(FloatV(f)) + tail, m)); r.0 == f && Good(r.1, tail)
  {
    FloatRoundTrip(f, tail, m);
  }

  lemma {:induction false} BytesField(b: seq<Byte>, tail: seq<Byte>, m: Marker)
    requires |b| < TWO32
    ensures var r := FieldBytes(At(Pack(BytesV(b)) + tail, m)); r.0 == b && Good(r.1, tail)
  {
    ByteArrayRoundTrip(b, tail, m);
  }

  lemma {:induction false} StrField(b: seq<Byte>, tail: seq<Byte>, m: Marker)
    requires |b| < TWO32 - 1
    ensures var r := FieldStr(At(Pack(StrV(b)) + tail, m)); r.0 == b && Good(r.1, tail)
  {
    StringRoundTrip(b, tail, m);
  }

  lemma {:induction false} Cons(v: Value, vs: seq<Value>, tail: seq<Byte>)
    requires Packable(v) && forall i :: 0 <= i < |vs| ==> Packable(vs[i])
    ensures PackAll([v] + vs) + tail == Pack(v) + (PackAll(vs) + tail)
  {
    assert ([v] + vs)[0] == v && ([v] + vs)[1..] == vs;
    Assoc(Pack(v), PackAll(vs), tail);
  }

  lemma {:induction false} NoMore(tail: seq<Byte>)
    ensures PackAll([]) + tail == tail
  {
  }

  lemma {:induction false} OneInt(i: int, tail: seq<Byte>, m: Marker)
    requires IsInt64(i)
    ensures var r := FieldInt(At(PackAll([IntV(i)]) + tail, m)); r.0 == i && Good(r.1, tail)
  {
    assert [IntV(i)] == [IntV(i)] + [];
    Cons(IntV(i), [], tail);
    NoMore(tail);
    IntField(i, tail, m);
  }

  lemma {:induction false} FirstInt(i: int, vs: seq<Value>, tail: seq<Byte>, m: Marker)
    requires IsInt64(i) && forall k :: 0 <= k < |vs| ==> Packable(vs[k])
    ensures var r := FieldInt(At(PackAll([IntV(i)] + vs) + tail, m)); r.0 == i && Good(r.1, PackAll(vs) + tail)
  {
    Cons(IntV(i), vs, tail);
    IntField(i, PackAll(vs) + tail, m);
  }

  lemma {:induction false} FirstFloat(f: nat, vs: seq<Value>, tail: seq<Byte>, m: Marker)
    requires f < TWO64 && forall k :: 0 <= k < |vs| ==> Packable(vs[k])
    ensures var r := FieldFloat(At(PackAll([FloatV(f)] + vs) + tail, m)); r.0 == f && Good(r.1, PackAll(vs) + tail)
  {
    Cons(FloatV(f), vs, tail);
    FloatField(f, PackAll(vs) + tail, m);
  }

  lemma {:induction false} FirstBytes(b: seq<Byte>, vs: seq<Value>, tail: seq<Byte>, m: Marker)
    requires |b| < TWO32 && forall k :: 0 <= k < |vs| ==> Packable(vs[k])
    ensures var r := FieldBytes(At(PackAll([BytesV(b)] + vs) + tail, m)); r.0 == b && Good(r.1, PackAll(vs) + tail)
  {
    Cons(BytesV(b), vs, tail);
    BytesField(b, PackAll(vs) + tail, m);
  }

  /** Decoding gave `x` and read exactly as far as `tail`. */
  predicate Gives(r: (Option<Property>, Dec), x: Property, tail: seq<Byte>)
  {
    r == (Some(x), At(tail, r.1.c.mrk))
  }

  lemma {:induction false} DateBack(w: int, tail: seq<Byte>, m: Marker)
    requires IsInt64(w)
    ensures IsInt64(DayOf(w)) && Gives(DateFields(At(PackAll([IntV(DayOf(w))]) + tail, m)), PDate(DayOf(w) * SECONDS_PER_DAY), tail)
  {
    DayIsFloor(w);
    OneInt(DayOf(w), tail, m);
  }

  lemma {:induction false} TwoInts(a: int, b: int, tail: seq<Byte>, m: Marker)
    requires IsInt64(a) && IsInt64(b)
    ensures var r := FieldInt(At(PackAll([IntV(a), IntV(b)]) + tail, m));
            r.0 == a && Good(r.1, PackAll([IntV(b)]) + tail) && FieldInt(r.1).0 == b && Good(FieldInt(r.1).1, tail)
  {
    assert [IntV(a), IntV(b)] == [IntV(a)] + [IntV(b)];
    FirstInt(a, [IntV(b)], tail, m);
    var r := FieldInt(At(PackAll([IntV(a)] + [IntV(b)]) + tail, m));
    OneInt(b, tail, r.1.c.mrk);
    assert r.1 == At(PackAll([IntV(b)]) + tail, r.1.c.mrk);
  }

  lemma {:induction false} ThreeInts(a: int, b: int, c: int, tail: seq<Byte>, m: Marker)
    requires IsInt64(a) && IsInt64(b) && IsInt64(c)
    ensures var r := FieldInt(At(PackAll([IntV(a), IntV(b), IntV(c)]) + tail, m));
            r.0 == a && r.1 == At(PackAll([IntV(b), IntV(c)]) + tail, r.1.c.mrk)
  {
    assert [IntV(a), IntV(b), IntV(c)] == [IntV(a)] + [IntV(b), IntV(c)];
    FirstInt(a, [IntV(b), IntV(c)], tail, m);
  }

  lemma {:induction false} ZonedTimeBack(n: nat, o: int, tail: seq<Byte>, m: Marker)
    requires n < NANOS_PER_DAY && IsInt64(o)
    ensures Gives(ZonedTimeFields(At(PackAll([IntV(n), IntV(o)]) + tail, m)), PZonedTime(n, o), tail)
  {
    var d := At(PackAll([IntV(n), IntV(o)]) + tail, m);
    TwoInts(n, o, tail, m);
    ModOnce(n, NANOS_PER_DAY);
    assert ZonedTimeFields(d) == Unless(FieldInt(FieldInt(d).1).1, PZonedTime(n, o));
  }

  lemma {:induction false} LocalTimeBack(n: nat, tail: seq<Byte>, m: Marker)
    requires n < NANOS_PER_DAY
    ensures Gives(LocalTimeFields(At(PackAll([IntV(n)]) + tail, m)), PLocalTime(n), tail)
  {
    OneInt(n, tail, m);
  }

  lemma {:induction false} LocalDateTimeBack(w: int, n: nat, tail: seq<Byte>, m: Marker)
    requires IsInt64(w) && n < NANOS_PER_SECOND
    ensures Gives(LocalDateTimeFields(At(PackAll([IntV(w), IntV(n)]) + tail, m)), PLocalDateTime(w, n), tail)
  {
    TwoInts(w, n, tail, m);
  }

  lemma {:induction false} ZonedDateTimeBack(s: int, n: nat, o: int, tail: seq<Byte>, m: Marker)
    requires IsInt64(s) && n < NANOS_PER_SECOND && IsInt64(o)
    ensures Gives(ZonedDateTimeFields(At(PackAll([IntV(s), IntV(n), IntV(o)]) + tail, m)), PZonedDateTime(s, n, o), tail)
  {
    ThreeInts(s, n, o, tail, m);
    TwoInts(n, o, tail, FieldInt(At(PackAll([IntV(s), IntV(n), IntV(o)]) + tail, m)).1.c.mrk);
  }

  lemma {:induction false} DurationBack(a: int, b: int, c: int, d: int, tail: seq<Byte>, m: Marker)
    requires IsInt64(a) && IsInt64(b) && IsInt64(c) && IsInt64(d)
    ensures Gives(DurationFields(At(PackAll([IntV(a), IntV(b), IntV(c), IntV(d)]) + tail, m)), PDuration(a, b, c, d), tail)
  {
    var more := [IntV(b), IntV(c), IntV(d)];
    assert [IntV(a), IntV(b), IntV(c), IntV(d)] == [IntV(a)] + more;
    FirstInt(a, more, tail, m);
    var r := FieldInt(At(PackAll([IntV(a)] + more) + tail, m));
    assert r.1 == At(PackAll(more) + tail, r.1.c.mrk);
    ThreeInts(b, c, d, tail, r.1.c.mrk);
    TwoInts(c, d, tail, FieldInt(r.1).1.c.mrk);
  }

  lemma {:induction false} FloatsBack(x: nat, y: nat, tail: seq<Byte>, m: Marker)
    requires x < TWO64 && y < TWO64
    ensures var r := FieldFloat(At(PackAll([FloatV(x), FloatV(y)]) + tail, m));
            r.0 == x && FieldFloat(r.1).0 == y && Good(FieldFloat(r.1).1, tail)
  {
    assert [FloatV(x), FloatV(y)] == [FloatV(x)] + [FloatV(y)] && [FloatV(y)] == [FloatV(y)] + [];
    FirstFloat(x, [FloatV(y)], tail, m);
    var r := FieldFloat(At(PackAll([FloatV(x)] + [FloatV(y)]) + tail, m));
    assert r.1 == At(PackAll([FloatV(y)]) + tail, r.1.c.mrk);
    FirstFloat(y, [], tail, r.1.c.mrk);
    NoMore(tail);
  }

  lemma {:induction false} Point2DBack(s: nat, x: nat, y: nat, tail: seq<Byte>, m: Marker)
    requires s < TWO32 && x < TWO64 && y < TWO64
    ensures Gives(Point2DFields(At(PackAll([IntV(s), FloatV(x), FloatV(y)]) + tail, m)), PPoint2D(s, x, y), tail)
  {
    var more := [FloatV(x), FloatV(y)];
    assert [IntV(s), FloatV(x), FloatV(y)] == [IntV(s)] + more;
    FirstInt(s, more, tail, m);
    var r := FieldInt(At(PackAll([IntV(s)] + more) + tail, m));
    assert r.1 == At(PackAll(more) + tail, r.1.c.mrk);
    FloatsBack(x, y, tail, r.1.c.mrk);
    ModOnce(s, TWO32);
    assert Point2DFields(At(PackAll([IntV(s)] + more) + tail, m)) == Unless(FieldFloat(FieldFloat(r.1).1).1, PPoint2D(s, x, y));
  }

  lemma {:induction false} Point3DBack(s: nat, x: nat, y: nat, z: nat, tail: seq<Byte>, m: Marker)
    requires s < TWO32 && x < TWO64 && y < TWO64 && z < TWO64
    ensures Gives(Point3DFields(At(PackAll([IntV(s), FloatV(x), FloatV(y), FloatV(z)]) + tail, m)), PPoint3D(s, x, y, z), tail)
  {
    var two := [FloatV(y), FloatV(z)];
    var more := [FloatV(x)] + two;
    assert [IntV(s), FloatV(x), FloatV(y), FloatV(z)] == [IntV(s)] + more;
    FirstInt(s, more, tail, m);
    var r := FieldInt(At(PackAll([IntV(s)] + more) + tail, m));
    assert r.1 == At(PackAll(more) + tail, r.1.c.mrk);
    FirstFloat(x, two, tail, r.1.c.mrk);
    var q := FieldFloat(r.1);
    assert q.1 == At(PackAll(two) + tail, q.1.c.mrk);
    FloatsBack(y, z, tail, q.1.c.mrk);
    ModOnce(s, TWO32);
    assert Point3DFields(At(PackAll([IntV(s)] + more) + tail, m)) == Unless(FieldFloat(FieldFloat(q.1).1).1, PPoint3D(s, x, y, z));
  }

  lemma {:induction false} ElementBack(k: VectorKind, e: int)
    requires ElementOk(k, e)
    ensures Element(k, TwosComplement(e, KindWidth(k))) == e
  {
    var w := KindWidth(k);
    if IsFloat(k) {
      ModOnce(e, Pow256(w));
      BigEndianRoundTrip(e, w);
    } else {
      SignedRoundTrip(e, w);
    }
  }

  lemma {:induction false} ElementsBack(k: VectorKind, es: seq<int>)
    requires forall i :: 0 <= i < |es| ==> ElementOk(k, es[i])
    ensures |ElementBytes(k, es)| % KindWidth(k) == 0 && Elements(k, ElementBytes(k, es)) == es
  {
    var w := KindWidth(k);
    if es != [] {
      ElementsBack(k, es[1..]);
      var first, more := TwosComplement(es[0], w), ElementBytes(k, es[1..]);
      Taken(first, more);
      ElementBack(k, es[0]);
      ModAdd(|more|, w);
      assert (first + more)[..w] == first && (first + more)[w..] == more;
    }
  }

  lemma {:induction false} VectorBack(k: VectorKind, es: seq<int>, tail: seq<Byte>, m: Marker)
    requires (forall i :: 0 <= i < |es| ==> ElementOk(k, es[i])) && |ElementBytes(k, es)| < TWO32
    ensures Gives(VectorFields(At(PackAll([BytesV([KindMarker(k)]), BytesV(ElementBytes(k, es))]) + tail, m)), PVector(k, es), tail)
  {
    var mark, data := [KindMarker(k)], ElementBytes(k, es);
    assert [BytesV(mark), BytesV(data)] == [BytesV(mark)] + [BytesV(data)] && [BytesV(data)] == [BytesV(data)] + [];
    FirstBytes(mark, [BytesV(data)], tail, m);
    var r := FieldBytes(At(PackAll([BytesV(mark)] + [BytesV(data)]) + tail, m));
    assert r.1 == At(PackAll([BytesV(data)]) + tail, r.1.c.mrk);
    FirstBytes(data, [], tail, r.1.c.mrk);
    NoMore(tail);
    ElementsBack(k, es);
    VectorFrom(At(PackAll([BytesV(mark)] + [BytesV(data)]) + tail, m), k, data, es, FieldBytes(r.1).1);
  }

  lemma {:induction false} VectorFrom(d: Dec, k: VectorKind, data: seq<Byte>, es: seq<int>, f: Dec)
    requires FieldBytes(d).0 == [KindMarker(k)] && FieldBytes(FieldBytes(d).1) == (data, f) && f.err.None?
    requires |data| % KindWidth(k) == 0 && Elements(k, data) == es
    ensures VectorFields(d) == (Some(PVector(k, es)), f)
  {
    assert KindFor(KindMarker(k)) == Some(k);
  }

  // ---------------------------------------------------------------------------------------------
  // Whole values
  // ---------------------------------------------------------------------------------------------

  predicate AllKnown(s: Scheme, types: set<PType>)
  {
    forall t :: t in types ==> Known(s, t)
  }

  /** Either every type was known and the value came back, or decoding was given up as unsupported. */
  predicate Outcome(r: (Option<Property>, Dec), known: bool, x: Property, tail: seq<Byte>)
  {
    if known then Gives(r, x, tail) else r.1.err == Some(Unsupported)
  }

  lemma {:induction false} StructBack(tag: Byte, fields: seq<Value>, s: Scheme, inList: bool, tail: seq<Byte>, m: Marker)
    requires Packable(StructV(tag, fields)) && TagType(tag).Some? && |fields| == TagType(tag).value.1
    ensures var r := DecodeOne(At(Pack(StructV(tag, fields)) + tail, m), s, inList);
            if Known(s, TagType(tag).value.0) then r == Fields(tag, At(PackAll(fields) + tail, Marker(StructT, |fields|, 0)))
            else r.1.err == Some(Unsupported)
  {
    Assoc([0xb0 + |fields|, tag], PackAll(fields), tail);
    StructStart(tag, |fields|, PackAll(fields) + tail, m);
  }

  predicate IsStruct(x: Property)
  {
    Wire(x).StructV?
  }

  /** The fields of a structure are read back as the value they were written for. */
  predicate FieldsComeBack(x: Property, tail: seq<Byte>, m: Marker)
    requires IsStruct(x) && Packable(Wire(x)) && TagType(Wire(x).tag).Some?
  {
    Gives(Fields(Wire(x).tag, At(PackAll(Wire(x).fields) + tail, m)), Canonical(x), tail)
  }

  lemma {:induction false} TagOf(x: Property)
    requires IsStruct(x)
    ensures TagType(Wire(x).tag) == Some((TypeOf(x), |Wire(x).fields|))
  {
  }

  lemma {:induction false} DateStruct(x: Property, tail: seq<Byte>, m: Marker)
    requires x.PDate? && Typed(x) && Packable(Wire(x))
    ensures FieldsComeBack(x, tail, m)
  {
    DateBack(x.wallSeconds, tail, m);
  }

  lemma {:induction false} ZonedTimeStruct(x: Property, tail: seq<Byte>, m: Marker)
    requires x.PZonedTime? && Typed(x) && Packable(Wire(x))
    ensures FieldsComeBack(x, tail, m)
  {
    ZonedTimeBack(x.ofDay, x.offset, tail, m);
  }

  lemma {:induction false} LocalTimeStruct(x: Property, tail: seq<Byte>, m: Marker)
    requires x.PLocalTime? && Typed(x) && Packable(Wire(x))
    ensures FieldsComeBack(x, tail, m)
  {
    LocalTimeBack(x.ofDay, tail, m);
  }

  lemma {:induction false} LocalDateTimeStruct(x: Property, tail: seq<Byte>, m: Marker)
    requires x.PLocalDateTime? && Typed(x) && Packable(Wire(x))
    ensures FieldsComeBack(x, tail, m)
  {
    LocalDateTimeBack(x.wallSeconds, x.nanos, tail, m);
  }

  lemma {:induction false} ZonedDateTimeStruct(x: Property, tail: seq<Byte>, m: Marker)
    requires x.PZonedDateTime? && Typed(x) && Packable(Wire(x))
    ensures FieldsComeBack(x, tail, m)
  {
    var d := At(PackAll(Wire(x).fields) + tail, m);
    assert Fields(Wire(x).tag, d) == ZonedDateTimeFields(d);
    ZonedDateTimeBack(x.seconds, x.nanos, x.offset, tail, m);
  }

  lemma {:induction false} DurationStruct(x: Property, tail: seq<Byte>, m: Marker)
    requires x.PDuration? && Typed(x) && Packable(Wire(x))
    ensures FieldsComeBack(x, tail, m)
  {
    var d := At(PackAll(Wire(x).fields) + tail, m);
    assert Fields(Wire(x).tag, d) == DurationFields(d);
    DurationBack(x.months, x.days, x.secs, x.nanoseconds, tail, m);
  }

  lemma {:induction false} Point2DStruct(x: Property, tail: seq<Byte>, m: Marker)
    requires x.PPoint2D? && Typed(x) && Packable(Wire(x))
    ensures FieldsComeBack(x, tail, m)
  {
    var d := At(PackAll(Wire(x).fields) + tail, m);
    assert Fields(Wire(x).tag, d) == Point2DFields(d);
    Point2DBack(x.srid, x.x, x.y, tail, m);
  }

  lemma {:induction false} Point3DStruct(x: Property, tail: seq<Byte>, m: Marker)
    requires x.PPoint3D? && Typed(x) && Packable(Wire(x))
    ensures FieldsComeBack(x, tail, m)
  {
    var d := At(PackAll(Wire(x).fields) + tail, m);
    assert Fields(Wire(x).tag, d) == Point3DFields(d);
    Point3DBack(x.srid, x.x, x.y, x.z, tail, m);
  }

  lemma {:induction false} VectorStruct(x: Property, tail: seq<Byte>, m: Marker)
    requires x.PVector? && Typed(x) && Packable(Wire(x))
    ensures FieldsComeBack(x, tail, m)
  {
    var d := At(PackAll(Wire(x).fields) + tail, m);
    assert Fields(Wire(x).tag, d) == VectorFields(d);
    assert Packable(Wire(x).fields[1]);
    VectorBack(x.kind, x.elems, tail, m);
  }

  lemma {:induction false} StructFieldsBack(x: Property, tail: seq<Byte>, m: Marker)
    requires Typed(x) && IsStruct(x) && Packable(Wire(x))
    ensures TagType(Wire(x).tag) == Some((TypeOf(x), |Wire(x).fields|)) && FieldsComeBack(x, tail, m)
  {
    TagOf(x);
    match x {
      case PDate(_) => DateStruct(x, tail, m);
      case PZonedTime(_, _) => ZonedTimeStruct(x, tail, m);
      case PLocalTime(_) => LocalTimeStruct(x, tail, m);
      case PLocalDateTime(_, _) => LocalDateTimeStruct(x, tail, m);
      case PZonedDateTime(_, _, _) => ZonedDateTimeStruct(x, tail, m);
      case PDuration(_, _, _, _) => DurationStruct(x, tail, m);
      case PPoint2D(_, _, _) => Point2DStruct(x, tail, m);
      case PPoint3D(_, _, _, _) => Point3DStruct(x, tail, m);
      case PVector(_, _) => VectorStruct(x, tail, m);
    }
  }

  lemma {:induction false} StructOutcome(x: Property, s: Scheme, inList: bool, tail: seq<Byte>, m: Marker)
    requires Typed(x) && IsStruct(x) && Packable(Wire(x))
    ensures Outcome(DecodeOne(At(Pack(Wire(x)) + tail, m), s, inList), Known(s, TypeOf(x)), Canonical(x), tail)
  {
    var v := Wire(x);
    StructFieldsBack(x, tail, Marker(StructT, |v.fields|, 0));
    StructBack(v.tag, v.fields, s, inList, tail, m);
  }

  predicate IsScalar(x: Property)
  {
    x.PBool? || x.PStr? || x.PBytes? || x.PInt? || x.PUint? || x.PFloat? || x.PUuid?
  }

  /** Reading the marker and then the scalar gives it back. */
  predicate ScalarComesBack(x: Property, tail: seq<Byte>, m: Marker)
    requires Packable(Wire(x))
  {
    var c := Next(Cursor(Pack(Wire(x)) + tail, false, m));
    ScalarType(c.mrk.typ) == Some(TypeOf(x)) && Scalar(c).0 == Canonical(x) && Scalar(c).1 == Cursor(tail, false, c.mrk)
  }

  lemma {:induction false} ScalarBack(x: Property, tail: seq<Byte>, m: Marker)
    requires IsScalar(x) && Packable(Wire(x))
    ensures ScalarComesBack(x, tail, m)
  {
    match x {
      case PBool(b) => Popped(if b then 0xc3 else 0xc2, tail, m);
      case PStr(b) => StringRoundTrip(b, tail, m);
      case PBytes(b) => ByteArrayRoundTrip(b, tail, m);
      case PInt(i) => IntRoundTrip(i, tail, m);
      case PUint(i) => IntRoundTrip(i, tail, m);
      case PFloat(f) => FloatRoundTrip(f, tail, m);
      case PUuid(u) => UuidRoundTrip(u, tail, m);
    }
  }

  lemma {:induction false} ScalarOutcome(x: Property, s: Scheme, inList: bool, tail: seq<Byte>, m: Marker)
    requires IsScalar(x) && Packable(Wire(x))
    ensures Outcome(DecodeOne(At(Pack(Wire(x)) + tail, m), s, inList), Known(s, TypeOf(x)), Canonical(x), tail)
  {
    ScalarBack(x, tail, m);
  }

  /**
   * Decoding what was encoded: if every type in the value is known, the value comes back and
   * exactly its bytes are read, whatever follows; if not, the outcome is "unsupported", never some
   * other value and never "malformed".
   */
  lemma {:induction false} DecodeUndoesEncode(x: Property, s: Scheme, inList: bool, permitted: Table, tail: seq<Byte>, m: Marker)
    requires Typed(x) && Accepted(x, inList, permitted) && Packable(Wire(x))
    ensures Outcome(DecodeOne(At(Pack(Wire(x)) + tail, m), s, inList), AllKnown(s, Types(x)), Canonical(x), tail)
    decreases x, 1
  {
    if IsScalar(x) {
      ScalarOutcome(x, s, inList, tail, m);
    } else if x.PList? {
      ListOutcome(x, s, permitted, tail, m);
    } else if x.PNull? {
      Popped(0xc0, tail, m);
    } else {
      StructOutcome(x, s, inList, tail, m);
    }
    assert !x.PList? ==> Types(x) == {TypeOf(x)};
  }

  lemma {:induction false} ListOutcome(x: Property, s: Scheme, permitted: Table, tail: seq<Byte>, m: Marker)
    requires x.PList? && Typed(x) && Accepted(x, false, permitted) && Packable(Wire(x))
    ensures Outcome(DecodeOne(At(Pack(Wire(x)) + tail, m), s, false), AllKnown(s, Types(x)), Canonical(x), tail)
    decreases x, 0, |x.items| + 1
  {
    var vs := WireAll(x.items);
    assert Wire(x).items == vs;
    Assoc(Header(|vs|, 0x90, 0xd4), PackAll(vs), tail);
    HeaderRoundTrip(|vs|, 0x90, 0xd4, ArrayT, PackAll(vs) + tail, m);
    var c := Next(Cursor(Pack(Wire(x)) + tail, false, m));
    ListStart(At(Pack(Wire(x)) + tail, m), s, |vs|, At(PackAll(vs) + tail, c.mrk));
    ItemsOutcome(x, x.items, s, permitted, tail, c.mrk);
    assert AllKnown(s, Types(x)) <==> Known(s, TList) && AllKnown(s, AllTypes(x.items));
  }

  /** What decoding a list comes to once its header is read. */
  lemma {:induction false} ListStart(d: Dec, s: Scheme, n: nat, e: Dec)
    requires d.err.None? && Next(d.c).mrk.typ.ArrayT? && Len(Next(d.c)) == (n, e.c) && !e.c.err && e.err.None?
    ensures var r := DecodeOne(d, s, false);
            if !Known(s, TList) then r.1.err == Some(Unsupported)
            else var (xs, f) := DecodeItems(e, s, n); r == if f.err.Some? || f.c.err then (None, f) else (Some(PList(xs)), f)
  {
  }

  lemma {:induction false} ItemsOutcome(parent: Property, xs: seq<Property>, s: Scheme, permitted: Table, tail: seq<Byte>, m: Marker)
    requires forall i :: 0 <= i < |xs| ==> Typed(xs[i]) && Accepted(xs[i], true, permitted) && xs[i] < parent
    requires forall i :: 0 <= i < |xs| ==> Packable(Wire(xs[i]))
    ensures forall i :: 0 <= i < |xs| ==> Packable(WireAll(xs)[i])
    ensures var r := DecodeItems(At(PackAll(WireAll(xs)) + tail, m), s, |xs|);
            if AllKnown(s, AllTypes(xs)) then r.0 == CanonicalAll(xs) && Good(r.1, tail) else r.1.err == Some(Unsupported)
    decreases parent, 0, |xs|
  {
    if xs == [] {
      NoMore(tail);
    } else {
      var more := PackAll(WireAll(xs[1..])) + tail;
      Cons(Wire(xs[0]), WireAll(xs[1..]), tail);
      DecodeUndoesEncode(xs[0], s, true, permitted, more, m);
      var e := DecodeOne(At(Pack(Wire(xs[0])) + more, m), s, true).1;
      ItemsOutcome(parent, xs[1..], s, permitted, tail, e.c.mrk);
      assert AllKnown(s, AllTypes(xs)) <==> AllKnown(s, Types(xs[0])) && AllKnown(s, AllTypes(xs[1..]));
      assert AllKnown(s, Types(xs[0])) ==> e == At(more, e.c.mrk);
    }
  }

  // ---------------------------------------------------------------------------------------------
  // Less than the whole
  // ---------------------------------------------------------------------------------------------

  /** The same place with more behind it. */
  function More(d: Dec, q: seq<Byte>): Dec
  {
    d.(c := Plus(d.c, q))
  }

  predicate Fine(d: Dec)
  {
    d.err.None? && !d.c.err
  }

  lemma {:induction false} FieldIntMore(d: Dec, q: seq<Byte>)
    requires Fine(FieldInt(d).1)
    ensures Fine(d) && FieldInt(More(d, q)) == (FieldInt(d).0, More(FieldInt(d).1, q))
  {
    NextMore(d.c, q);
    IntMore(Next(d.c), q);
  }

  lemma {:induction false} FieldFloatMore(d: Dec, q: seq<Byte>)
    requires Fine(FieldFloat(d).1)
    ensures Fine(d) && FieldFloat(More(d, q)) == (FieldFloat(d).0, More(FieldFloat(d).1, q))
  {
    NextMore(d.c, q);
    FloatMore(Next(d.c), q);
  }

  lemma {:induction false} FieldStrMore(d: Dec, q: seq<Byte>)
    requires Fine(FieldStr(d).1)
    ensures Fine(d) && FieldStr(More(d, q)) == (FieldStr(d).0, More(FieldStr(d).1, q))
  {
    NextMore(d.c, q);
    StrMore(Next(d.c), q);
  }

  lemma {:induction false} FieldBytesMore(d: Dec, q: seq<Byte>)
    requires Fine(FieldBytes(d).1)
    ensures Fine(d) && FieldBytes(More(d, q)) == (FieldBytes(d).0, More(FieldBytes(d).1, q))
  {
    NextMore(d.c, q);
    StrMore(Next(d.c), q);
  }

  lemma {:induction false} TwoIntsMore(d: Dec, q: seq<Byte>)
    requires Fine(FieldInt(FieldInt(d).1).1)
    ensures var e := FieldInt(d); var f := FieldInt(e.1);
            Fine(e.1) && FieldInt(More(d, q)) == (e.0, More(e.1, q)) && FieldInt(More(e.1, q)) == (f.0, More(f.1, q))
  {
    FieldIntMore(FieldInt(d).1, q);
    FieldIntMore(d, q);
  }

  lemma {:induction false} TwoFloatsMore(d: Dec, q: seq<Byte>)
    requires Fine(FieldFloat(FieldFloat(d).1).1)
    ensures var e := FieldFloat(d); var f := FieldFloat(e.1);
            Fine(d) && FieldFloat(More(d, q)) == (e.0, More(e.1, q)) && FieldFloat(More(e.1, q)) == (f.0, More(f.1, q))
  {
    FieldFloatMore(FieldFloat(d).1, q);
    FieldFloatMore(d, q);
  }

  lemma {:induction false} TimesMore(d: Dec, q: seq<Byte>)
    ensures Fine(DateFields(d).1) ==> DateFields(More(d, q)) == (DateFields(d).0, More(DateFields(d).1, q))
    ensures Fine(LocalTimeFields(d).1) ==> LocalTimeFields(More(d, q)) == (LocalTimeFields(d).0, More(LocalTimeFields(d).1, q))
  {
    if Fine(FieldInt(d).1) { FieldIntMore(d, q); }
  }

  lemma {:induction false} PairsMore(d: Dec, q: seq<Byte>)
    ensures Fine(ZonedTimeFields(d).1) ==> ZonedTimeFields(More(d, q)) == (ZonedTimeFields(d).0, More(ZonedTimeFields(d).1, q))
    ensures Fine(LocalDateTimeFields(d).1) ==> LocalDateTimeFields(More(d, q)) == (LocalDateTimeFields(d).0, More(LocalDateTimeFields(d).1, q))
  {
    if Fine(FieldInt(FieldInt(d).1).1) { TwoIntsMore(d, q); }
  }

  lemma {:induction false} ZonedDateTimeMore(d: Dec, q: seq<Byte>)
    requires Fine(ZonedDateTimeFields(d).1)
    ensures ZonedDateTimeFields(More(d, q)) == (ZonedDateTimeFields(d).0, More(ZonedDateTimeFields(d).1, q))
  {
    var f := FieldInt(FieldInt(d).1).1;
    FieldIntMore(f, q);
    TwoIntsMore(d, q);
  }

  lemma {:induction false} DurationMore(d: Dec, q: seq<Byte>)
    requires Fine(DurationFields(d).1)
    ensures DurationFields(More(d, q)) == (DurationFields(d).0, More(DurationFields(d).1, q))
  {
    var f := FieldInt(FieldInt(d).1).1;
    TwoIntsMore(f, q);
    FieldIntMore(f, q);
    TwoIntsMore(d, q);
  }

  lemma {:induction false} Point2DMore(d: Dec, q: seq<Byte>)
    requires Fine(Point2DFields(d).1)
    ensures Point2DFields(More(d, q)) == (Point2DFields(d).0, More(Point2DFields(d).1, q))
  {
    TwoFloatsMore(FieldInt(d).1, q);
    FieldIntMore(d, q);
  }

  lemma {:induction false} Point3DMore(d: Dec, q: seq<Byte>)
    requires Fine(Point3DFields(d).1)
    ensures Point3DFields(More(d, q)) == (Point3DFields(d).0, More(Point3DFields(d).1, q))
  {
    var e := FieldInt(d).1;
    TwoFloatsMore(FieldFloat(e).1, q);
    FieldFloatMore(e, q);
    FieldIntMore(d, q);
  }

  lemma {:induction false} VectorMore(d: Dec, q: seq<Byte>)
    requires Fine(VectorFields(d).1)
    ensures VectorFields(More(d, q)) == (VectorFields(d).0, More(VectorFields(d).1, q))
  {
    FieldBytesMore(FieldBytes(d).1, q);
    FieldBytesMore(d, q);
  }

  /** The fields of that structure are read the same with more behind them. */
  ghost predicate FieldsReadOn(tag: Byte, d: Dec, q: seq<Byte>)
    requires TagType(tag).Some?
  {
    Fields(tag, More(d, q)) == (Fields(tag, d).0, More(Fields(tag, d).1, q))
  }

  lemma {:induction false} TimeFieldsMore(tag: Byte, d: Dec, q: seq<Byte>)
    requires tag in {0x44, 0x74, 0x54, 0x64} && Fine(Fields(tag, d).1)
    ensures FieldsReadOn(tag, d, q)
  {
    if tag == 0x44 || tag == 0x74 { TimesMore(d, q); } else { PairsMore(d, q); }
  }

  lemma {:induction false} ZonedDateTimeFieldsMore(d: Dec, q: seq<Byte>)
    requires Fine(Fields(0x49, d).1)
    ensures FieldsReadOn(0x49, d, q)
  {
    assert Fields(0x49, d) == ZonedDateTimeFields(d);
    assert Fields(0x49, More(d, q)) == ZonedDateTimeFields(More(d, q));
    ZonedDateTimeMore(d, q);
  }

  lemma {:induction false} DurationFieldsMore(d: Dec, q: seq<Byte>)
    requires Fine(Fields(0x45, d).1)
    ensures FieldsReadOn(0x45, d, q)
  {
    assert Fields(0x45, d) == DurationFields(d);
    assert Fields(0x45, More(d, q)) == DurationFields(More(d, q));
    DurationMore(d, q);
  }

  lemma {:induction false} Point2DFieldsMore(d: Dec, q: seq<Byte>)
    requires Fine(Fields(0x58, d).1)
    ensures FieldsReadOn(0x58, d, q)
  {
    assert Fields(0x58, d) == Point2DFields(d);
    assert Fields(0x58, More(d, q)) == Point2DFields(More(d, q));
    Point2DMore(d, q);
  }

  lemma {:induction false} Point3DFieldsMore(d: Dec, q: seq<Byte>)
    requires Fine(Fields(0x59, d).1)
    ensures FieldsReadOn(0x59, d, q)
  {
    assert Fields(0x59, d) == Point3DFields(d);
    assert Fields(0x59, More(d, q)) == Point3DFields(More(d, q));
    Point3DMore(d, q);
  }

  lemma {:induction false} FieldsMore(tag: Byte, d: Dec, q: seq<Byte>)
    requires TagType(tag).Some? && Fine(Fields(tag, d).1)
    ensures FieldsReadOn(tag, d, q)
  {
    if tag in {0x44, 0x74, 0x54, 0x64} {
      TimeFieldsMore(tag, d, q);
    } else if tag == 0x49 {
      ZonedDateTimeFieldsMore(d, q);
    } else if tag == 0x45 {
      DurationFieldsMore(d, q);
    } else if tag == 0x58 {
      Point2DFieldsMore(d, q);
    } else if tag == 0x59 {
      Point3DFieldsMore(d, q);
    } else {
      VectorMore(d, q);
    }
  }

  lemma {:induction false} StructureMore(d: Dec, s: Scheme, q: seq<Byte>)
    requires GoodMarker(d.c) && Fine(Structure(d, s).1)
    ensures Structure(More(d, q), s) == (Structure(d, s).0, More(Structure(d, s).1, q))
  {
    var (tag, c) := Pop(d.c);
    PopMore(d.c, q);
    LenMore(c, q);
    FieldsMore(tag, d.(c := Len(c).1), q);
  }

  lemma {:induction false} ScalarMore(c: Cursor, q: seq<Byte>)
    requires GoodMarker(c) && !Scalar(c).1.err
    ensures Scalar(Plus(c, q)) == (Scalar(c).0, Plus(Scalar(c).1, q))
  {
    match c.mrk.typ
    case IntT => IntMore(c, q);
    case FloatT => FloatMore(c, q);
    case StrT => StrMore(c, q);
    case ByteArrayT => StrMore(c, q);
    case UuidT => UuidMore(c, q);
    case _ =>
  }

  /** What is decoded without an error is decoded the same whatever more there is. */
  lemma {:induction false} DecodeMore(d: Dec, s: Scheme, inList: bool, q: seq<Byte>)
    requires Fine(DecodeOne(d, s, inList).1)
    ensures DecodeOne(More(d, q), s, inList) == (DecodeOne(d, s, inList).0, More(DecodeOne(d, s, inList).1, q))
    decreases |d.c.rest|, 0
  {
    NextMore(d.c, q);
    var c := Next(d.c);
    if ScalarType(c.mrk.typ).Some? {
      ScalarMore(c, q);
    } else if c.mrk.typ.ArrayT? {
      LenMore(c, q);
      DecodeItemsMore(d.(c := Len(c).1), s, Len(c).0, q);
    } else if c.mrk.typ.StructT? {
      StructureMore(d.(c := c), s, q);
    }
  }

  lemma {:induction false} DecodeItemsMore(d: Dec, s: Scheme, n: nat, q: seq<Byte>)
    requires Fine(DecodeItems(d, s, n).1)
    ensures DecodeItems(More(d, q), s, n) == (DecodeItems(d, s, n).0, More(DecodeItems(d, s, n).1, q))
    decreases |d.c.rest|, n
  {
    if n > 0 {
      DecodeMore(d, s, true, q);
      DecodeItemsMore(DecodeOne(d, s, true).1, s, n - 1, q);
    }
  }

  /** No proper beginning of an encoded value is decoded without an error. */
  lemma {:induction false} ProperPrefixFails(x: Property, s: Scheme, inList: bool, permitted: Table, k: nat, m: Marker)
    requires Typed(x) && Accepted(x, inList, permitted) && Packable(Wire(x)) && k < |Pack(Wire(x))|
    ensures !Fine(DecodeOne(At(Pack(Wire(x))[..k], m), s, inList).1)
  {
    var bytes := Pack(Wire(x));
    var q := bytes[k..];
    assert bytes[..k] + q == bytes == bytes + [];
    DecodeUndoesEncode(x, s, inList, permitted, [], m);
    if Fine(DecodeOne(At(bytes[..k], m), s, inList).1) {
      DecodeMore(At(bytes[..k], m), s, inList, q);
    }
  }

  // ---------------------------------------------------------------------------------------------
  // DecodeValue
  // ---------------------------------------------------------------------------------------------

  datatype Decoded = Decoded(x: Property) | UnsupportedType(typ: PType, minimum: Version) | DecodeError

  /** A driver's table together with the version it implements. */
  datatype Driver = Driver(table: Table, implemented: Version)

  predicate BaselineOk(recorded: Version, implemented: Version)
  {
    recorded.major == implemented.major && implemented.minor >= recorded.minor
  }

  function DecodeValue(plaintext: seq<Byte>, typ: PType, recorded: Version, driver: Driver): Decoded
  {
    if !BaselineOk(recorded, driver.implemented) then UnsupportedType(typ, recorded) else
    var (x, d) := DecodeOne(Dec(Start(Visible(plaintext)), None), Scheme(driver.table, recorded), false);
    if d.err == Some(Unsupported) then UnsupportedType(typ, recorded)
    else if d.err.Some? || d.c.err || x.None? then DecodeError
    else Decoded(x.value)
  }

  datatype Encoded = Encoded(bytes: seq<Byte>, typ: PType, baseline: Version)

  /** What EncodeValue answers on success. */
  predicate EncodesTo(x: Property, permitted: Table, e: Encoded)
  {
    && Accepted(x, false, permitted) && Packable(Wire(x))
    && e.bytes == Pack(Wire(x)) && e.typ == TypeOf(x)
    && IsBaseline(e.baseline, Version(0, 0), Types(x), permitted)
  }

  /** Every row of the table is of the implemented major version and of no later minor one. */
  predicate Coherent(d: Driver)
  {
    d.implemented.major >= 1 && forall t :: t in d.table ==> BaselineOk(d.table[t], d.implemented)
  }

  /** A later driver keeps the rows and the major version. */
  predicate Later(d: Driver, old_: Driver)
  {
    && d.implemented.major == old_.implemented.major && d.implemented.minor >= old_.implemented.minor
    && forall t :: t in old_.table ==> t in d.table && d.table[t] == old_.table[t]
  }

  lemma {:induction false} AcceptedTypes(x: Property, inList: bool, permitted: Table)
    requires Accepted(x, inList, permitted)
    ensures Types(x) <= permitted.Keys
    decreases x, 1
  {
    if x.PList? { AllAcceptedTypes(x, x.items, permitted); }
  }

  lemma {:induction false} AllAcceptedTypes(parent: Property, xs: seq<Property>, permitted: Table)
    requires forall i :: 0 <= i < |xs| ==> Accepted(xs[i], true, permitted) && xs[i] < parent
    ensures AllTypes(xs) <= permitted.Keys
    decreases parent, 0, |xs|
  {
    if xs != [] {
      AcceptedTypes(xs[0], true, permitted);
      AllAcceptedTypes(parent, xs[1..], permitted);
    }
  }

  /** The recorded baseline is one of the table's rows, since every value has a type. */
  lemma {:induction false} BaselineIsRow(x: Property, old_: Driver, e: Encoded)
    requires Coherent(old_) && EncodesTo(x, old_.table, e)
    ensures exists t :: t in Types(x) && t in old_.table && e.baseline == old_.table[t]
  {
    AcceptedTypes(x, false, old_.table);
    assert TypeOf(x) in Types(x);
    assert AtLeast(e.baseline, old_.table[TypeOf(x)]);
  }

  /**
   * Every value encoded by a driver into less than 4 GiB is decoded, by it and by every later one, to
   * the same value; and beyond that it is never decoded, since the unpacker's length has 32 bits.
   */
  lemma {:induction false} LaterDriversDecode(x: Property, old_: Driver, e: Encoded, new_: Driver)
    requires Typed(x) && Coherent(old_) && EncodesTo(x, old_.table, e) && Later(new_, old_)
    ensures |e.bytes| < TWO32 ==> DecodeValue(e.bytes, e.typ, e.baseline, new_) == Decoded(Canonical(x))
    ensures |e.bytes| >= TWO32 && NoWrap(e.bytes) ==> !DecodeValue(e.bytes, e.typ, e.baseline, new_).Decoded?
  {
    BaselineIsRow(x, old_, e);
    AcceptedTypes(x, false, old_.table);
    assert AllKnown(Scheme(new_.table, e.baseline), Types(x));
    AnyDriverDecodes(x, old_, e, new_);
  }

  /**
   * Under any other driver the outcome is the value or an UnsupportedType, and never anything else;
   * and the value of no driver if it took 4 GiB or more.
   */
  lemma {:induction false} AnyDriverDecodes(x: Property, old_: Driver, e: Encoded, other: Driver)
    requires Typed(x) && EncodesTo(x, old_.table, e)
    ensures var known := BaselineOk(e.baseline, other.implemented) && AllKnown(Scheme(other.table, e.baseline), Types(x));
            var expected := if known then Decoded(Canonical(x)) else UnsupportedType(e.typ, e.baseline);
            |e.bytes| < TWO32 ==> DecodeValue(e.bytes, e.typ, e.baseline, other) == expected
    ensures |e.bytes| >= TWO32 && NoWrap(e.bytes) ==> !DecodeValue(e.bytes, e.typ, e.baseline, other).Decoded?
  {
    var s, m := Scheme(other.table, e.baseline), Marker(Undef, 0, 0);
    if |e.bytes| < TWO32 {
      assert Pack(Wire(x)) + [] == Pack(Wire(x));
      DecodeUndoesEncode(x, s, false, old_.table, [], m);
    } else {
      ProperPrefixFails(x, s, false, old_.table, |Visible(e.bytes)|, m);
    }
  }

  /** The driver as it is, and what it permits as authenticated data. */
  lemma {:induction false} ThisDriver()
    ensures Coherent(Driver(BASELINES, IMPLEMENTED)) && Coherent(Driver(AAD_BASELINES, IMPLEMENTED))
    ensures Later(Driver(BASELINES, IMPLEMENTED), Driver(AAD_BASELINES, IMPLEMENTED))
  {
  }
}
