/**
 * The packer and the unpacker as the driver runs them, over a growing buffer and over a buffer with
 * 32-bit offsets. Each method does what PackStream says of its bytes.
 */
module PackStreamBuffers {
  import opened Bytes
  import opened PackStream

  // ---------------------------------------------------------------------------------------------
  // packer.go
  // ---------------------------------------------------------------------------------------------

  /** What Go's types guarantee of a value before it is packed; lengths are not among it. */
  predicate Typed(v: Value)
  {
    match v
    case IntV(i) => IsInt64(i)
    case FloatV(bits) => bits < TWO64
    case UuidV(u) => |u| == 16
    case ListV(items) => forall i :: 0 <= i < |items| ==> Typed(items[i])
    case MapV(entries) => forall i :: 0 <= i < |entries| ==> Typed(entries[i].value)
    case StructV(_, fields) => forall i :: 0 <= i < |fields| ==> Typed(fields[i])
    case _ => true
  }

  predicate AllPackable(vs: seq<Value>)
  {
    forall i :: 0 <= i < |vs| ==> Packable(vs[i])
  }

  predicate EntriesPackable(es: seq<Entry>)
  {
    forall i :: 0 <= i < |es| ==> |es[i].key| < TWO32 - 1 && Packable(es[i].value)
  }

  lemma {:induction false} PackAllSnoc(vs: seq<Value>, v: Value)
    requires AllPackable(vs) && Packable(v)
    ensures AllPackable(vs + [v]) && PackAll(vs + [v]) == PackAll(vs) + Pack(v)
  {
    if vs == [] {
      assert vs + [v] == [v];
    } else {
      assert (vs + [v])[1..] == vs[1..] + [v];
      PackAllSnoc(vs[1..], v);
      Assoc(Pack(vs[0]), PackAll(vs[1..]), Pack(v));
    }
  }

  lemma {:induction false} PackEntriesSnoc(es: seq<Entry>, e: Entry)
    requires EntriesPackable(es) && |e.key| < TWO32 - 1 && Packable(e.value)
    ensures EntriesPackable(es + [e]) && PackEntries(es + [e]) == PackEntries(es) + (StringBytes(e.key) + Pack(e.value))
  {
    var last := StringBytes(e.key) + Pack(e.value);
    if es == [] {
      assert es + [e] == [e];
      assert PackEntries([e]) == StringBytes(e.key) + (Pack(e.value) + []);
    } else {
      assert (es + [e])[1..] == es[1..] + [e];
      PackEntriesSnoc(es[1..], e);
      var key, first, more := StringBytes(es[0].key), Pack(es[0].value), PackEntries(es[1..]);
      assert key + (first + (more + last)) == (key + (first + more)) + last;
    }
  }

  class Packer {
    var buf: seq<Byte>
    var err: bool

    constructor (b: seq<Byte>)
      ensures buf == b && !err
    {
      buf, err := b, false;
    }

    method StructHeader(tag: Byte, num: nat)
      modifies this
      ensures num <= 0xf ==> buf == old(buf) + [0xb0 + num, tag] && err == old(err)
      ensures num > 0xf ==> buf == old(buf) && err
    {
      if num > 0x0f { err := true; return; }
      buf := buf + [0xb0 + num, tag];
    }

    method Int64(i: int)
      requires IsInt64(i)
      modifies this`buf
      ensures buf == old(buf) + IntBytes(i)
    {
      if -0x10 <= i < 0x80 {
        buf := buf + [i % 0x100];
      } else if -0x80 <= i < -0x10 {
        buf := buf + [0xc8, i % 0x100];
      } else if -0x8000 <= i < 0x8000 {
        buf := buf + ([0xc9] + TwosComplement(i, 2));
      } else if -0x8000_0000 <= i < 0x8000_0000 {
        buf := buf + ([0xca] + TwosComplement(i, 4));
      } else {
        buf := buf + ([0xcb] + TwosComplement(i, 8));
      }
    }

    /** An unsigned number that does not fit is an error, though its wrapped bytes are written. */
    method Uint64(i: nat)
      requires i < TWO64
      modifies this
      ensures buf == old(buf) + IntBytes(if IsInt64(i) then i else i - TWO64)
      ensures err == (old(err) || !IsInt64(i))
    {
      if i >= 0x8000_0000_0000_0000 {
        err := true;
        Int64(i - TWO64);
      } else {
        Int64(i);
      }
    }

    method Float64(bits: nat)
      modifies this`buf
      ensures buf == old(buf) + FloatBytes(bits)
    {
      buf := buf + ([0xc1] + BigEndian(bits, 8));
    }

    method ListHeader(l: nat, short: Byte, long: Byte)
      requires short <= 0xf0 && long <= 0xfd
      modifies this
      ensures buf == old(buf) + Header(l, short, long) && err == (old(err) || l >= TWO32 - 1)
    {
      if l < 0x10 {
        buf := buf + [short + l];
      } else if l < 0x100 {
        buf := buf + [long, l];
      } else if l < 0x1_0000 {
        buf := buf + ([long + 1] + BigEndian(l, 2));
      } else if l < TWO32 - 1 {
        buf := buf + ([long + 2] + BigEndian(l, 4));
      } else {
        err := true;
      }
    }

    method String(s: seq<Byte>)
      modifies this
      ensures buf == old(buf) + StringBytes(s) && err == (old(err) || |s| >= TWO32 - 1)
    {
      ListHeader(|s|, 0x80, 0xd0);
      buf := buf + s;
    }

    method BytesHeaderOf(l: nat) returns (ok: bool)
      modifies this`buf
      ensures buf == old(buf) + BytesHeader(l) && ok == (l < TWO32)
    {
      ok := true;
      if l < 0x100 {
        buf := buf + [0xcc, l];
      } else if l < 0x1_0000 {
        buf := buf + ([0xcd] + BigEndian(l, 2));
      } else if l < TWO32 {
        buf := buf + ([0xce] + BigEndian(l, 4));
      } else {
        ok := false;
      }
    }

    method Bytes(b: seq<Byte>)
      modifies this
      ensures |b| < TWO32 ==> buf == old(buf) + ByteArrayBytes(b) && err == old(err)
      ensures |b| >= TWO32 ==> buf == old(buf) && err
    {
      var ok := BytesHeaderOf(|b|);
      if !ok { err := true; return; }
      buf := buf + b;
    }

    /**
     * Packs a nested value. It is an error just if some length exceeds what its header can say;
     * otherwise exactly the value's bytes are appended.
     */
    method PackValue(v: Value)
      requires Typed(v)
      modifies this
      ensures Packable(v) ==> buf == old(buf) + Pack(v) && err == old(err)
      ensures !Packable(v) ==> err
      ensures old(err) ==> err
      decreases v, 2
    {
      match v
      case Nil => buf := buf + [0xc0];
      case BoolV(b) => buf := buf + [if b then 0xc3 else 0xc2];
      case IntV(i) => Int64(i);
      case FloatV(bits) => Float64(bits);
      case StrV(s) => String(s);
      case BytesV(s) => Bytes(s);
      case UuidV(u) => buf := buf + ([0xe0] + u);
      case ListV(_) => PackList(v);
      case MapV(_) => PackMap(v);
      case StructV(_, _) => PackStruct(v);
    }

    method PackList(v: Value)
      requires Typed(v) && v.ListV?
      modifies this
      ensures Packable(v) ==> buf == old(buf) + Pack(v) && err == old(err)
      ensures !Packable(v) ==> err
      ensures old(err) ==> err
      decreases v, 1
    {
      ListHeader(|v.items|, 0x90, 0xd4);
      PackItems(v, v.items);
      assert Packable(v) ==> AllPackable(v.items);
      if Packable(v) { Assoc(old(buf), Header(|v.items|, 0x90, 0xd4), PackAll(v.items)); }
    }

    method PackMap(v: Value)
      requires Typed(v) && v.MapV?
      modifies this
      ensures Packable(v) ==> buf == old(buf) + Pack(v) && err == old(err)
      ensures !Packable(v) ==> err
      ensures old(err) ==> err
      decreases v, 1
    {
      ListHeader(|v.entries|, 0xa0, 0xd8);
      PackMapEntries(v, v.entries);
      assert Packable(v) ==> EntriesPackable(v.entries);
      if Packable(v) { Assoc(old(buf), Header(|v.entries|, 0xa0, 0xd8), PackEntries(v.entries)); }
    }

    method PackStruct(v: Value)
      requires Typed(v) && v.StructV?
      modifies this
      ensures Packable(v) ==> buf == old(buf) + Pack(v) && err == old(err)
      ensures !Packable(v) ==> err
      ensures old(err) ==> err
      decreases v, 1
    {
      StructHeader(v.tag, |v.fields|);
      PackItems(v, v.fields);
      assert Packable(v) ==> AllPackable(v.fields);
      if Packable(v) { Assoc(old(buf), [0xb0 + |v.fields|, v.tag], PackAll(v.fields)); }
    }

    method PackItems(ghost parent: Value, vs: seq<Value>)
      requires forall i :: 0 <= i < |vs| ==> Typed(vs[i]) && vs[i] < parent
      modifies this
      ensures AllPackable(vs) ==> buf == old(buf) + PackAll(vs) && err == old(err)
      ensures !AllPackable(vs) ==> err
      ensures old(err) ==> err
      decreases parent, 0
    {
      for i := 0 to |vs|
        invariant AllPackable(vs[..i]) ==> buf == old(buf) + PackAll(vs[..i]) && err == old(err)
        invariant !AllPackable(vs[..i]) ==> err
        invariant old(err) ==> err
      {
        assert vs[..i + 1] == vs[..i] + [vs[i]];
        ghost var before := buf;
        PackValue(vs[i]);
        if AllPackable(vs[..i]) && Packable(vs[i]) {
          PackAllSnoc(vs[..i], vs[i]);
          Assoc(old(buf), PackAll(vs[..i]), Pack(vs[i]));
        } else {
          assert !AllPackable(vs[..i]) ==> err;
          assert !AllPackable(vs[..i + 1]) by { NotAllPackable(vs[..i], vs[i]); }
        }
      }
      assert vs[..|vs|] == vs;
    }

    method PackMapEntries(ghost parent: Value, es: seq<Entry>)
      requires forall i :: 0 <= i < |es| ==> Typed(es[i].value) && es[i].value < parent
      modifies this
      ensures EntriesPackable(es) ==> buf == old(buf) + PackEntries(es) && err == old(err)
      ensures !EntriesPackable(es) ==> err
      ensures old(err) ==> err
      decreases parent, 0
    {
      for i := 0 to |es|
        invariant EntriesPackable(es[..i]) ==> buf == old(buf) + PackEntries(es[..i]) && err == old(err)
        invariant !EntriesPackable(es[..i]) ==> err
        invariant old(err) ==> err
      {
        assert es[..i + 1] == es[..i] + [es[i]];
        String(es[i].key);
        PackValue(es[i].value);
        if EntriesPackable(es[..i]) && |es[i].key| < TWO32 - 1 && Packable(es[i].value) {
          PackEntriesSnoc(es[..i], es[i]);
          Assoc(old(buf) + PackEntries(es[..i]), StringBytes(es[i].key), Pack(es[i].value));
          Assoc(old(buf), PackEntries(es[..i]), StringBytes(es[i].key) + Pack(es[i].value));
        } else {
          assert !EntriesPackable(es[..i + 1]) by { NotEntriesPackable(es[..i], es[i]); }
        }
      }
      assert es[..|es|] == es;
    }
  }

  lemma {:induction false} NotAllPackable(vs: seq<Value>, v: Value)
    requires !(AllPackable(vs) && Packable(v))
    ensures !AllPackable(vs + [v])
  {
    if AllPackable(vs + [v]) {
      assert (vs + [v])[|vs|] == v;
      forall i | 0 <= i < |vs| ensures Packable(vs[i]) { assert (vs + [v])[i] == vs[i]; }
    }
  }

  lemma {:induction false} NotEntriesPackable(es: seq<Entry>, e: Entry)
    requires !(EntriesPackable(es) && |e.key| < TWO32 - 1 && Packable(e.value))
    ensures !EntriesPackable(es + [e])
  {
    if EntriesPackable(es + [e]) {
      assert (es + [e])[|es|] == e;
      forall i | 0 <= i < |es| ensures |es[i].key| < TWO32 - 1 && Packable(es[i].value) { assert (es + [e])[i] == es[i]; }
    }
  }

  // ---------------------------------------------------------------------------------------------
  // unpacker.go
  // ---------------------------------------------------------------------------------------------

  /**
   * The bounds test on a wrapped sum accepts a field that does not fit just if the sum wraps, which
   * is possible only in a buffer that NoWrap excludes.
   */
  lemma {:induction false} WrappedTest(off: nat, n: nat, len: nat)
    requires off <= len < TWO32 && n <= 8
    ensures ((off + n) % TWO32 <= len && off + n > len) <==> off + n >= TWO32
    ensures len + 8 < TWO32 ==> off + n < TWO32
  {
  }

  lemma {:induction false} SliceOf(buf: seq<Byte>, off: nat, n: nat, len: nat)
    requires off + n <= len <= |buf|
    ensures buf[off..len][n..] == buf[off + n..len] && buf[off..len][..n] == buf[off..off + n]
  {
  }

  /** The marker table as it is filled in once at the start. */
  method FillMarkers() returns (markers: array<Marker>)
    ensures markers.Length == 0x100 && forall b :: 0 <= b < 0x100 ==> markers[b] == MarkerOf(b)
  {
    markers := new Marker[0x100](_ => Marker(Undef, 0, 0));
    FillTinyInts(markers);
    FillRange(markers, 0x80, StrT);
    FillRange(markers, 0x90, ArrayT);
    FillRange(markers, 0xa0, MapT);
    FillRange(markers, 0xb0, StructT);
    FillFixed(markers);
    FillIntsAndBytes(markers);
    FillSized(markers);
    var i := 0xf0;
    while i < 0x100
      invariant 0xf0 <= i <= 0x100 && FilledTo(markers, i)
    {
      markers[i] := Marker(IntT, i - 0x100, 0);
      i := i + 1;
    }
  }

  method FillTinyInts(markers: array<Marker>)
    requires markers.Length == 0x100 && FilledTo(markers, 0)
    modifies markers
    ensures FilledTo(markers, 0x80)
  {
    var i := 0;
    while i < 0x80
      invariant 0 <= i <= 0x80 && FilledTo(markers, i)
    {
      markers[i] := Marker(IntT, i, 0);
      i := i + 1;
    }
  }

  /** Sixteen markers that carry the length themselves. */
  method FillRange(markers: array<Marker>, start: nat, typ: Type)
    requires markers.Length == 0x100 && FilledTo(markers, start)
    requires (start == 0x80 && typ == StrT) || (start == 0x90 && typ == ArrayT) || (start == 0xa0 && typ == MapT) || (start == 0xb0 && typ == StructT)
    modifies markers
    ensures FilledTo(markers, start + 0x10)
  {
    var i := start;
    while i < start + 0x10
      invariant start <= i <= start + 0x10 && FilledTo(markers, i)
    {
      markers[i] := Marker(typ, i - start, 0);
      i := i + 1;
    }
  }

  /** The table is right below `k` and blank from there on. */
  predicate FilledTo(markers: array<Marker>, k: nat)
    requires markers.Length == 0x100
    reads markers
  {
    forall b :: 0 <= b < 0x100 ==> markers[b] == if b < k then MarkerOf(b) else Marker(Undef, 0, 0)
  }

  method FillFixed(markers: array<Marker>)
    requires markers.Length == 0x100 && FilledTo(markers, 0xc0)
    modifies markers
    ensures FilledTo(markers, 0xc8)
  {
    markers[0xc0] := Marker(NilT, 0, 0);
    markers[0xc1] := Marker(FloatT, 0, 8);
    markers[0xc2] := Marker(FalseT, 0, 0);
    markers[0xc3] := Marker(TrueT, 0, 0);
  }

  method FillIntsAndBytes(markers: array<Marker>)
    requires markers.Length == 0x100 && FilledTo(markers, 0xc8)
    modifies markers
    ensures FilledTo(markers, 0xd0)
  {
    markers[0xc8] := Marker(IntT, 0, 1);
    markers[0xc9] := Marker(IntT, 0, 2);
    markers[0xca] := Marker(IntT, 0, 4);
    markers[0xcb] := Marker(IntT, 0, 8);
    markers[0xcc] := Marker(ByteArrayT, 0, 1);
    markers[0xcd] := Marker(ByteArrayT, 0, 2);
    markers[0xce] := Marker(ByteArrayT, 0, 4);
  }

  method FillSized(markers: array<Marker>)
    requires markers.Length == 0x100 && FilledTo(markers, 0xd0)
    modifies markers
    ensures FilledTo(markers, 0xf0)
  {
    markers[0xd0] := Marker(StrT, 0, 1);
    markers[0xd1] := Marker(StrT, 0, 2);
    markers[0xd2] := Marker(StrT, 0, 4);
    markers[0xd4] := Marker(ArrayT, 0, 1);
    markers[0xd5] := Marker(ArrayT, 0, 2);
    markers[0xd6] := Marker(ArrayT, 0, 4);
    markers[0xd8] := Marker(MapT, 0, 1);
    markers[0xd9] := Marker(MapT, 0, 2);
    markers[0xda] := Marker(MapT, 0, 4);
    markers[0xe0] := Marker(UuidT, 0, 0);
  }

  /** What reading comes to, with `vs` read already and `k` more to come from `c`. */
  ghost function AllFrom(vs: seq<Value>, c: Cursor, k: nat): (seq<Value>, Cursor)
  {
    (vs + ReadAll(c, k).0, ReadAll(c, k).1)
  }

  lemma {:induction false} AllFromEnds(vs: seq<Value>, c: Cursor, k: nat)
    ensures AllFrom(vs, c, 0) == (vs, c) && AllFrom([], c, k) == ReadAll(c, k)
  {
    assert vs + [] == vs && [] + ReadAll(c, k).0 == ReadAll(c, k).0;
  }

  lemma {:induction false} AllFromStep(vs: seq<Value>, c: Cursor, k: nat, v: Value, d: Cursor)
    requires k > 0 && ReadValue(Next(c)) == (v, d)
    ensures AllFrom(vs + [v], d, k - 1) == AllFrom(vs, c, k)
  {
    assert vs + ([v] + ReadAll(d, k - 1).0) == (vs + [v]) + ReadAll(d, k - 1).0;
  }

  ghost function EntriesFrom(es: seq<Entry>, c: Cursor, k: nat): (seq<Entry>, Cursor)
  {
    (es + ReadEntries(c, k).0, ReadEntries(c, k).1)
  }

  lemma {:induction false} EntriesFromEnds(goal: (seq<Entry>, Cursor), es: seq<Entry>, c: Cursor, n: nat)
    ensures EntriesFrom(es, c, 0) == goal ==> goal == (es, c)
    ensures EntriesFrom([], c, n) == ReadEntries(c, n)
  {
    assert es + [] == es && [] + ReadEntries(c, n).0 == ReadEntries(c, n).0;
  }

  lemma {:induction false} EntriesFromStep(goal: (seq<Entry>, Cursor), es: seq<Entry>, c: Cursor, k: nat, e: Entry, d: Cursor)
    requires k > 0 && ReadEntry(c) == (e, d) && EntriesFrom(es, c, k) == goal
    ensures EntriesFrom(es + [e], d, k - 1) == goal && (ReadEntry(c).1.err ==> goal.1.err)
  {
    assert es + ([e] + ReadEntries(d, k - 1).0) == (es + [e]) + ReadEntries(d, k - 1).0;
  }

  class Unpacker {
    var buf: seq<Byte>
    var off: nat
    var len: nat
    var mrk: Marker
    var err: bool

    ghost predicate Valid()
      reads this
    {
      len == |buf| % TWO32 && off <= len && -0x10 <= mrk.shortlen < 0x80 && mrk.numlenbytes <= 8
    }

    ghost function Abs(): Cursor
      requires Valid()
      reads this
    {
      VisibleLength(|buf|);
      Cursor(buf[off..len], err, mrk)
    }

    /** No offset wraps around: because none can, or because what is being read does not run out. */
    ghost predicate Sure(runsOut: bool)
      reads this
    {
      NoWrap(buf) || !runsOut
    }

    constructor (b: seq<Byte>)
      ensures buf == b && off == 0 && !err && len == |b| % TWO32
      ensures Valid() && Abs() == Start(Visible(b))
    {
      VisibleLength(|b|);
      buf, off, len, err, mrk := b, 0, |b| % TWO32, false, Marker(Undef, 0, 0);
    }

    method DoPop() returns (x: Byte)
      requires Valid()
      modifies this`off, this`err
      ensures Valid() && (x, Abs()) == Pop(old(Abs()))
    {
      VisibleLength(|buf|);
      if off < len {
        x := buf[off];
        off := (off + 1) % TWO32;
        SliceOf(buf, old(off), 1, len);
      } else {
        err := true;
        x := 0;
      }
    }

    method DoNext()
      requires Valid()
      modifies this`off, this`err, this`mrk
      ensures Valid() && Abs() == Next(old(Abs()))
    {
      var i := DoPop();
      mrk := MarkerOf(i);
    }

    method DoRead(n: nat) returns (b: seq<Byte>)
      requires Valid() && n < TWO32
      modifies this`off, this`err
      ensures Valid() && (b, Abs()) == Read(old(Abs()), n)
    {
      VisibleLength(|buf|);
      var start := off;
      var end := (off + n) % TWO32;
      if n > len - off {
        err := true;
        return [];
      }
      off := end;
      b := buf[start..end];
      SliceOf(buf, start, n, len);
    }

    method DoReadLen(n: nat) returns (l: nat)
      requires Valid() && n <= 8 && Sure(ReadLen(Abs(), n).1.err)
      modifies this`off, this`err
      ensures Valid() && (l, Abs()) == ReadLen(old(Abs()), n)
    {
      VisibleLength(|buf|);
      assert off + n < TWO32;
      ModOnce(off + n, TWO32);
      var end := (off + n) % TWO32;
      if end > len {
        err := true;
        return 0;
      }
      l := 0;
      if n == 1 || n == 2 || n == 4 { l := FromBigEndian(buf[off..end]); } else { err := true; }
      SliceOf(buf, off, n, len);
      off := end;
    }

    method DoLen() returns (l: nat)
      requires Valid() && Sure(Len(Abs()).1.err)
      modifies this`off, this`err
      ensures Valid() && (l, Abs()) == Len(old(Abs())) && l < TWO32
    {
      if mrk.numlenbytes == 0 { ModOnce(mrk.shortlen, TWO32); return mrk.shortlen % TWO32; }
      l := DoReadLen(mrk.numlenbytes);
    }

    method DoInt() returns (i: int)
      requires Valid() && Sure(Int(Abs()).1.err)
      modifies this`off, this`err
      ensures Valid() && (i, Abs()) == Int(old(Abs()))
    {
      var n := mrk.numlenbytes;
      if n == 0 { return mrk.shortlen; }
      VisibleLength(|buf|);
      assert off + n < TWO32;
      ModOnce(off + n, TWO32);
      var end := (off + n) % TWO32;
      if end > len {
        err := true;
        return 0;
      }
      if n == 1 || n == 2 || n == 4 || n == 8 {
        i := Signed(buf[off..end]);
        SliceOf(buf, off, n, len);
        off := end;
      } else {
        err := true;
        i := 0;
      }
    }

    method DoStr() returns (s: seq<Byte>)
      requires Valid() && Sure(Str(Abs()).1.err)
      modifies this`off, this`err
      ensures Valid() && (s, Abs()) == Str(old(Abs()))
    {
      var n := mrk.numlenbytes;
      if n == 0 { ModOnce(mrk.shortlen, TWO32); n := mrk.shortlen % TWO32; } else { n := DoReadLen(n); }
      s := DoRead(n);
    }

    method DoFloat() returns (bits: nat)
      requires Valid()
      modifies this`off, this`err
      ensures Valid() && (bits, Abs()) == Float(old(Abs()))
    {
      var b := DoRead(8);
      if err { return NAN; }
      bits := FromBigEndian(b);
    }

    method DoUuid() returns (u: seq<Byte>)
      requires Valid()
      modifies this`off, this`err
      ensures Valid() && (u, Abs()) == Uuid(old(Abs()))
    {
      var b := DoRead(16);
      u := b + ZERO_UUID[|b|..];
      assert |b| == 16 ==> u == b;
      assert |b| == 0 ==> u == ZERO_UUID;
    }

    /** The generic reader: the value whose marker was just read. */
    method DoValue() returns (v: Value)
      requires Valid() && Sure(ReadValue(Abs()).1.err)
      modifies this`off, this`err, this`mrk
      ensures Valid() && (v, Abs()) == ReadValue(old(Abs()))
      decreases len - off, if Container(mrk.typ) then 2 * TWO32 else 0
    {
      match mrk.typ
      case NilT => v := Nil;
      case TrueT => v := BoolV(true);
      case FalseT => v := BoolV(false);
      case IntT => var i := DoInt(); v := IntV(i);
      case FloatT => var f := DoFloat(); v := FloatV(f);
      case StrT => var s := DoStr(); v := StrV(s);
      case ByteArrayT => var n := DoLen(); var s := DoRead(n); v := BytesV(s);
      case UuidT => var u := DoUuid(); v := UuidV(u);
      case ArrayT => var n := DoLen(); var vs := DoArray(n); v := ListV(vs);
      case MapT => var n := DoLen(); var es := DoMap(n); v := MapV(es);
      case StructT => var tag := DoPop(); var n := DoLen(); var vs := DoArray(n); v := StructV(tag, vs);
      case Undef => err := true; v := Nil;
    }

    method DoArray(n: nat) returns (vs: seq<Value>)
      requires Valid() && Sure(ReadAll(Abs(), n).1.err)
      modifies this`off, this`err, this`mrk
      ensures Valid() && (vs, Abs()) == ReadAll(old(Abs()), n)
      decreases len - off, n
    {
      vs := [];
      ghost var c := Abs();
      AllFromEnds(vs, c, n);
      var k: nat := n;
      while k > 0
        invariant Valid() && k <= n && buf == old(buf) && len == old(len) && off >= old(off)
        invariant c == Abs() && AllFrom(vs, c, k) == ReadAll(old(Abs()), n) && Sure(ReadAll(Abs(), k).1.err)
      {
        DoNext();
        var v := DoValue();
        AllFromStep(vs, c, k, v, Abs());
        c := Abs();
        vs := vs + [v];
        k := k - 1;
      }
      AllFromEnds(vs, c, n);
    }

    method DoEntry() returns (e: Entry)
      requires Valid() && Sure(ReadEntry(Abs()).1.err)
      modifies this`off, this`err, this`mrk
      ensures Valid() && (e, Abs()) == ReadEntry(old(Abs()))
      decreases len - off, 1
    {
      DoNext();
      var key := DoStr();
      DoNext();
      var v := DoValue();
      e := Entry(key, v);
    }

    method DoMap(n: nat) returns (es: seq<Entry>)
      requires Valid() && Sure(ReadEntries(Abs(), n).1.err)
      modifies this`off, this`err, this`mrk
      ensures Valid() && (es, Abs()) == ReadEntries(old(Abs()), n)
      decreases len - off, n + 1
    {
      es := [];
      ghost var c, goal := Abs(), ReadEntries(Abs(), n);
      EntriesFromEnds(goal, es, c, n);
      var k: nat := n;
      while k > 0
        invariant Valid() && k <= n && buf == old(buf) && len == old(len) && off >= old(off)
        invariant c == Abs() && EntriesFrom(es, c, k) == goal
      {
        EntriesFromStep(goal, es, c, k, ReadEntry(c).0, ReadEntry(c).1);
        var e := DoEntry();
        c := Abs();
        es := es + [e];
        k := k - 1;
      }
      EntriesFromEnds(goal, es, c, n);
    }
  }

  /**
   * Packing and unpacking. What is packed into less than 4 GiB comes back; beyond that the unpacker
   * sees only what its length says in 32 bits, and runs out.
   */
  method PackThenUnpack(v: Value) returns (packed: bool, runsOut: bool, w: Value)
    requires Typed(v) && (Packable(v) && |Pack(v)| >= TWO32 ==> NoWrap(Pack(v)))
    ensures packed <==> Packable(v)
    ensures packed ==> (runsOut <==> |Pack(v)| >= TWO32) && (!runsOut ==> w == v)
  {
    var p := new Packer([]);
    p.PackValue(v);
    if p.err { return false, false, Nil; }
    assert p.buf == Pack(v);
    var u := new Unpacker(p.buf);
    if |Pack(v)| < TWO32 {
      assert Pack(v) + [] == Pack(v);
      PackRoundTrip(v, [], u.mrk);
    } else {
      ProperPrefixRunsOut(v, |Visible(p.buf)|, u.mrk);
    }
    u.DoNext();
    w := u.DoValue();
    packed, runsOut := true, u.err;
  }
}
