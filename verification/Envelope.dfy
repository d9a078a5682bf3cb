/**
 * The Encrypted structure (structure.go): what is handed to the user in place of an encrypted value,
 * its metadata ordered by key, and the loops of both decoders on bytes of unknown origin.
 */
module Envelope {
  import opened Bytes
  import opened PackStream
  import opened PropertyScheme
  import opened PropertyCodec
  import Buffers = PackStreamBuffers

  type Key = seq<Byte>

  // ---------------------------------------------------------------------------------------------
  // Keys in order
  // ---------------------------------------------------------------------------------------------

  predicate Less(a: Key, b: Key)
  {
    if b == [] then false
    else if a == [] then true
    else if a[0] != b[0] then a[0] < b[0]
    else Less(a[1..], b[1..])
  }

  lemma {:induction false} LessTotal(a: Key, b: Key)
    ensures a == b || Less(a, b) || Less(b, a)
    ensures !Less(a, a) && !(Less(a, b) && Less(b, a))
  {
    if a != [] && b != [] {
      LessTotal(a[1..], b[1..]);
      assert a == [a[0]] + a[1..] && b == [b[0]] + b[1..];
    }
    if a != [] { LessTotal(a[1..], a[1..]); }
  }

  lemma {:induction false} LessTransitive(a: Key, b: Key, c: Key)
    requires Less(a, b) && Less(b, c)
    ensures Less(a, c)
  {
    if a != [] && a[0] == b[0] && b[0] == c[0] { LessTransitive(a[1..], b[1..], c[1..]); }
  }

  predicate Sorted(keys: seq<Key>)
  {
    forall i, j :: 0 <= i < j < |keys| ==> Less(keys[i], keys[j])
  }

  ghost predicate SortedKeys(keys: seq<Key>, s: set<Key>)
  {
    Sorted(keys) && forall k :: k in keys <==> k in s
  }

  /** A set of keys has only one ordering, so the bytes are determined by the structure. */
  lemma {:induction false} OneOrdering(a: seq<Key>, b: seq<Key>, s: set<Key>)
    requires SortedKeys(a, s) && SortedKeys(b, s)
    ensures a == b
    decreases |a|
  {
    if a == [] {
      SortedLength(a, s);
      SortedLength(b, s);
    } else {
      assert a[0] in a;
      var j :| 0 <= j < |b| && b[j] == a[0];
      assert b[0] in b;
      var i :| 0 <= i < |a| && a[i] == b[0];
      LessTotal(a[0], b[0]);
      assert a[0] == b[0];
      DropFirst(a, s);
      DropFirst(b, s);
      OneOrdering(a[1..], b[1..], s - {a[0]});
      assert a == [a[0]] + a[1..] && b == [b[0]] + b[1..];
    }
  }

  lemma {:induction false} DropFirst(a: seq<Key>, s: set<Key>)
    requires a != [] && SortedKeys(a, s)
    ensures SortedKeys(a[1..], s - {a[0]})
  {
    assert forall k :: k in a <==> k == a[0] || k in a[1..];
    LessTotal(a[0], a[0]);
    assert a[0] !in a[1..];
  }

  method Insert(keys: seq<Key>, k: Key) returns (r: seq<Key>)
    requires Sorted(keys) && k !in keys
    ensures Sorted(r) && forall x :: x in r <==> x in keys || x == k
  {
    var i := 0;
    while i < |keys| && Less(keys[i], k)
      invariant 0 <= i <= |keys| && forall j :: 0 <= j < i ==> Less(keys[j], k)
    {
      i := i + 1;
    }
    r := keys[..i] + [k] + keys[i..];
    forall j | i <= j < |keys| ensures Less(k, keys[j]) {
      assert keys[i] in keys;
      LessTotal(keys[i], k);
      if j > i { LessTransitive(k, keys[i], keys[j]); }
    }
    assert forall x :: x in keys <==> x in keys[..i] || x in keys[i..];
  }

  method SortKeys(s: set<Key>) returns (keys: seq<Key>)
    ensures SortedKeys(keys, s)
  {
    keys := [];
    var rest := s;
    while rest != {}
      invariant rest <= s && Sorted(keys) && forall k :: k in keys <==> k in s && k !in rest
      decreases |rest|
    {
      var k :| k in rest;
      keys := Insert(keys, k);
      rest := rest - {k};
    }
  }

  // ---------------------------------------------------------------------------------------------
  // The structure and its bytes
  // ---------------------------------------------------------------------------------------------

  /** `MOther` is an entry of a type the format has no place for. */
  datatype Meta = MStr(s: seq<Byte>) | MBytes(s: seq<Byte>) | MInt(i: int) | MOther

  datatype Encrypted = Encrypted(
    profileType: seq<Byte>, profileVersion: int, profileName: seq<Byte>, cipherOutput: seq<Byte>,
    typeName: seq<Byte>, baseline: Version, metadata: map<Key, Meta>)

  const FORMAT_VERSION: Byte := 0x01
  const TAG: Byte := 0x65
  const FIELDS := 8
  const ENVELOPE: seq<Byte> := [0x45, 0x4e, 0x56, 0x45, 0x4c, 0x4f, 0x50, 0x45]

  function MetaValue(m: Meta): Value
  {
    match m case MStr(s) => StrV(s) case MBytes(s) => BytesV(s) case MInt(i) => IntV(i) case MOther => Nil
  }

  function Entries(md: map<Key, Meta>, keys: seq<Key>): (es: seq<Entry>)
    requires forall k :: k in keys ==> k in md
    ensures |es| == |keys| && forall i :: 0 <= i < |keys| ==> es[i] == Entry(keys[i], MetaValue(md[keys[i]]))
  {
    if keys == [] then [] else [Entry(keys[0], MetaValue(md[keys[0]]))] + Entries(md, keys[1..])
  }

  function Fixed(e: Encrypted): seq<Value>
  {
    [StrV(e.profileType), IntV(e.profileVersion), StrV(e.profileName), BytesV(e.cipherOutput),
     StrV(e.typeName), IntV(e.baseline.major), IntV(e.baseline.minor)]
  }

  predicate EntryFits(k: Key, m: Meta)
  {
    |k| < TWO32 - 1 && Packable(MetaValue(m))
  }

  /** The lengths fit their headers. */
  predicate Fits(e: Encrypted)
  {
    && (forall i :: 0 <= i < |Fixed(e)| ==> Packable(Fixed(e)[i]))
    && |e.metadata| < TWO32 - 1 && forall k :: k in e.metadata ==> EntryFits(k, e.metadata[k])
  }

  predicate KnownEntries(e: Encrypted)
  {
    forall k :: k in e.metadata ==> !e.metadata[k].MOther?
  }

  function MapBytes(md: map<Key, Meta>, keys: seq<Key>): seq<Byte>
    requires forall k :: k in keys ==> k in md && EntryFits(k, md[k])
  {
    var es := Entries(md, keys);
    assert forall i :: 0 <= i < |es| ==> keys[i] in keys && EntryFits(keys[i], md[keys[i]]);
    Header(|keys|, 0xa0, 0xd8) + PackEntries(es)
  }

  function EnvelopeBytes(e: Encrypted, keys: seq<Key>): seq<Byte>
    requires Fits(e) && SortedKeys(keys, e.metadata.Keys)
  {
    [FORMAT_VERSION] + ([0xb0 + FIELDS, TAG] + (PackAll(Fixed(e)) + MapBytes(e.metadata, keys)))
  }

  // ---------------------------------------------------------------------------------------------
  // DecodeEncrypted
  // ---------------------------------------------------------------------------------------------

  datatype Opened = Opened(e: Encrypted) | NotEncrypted | UnsupportedProfile(typ: seq<Byte>, version: int)

  function MetaAfter(c: Cursor): (r: (Option<Meta>, Cursor))
    requires GoodMarker(c)
    ensures |r.1.rest| <= |c.rest| && (c.err ==> r.1.err)
  {
    match c.mrk.typ
    case StrT => var (s, d) := Str(c); (Some(MStr(s)), d)
    case ByteArrayT => var (s, d) := ByteArray(c); (Some(MBytes(s)), d)
    case IntT => var (i, d) := Int(c); (Some(MInt(i)), d)
    case _ => (None, c)
  }

  /** The loop over the entries, up to the first that fails. */
  function MetaEntries(d: Dec, n: nat, md: map<Key, Meta>): (r: (map<Key, Meta>, Dec))
    ensures |r.1.c.rest| <= |d.c.rest| && (d.err.Some? ==> r.1.err.Some?) && (d.c.err ==> r.1.c.err)
    decreases n
  {
    if n == 0 then (md, d) else
    var (key, e) := FieldStr(d);
    if e.err.Some? then (md, e) else
    var (v, c) := MetaAfter(Next(e.c));
    if v.None? then (md, Fail(e.(c := c), Malformed)) else
    MetaEntries(e.(c := c), n - 1, md[key := v.value])
  }

  function Metadata(d: Dec): (r: (map<Key, Meta>, Dec))
    ensures (d.err.Some? ==> r.1.err.Some?) && (d.c.err ==> r.1.c.err)
  {
    var c := Next(d.c);
    if !c.mrk.typ.MapT? then (map[], Fail(d.(c := c), Malformed)) else
    var (n, c') := Len(c);
    if c'.err then (map[], d.(c := c')) else MetaEntries(d.(c := c'), n, map[])
  }

  /** What is read once the profile is known to be the one this driver implements. */
  function ReadRest(d: Dec, typ: seq<Byte>, version: int): (r: (Encrypted, Dec))
    ensures Fine(r.1) ==> Fine(d)
  {
    var (name, e) := FieldStr(d);
    var (cipher, f) := FieldBytes(e);
    var (typeName, g) := FieldStr(f);
    var (major, h) := FieldInt(g);
    var (minor, i) := FieldInt(h);
    var (md, j) := Metadata(i);
    (Encrypted(typ, version, name, cipher, typeName, Version(major, minor), md), j)
  }

  function OpenRest(d: Dec, typ: seq<Byte>, version: int): Opened
  {
    var (e, j) := ReadRest(d, typ, version);
    if j.err.Some? || j.c.err then NotEncrypted else Opened(e)
  }

  function OpenStructure(d: Dec): Opened
  {
    var c := Next(d.c);
    if !c.mrk.typ.StructT? then NotEncrypted else
    var (tag, c') := Pop(c);
    if tag != TAG then NotEncrypted else
    var (n, c'') := Len(c');
    if n != FIELDS then NotEncrypted else
    var (typ, e) := FieldStr(d.(c := c''));
    var (version, f) := FieldInt(e);
    if f.err.Some? then NotEncrypted
    else if typ != ENVELOPE || version != 1 then UnsupportedProfile(typ, version)
    else OpenRest(f, typ, version)
  }

  function DecodeEncrypted(value: seq<Byte>): Opened
  {
    if value == [] || value[0] != FORMAT_VERSION then NotEncrypted
    else OpenStructure(Dec(Start(Visible(value[1..])), None))
  }

  // ---------------------------------------------------------------------------------------------
  // Round trip
  // ---------------------------------------------------------------------------------------------

  lemma {:induction false} MetaBack(m: Meta, tail: seq<Byte>, mrk: Marker)
    requires !m.MOther? && Packable(MetaValue(m))
    ensures var c := Next(Cursor(Pack(MetaValue(m)) + tail, false, mrk)); MetaAfter(c) == (Some(m), Cursor(tail, false, c.mrk))
  {
    match m {
      case MStr(s) => StringRoundTrip(s, tail, mrk);
      case MBytes(s) => ByteArrayRoundTrip(s, tail, mrk);
      case MInt(i) => IntRoundTrip(i, tail, mrk);
    }
  }

  /** The entries of `md` under `keys`, added to `acc` in turn. */
  function Collected(md: map<Key, Meta>, keys: seq<Key>, acc: map<Key, Meta>): map<Key, Meta>
    requires forall k :: k in keys ==> k in md
  {
    if keys == [] then acc else Collected(md, keys[1..], acc[keys[0] := md[keys[0]]])
  }

  lemma {:induction false} CollectedAll(md: map<Key, Meta>, keys: seq<Key>, acc: map<Key, Meta>)
    requires (forall k :: k in keys ==> k in md) && (forall k :: k in acc ==> k in md && acc[k] == md[k])
    requires forall k :: k in md ==> k in acc || k in keys
    ensures Collected(md, keys, acc) == md
    decreases |keys|
  {
    if keys == [] {
      assert acc == md;
    } else {
      assert forall k :: k in keys <==> k == keys[0] || k in keys[1..];
      CollectedAll(md, keys[1..], acc[keys[0] := md[keys[0]]]);
    }
  }

  predicate EntriesFit(md: map<Key, Meta>, keys: seq<Key>)
  {
    forall k :: k in keys ==> k in md && EntryFits(k, md[k]) && !md[k].MOther?
  }

  lemma {:induction false} EntriesBack(md: map<Key, Meta>, keys: seq<Key>, acc: map<Key, Meta>, tail: seq<Byte>, m: Marker)
    requires EntriesFit(md, keys)
    ensures var r := MetaEntries(At(PackEntries(Entries(md, keys)) + tail, m), |keys|, acc);
            r == (Collected(md, keys, acc), At(tail, r.1.c.mrk))
    decreases |keys|
  {
    if keys == [] {
      assert PackEntries([]) + tail == tail;
    } else {
      var k, v := keys[0], MetaValue(md[keys[0]]);
      assert k in keys;
      var more := PackEntries(Entries(md, keys[1..])) + tail;
      var d := At(PackEntries(Entries(md, keys)) + tail, m);
      assert Entries(md, keys)[1..] == Entries(md, keys[1..]);
      assert d.c.rest == Pack(StrV(k)) + (Pack(v) + more) by { EntriesCons(Entries(md, keys), tail); }
      StrField(k, Pack(v) + more, m);
      var e := FieldStr(d).1;
      MetaBack(md[k], more, e.c.mrk);
      var c := MetaAfter(Next(e.c)).1;
      assert forall x :: x in keys[1..] ==> x in keys;
      EntriesBack(md, keys[1..], acc[k := md[k]], tail, c.mrk);
    }
  }

  lemma {:induction false} EntriesCons(es: seq<Entry>, tail: seq<Byte>)
    requires es != [] && Buffers.EntriesPackable(es)
    ensures PackEntries(es) + tail == Pack(StrV(es[0].key)) + (Pack(es[0].value) + (PackEntries(es[1..]) + tail))
  {
    var a, b, c := StringBytes(es[0].key), Pack(es[0].value), PackEntries(es[1..]);
    Assoc(a, b + c, tail);
    Assoc(b, c, tail);
  }

  lemma {:induction false} SortedLength(keys: seq<Key>, s: set<Key>)
    requires SortedKeys(keys, s)
    ensures |keys| == |s|
    decreases |keys|
  {
    if keys == [] {
      assert forall k :: k in s ==> k in keys;
      assert s == {};
    } else {
      assert keys[0] in keys;
      DropFirst(keys, s);
      SortedLength(keys[1..], s - {keys[0]});
    }
  }

  lemma {:induction false} MetadataBack(md: map<Key, Meta>, keys: seq<Key>, tail: seq<Byte>, m: Marker)
    requires SortedKeys(keys, md.Keys) && EntriesFit(md, keys) && |md| < TWO32 - 1
    ensures var r := Metadata(At(MapBytes(md, keys) + tail, m)); r == (md, At(tail, r.1.c.mrk))
  {
    SortedLength(keys, md.Keys);
    var body := PackEntries(Entries(md, keys));
    Assoc(Header(|keys|, 0xa0, 0xd8), body, tail);
    HeaderRoundTrip(|keys|, 0xa0, 0xd8, MapT, body + tail, m);
    EntriesBack(md, keys, map[], tail, Next(Cursor(MapBytes(md, keys) + tail, false, m)).mrk);
    CollectedAll(md, keys, map[]);
  }

  lemma {:induction false} FirstStr(b: seq<Byte>, vs: seq<Value>, tail: seq<Byte>, m: Marker)
    requires |b| < TWO32 - 1 && forall k :: 0 <= k < |vs| ==> Packable(vs[k])
    ensures var r := FieldStr(At(PackAll([StrV(b)] + vs) + tail, m)); r.0 == b && Good(r.1, PackAll(vs) + tail)
  {
    Cons(StrV(b), vs, tail);
    StrField(b, PackAll(vs) + tail, m);
  }

  /** Those bytes are the structure's metadata and nothing more. */
  ghost predicate MetadataReads(e: Encrypted, md: seq<Byte>)
  {
    forall m :: Metadata(At(md, m)) == (e.metadata, At([], Metadata(At(md, m)).1.c.mrk))
  }

  /** The five fields after the profile, and the metadata. */
  lemma {:induction false} RestBack(e: Encrypted, md: seq<Byte>, m: Marker)
    requires Fits(e)
    requires MetadataReads(e, md)
    ensures var r := ReadRest(At(PackAll(Fixed(e)[2..]) + md, m), e.profileType, e.profileVersion); r == (e, At([], r.1.c.mrk))
  {
    var vs := Fixed(e);
    FiveFields(e.profileName, e.cipherOutput, e.typeName, e.baseline.major, e.baseline.minor, md, m)
      by { FixedFit(e); }
    assert vs[2..] == [vs[2], vs[3], vs[4], vs[5], vs[6]];
  }

  lemma {:induction false} FixedFit(e: Encrypted)
    requires Fits(e)
    ensures |e.profileType| < TWO32 - 1 && IsInt64(e.profileVersion) && |e.profileName| < TWO32 - 1 && |e.cipherOutput| < TWO32
    ensures |e.typeName| < TWO32 - 1 && IsInt64(e.baseline.major) && IsInt64(e.baseline.minor)
  {
    var vs := Fixed(e);
    assert Packable(vs[0]) && Packable(vs[1]) && Packable(vs[2]) && Packable(vs[3]) && Packable(vs[4]) && Packable(vs[5]) && Packable(vs[6]);
  }

  lemma {:induction false} FiveFields(name: seq<Byte>, cipher: seq<Byte>, typ: seq<Byte>, major: int, minor: int, md: seq<Byte>, m: Marker)
    requires |name| < TWO32 - 1 && |cipher| < TWO32 && |typ| < TWO32 - 1 && IsInt64(major) && IsInt64(minor)
    ensures var d := At(PackAll([StrV(name), BytesV(cipher), StrV(typ), IntV(major), IntV(minor)]) + md, m);
            var (a, e) := FieldStr(d); var (b, f) := FieldBytes(e); var (c, g) := FieldStr(f); var (x, h) := FieldInt(g); var (y, i) := FieldInt(h);
            a == name && b == cipher && c == typ && x == major && y == minor && Good(i, md)
  {
    var ints := [IntV(major), IntV(minor)];
    var three := [StrV(typ)] + ints;
    var four := [BytesV(cipher)] + three;
    assert [StrV(name), BytesV(cipher), StrV(typ), IntV(major), IntV(minor)] == [StrV(name)] + four;
    FirstStr(name, four, md, m);
    var e := FieldStr(At(PackAll([StrV(name)] + four) + md, m)).1;
    FirstBytes(cipher, three, md, e.c.mrk);
    var f := FieldBytes(e).1;
    FirstStr(typ, ints, md, f.c.mrk);
    TwoInts(major, minor, md, FieldStr(f).1.c.mrk);
  }

  lemma {:induction false} ProfileBack(e: Encrypted, md: seq<Byte>, m: Marker)
    requires Fits(e)
    ensures var (typ, f) := FieldStr(At(PackAll(Fixed(e)) + md, m));
            typ == e.profileType && FieldInt(f).0 == e.profileVersion && Good(FieldInt(f).1, PackAll(Fixed(e)[2..]) + md)
  {
    FixedFit(e);
    var vs := Fixed(e);
    assert vs == [StrV(e.profileType)] + ([IntV(e.profileVersion)] + vs[2..]);
    assert forall i :: 0 <= i < |vs[2..]| ==> vs[2..][i] == vs[i + 2];
    FirstStr(e.profileType, [IntV(e.profileVersion)] + vs[2..], md, m);
    FirstInt(e.profileVersion, vs[2..], md, FieldStr(At(PackAll(vs) + md, m)).1.c.mrk);
  }

  /**
   * Opening what was sealed into less than 4 GiB gives back the structure, metadata and all, for the
   * one profile this driver implements, and for every other profile says which one it is. What took
   * more is never opened, since the unpacker's length has 32 bits.
   */
  lemma {:induction false} EnvelopeRoundTrip(e: Encrypted, keys: seq<Key>)
    requires Fits(e) && KnownEntries(e) && SortedKeys(keys, e.metadata.Keys)
    ensures var value := EnvelopeBytes(e, keys);
            var expected := if e.profileType == ENVELOPE && e.profileVersion == 1 then Opened(e) else UnsupportedProfile(e.profileType, e.profileVersion);
            && (|value| - 1 < TWO32 ==> DecodeEncrypted(value) == expected)
            && (|value| - 1 >= TWO32 && NoWrap(value[1..]) ==> !DecodeEncrypted(value).Opened?)
  {
    var md := MapBytes(e.metadata, keys);
    var value := EnvelopeBytes(e, keys);
    var body := [0xb0 + FIELDS, TAG] + (PackAll(Fixed(e)) + md);
    assert value[1..] == body;
    MetadataReadsBack(e, keys);
    StructureBack(e, md);
    if |body| >= TWO32 { PrefixNotOpened(e, md, |Visible(body)|); }
    Unmarked(value, body);
  }

  lemma {:induction false} Unmarked(value: seq<Byte>, body: seq<Byte>)
    requires value != [] && value[0] == FORMAT_VERSION && value[1..] == body
    ensures DecodeEncrypted(value) == OpenStructure(Dec(Start(Visible(body)), None))
  {
  }

  lemma {:induction false} MetadataReadsBack(e: Encrypted, keys: seq<Key>)
    requires Fits(e) && KnownEntries(e) && SortedKeys(keys, e.metadata.Keys)
    ensures MetadataReads(e, MapBytes(e.metadata, keys))
  {
    var md := MapBytes(e.metadata, keys);
    forall m ensures Metadata(At(md, m)) == (e.metadata, At([], Metadata(At(md, m)).1.c.mrk)) {
      MetadataBack(e.metadata, keys, [], m);
      assert md + [] == md;
    }
  }

  /** Where reading has got to after the profile's type and version. */
  function AfterProfile(d: Dec): Dec
  {
    FieldInt(FieldStr(d.(c := Len(Pop(Next(d.c)).1).1)).1).1
  }

  /** What is left when the structure has been read. */
  function LeftOver(d: Dec, e: Encrypted): seq<Byte>
  {
    ReadRest(AfterProfile(d), e.profileType, e.profileVersion).1.c.rest
  }

  lemma {:induction false} StructureBack(e: Encrypted, md: seq<Byte>)
    requires Fits(e)
    requires MetadataReads(e, md)
    ensures var d := Dec(Start([0xb0 + FIELDS, TAG] + (PackAll(Fixed(e)) + md)), None);
            && OpenStructure(d) == (if e.profileType == ENVELOPE && e.profileVersion == 1 then Opened(e) else UnsupportedProfile(e.profileType, e.profileVersion))
            && LeftOver(d, e) == []
  {
    var body := PackAll(Fixed(e)) + md;
    StructStart(TAG, FIELDS, body, Marker(Undef, 0, 0));
    var m := Marker(StructT, FIELDS, 0);
    ProfileBack(e, md, m);
    RestBack(e, md, FieldInt(FieldStr(At(body, m)).1).1.c.mrk);
  }

  // --- less than the whole ---------------------------------------------------------------------

  lemma {:induction false} MetaAfterMore(c: Cursor, q: seq<Byte>)
    requires GoodMarker(c) && !MetaAfter(c).1.err
    ensures MetaAfter(Plus(c, q)) == (MetaAfter(c).0, Plus(MetaAfter(c).1, q))
  {
    match c.mrk.typ
    case StrT => StrMore(c, q);
    case ByteArrayT => StrMore(c, q);
    case IntT => IntMore(c, q);
    case _ =>
  }

  lemma {:induction false} MetaEntriesMore(d: Dec, n: nat, md: map<Key, Meta>, q: seq<Byte>)
    requires Fine(MetaEntries(d, n, md).1)
    ensures MetaEntries(More(d, q), n, md) == (MetaEntries(d, n, md).0, More(MetaEntries(d, n, md).1, q))
    decreases n
  {
    if n > 0 {
      FieldStrMore(d, q);
      var (key, e) := FieldStr(d);
      NextMore(e.c, q);
      MetaAfterMore(Next(e.c), q);
      var (v, c) := MetaAfter(Next(e.c));
      MetaEntriesMore(e.(c := c), n - 1, md[key := v.value], q);
    }
  }

  lemma {:induction false} MetadataMore(d: Dec, q: seq<Byte>)
    requires Fine(Metadata(d).1)
    ensures Metadata(More(d, q)) == (Metadata(d).0, More(Metadata(d).1, q))
  {
    NextMore(d.c, q);
    LenMore(Next(d.c), q);
    MetaEntriesMore(d.(c := Len(Next(d.c)).1), Len(Next(d.c)).0, map[], q);
  }

  lemma {:induction false} ReadRestMore(d: Dec, typ: seq<Byte>, version: int, q: seq<Byte>)
    requires Fine(ReadRest(d, typ, version).1)
    ensures ReadRest(More(d, q), typ, version) == (ReadRest(d, typ, version).0, More(ReadRest(d, typ, version).1, q))
  {
    var e := FieldStr(d).1;
    var f := FieldBytes(e).1;
    var g := FieldStr(f).1;
    var h := FieldInt(g).1;
    MetadataMore(FieldInt(h).1, q);
    FieldIntMore(h, q);
    FieldIntMore(g, q);
    FieldStrMore(f, q);
    FieldBytesMore(e, q);
    FieldStrMore(d, q);
  }

  /** What is opened is opened the same whatever more there is, and what is left over stays left over. */
  lemma {:induction false} OpenMore(d: Dec, q: seq<Byte>)
    requires d.err.None? && OpenStructure(d).Opened?
    ensures OpenStructure(More(d, q)) == OpenStructure(d)
    ensures LeftOver(More(d, q), OpenStructure(d).e) == LeftOver(d, OpenStructure(d).e) + q
  {
    var c := Next(d.c);
    var x := d.(c := Len(Pop(c).1).1);
    var y := FieldStr(x).1;
    ReadRestMore(AfterProfile(d), FieldStr(x).0, FieldInt(y).0, q);
    FieldIntMore(y, q);
    FieldStrMore(x, q);
    LenMore(Pop(c).1, q);
    PopMore(c, q);
    NextMore(d.c, q);
  }

  lemma {:induction false} PrefixNotOpened(e: Encrypted, md: seq<Byte>, k: nat)
    requires Fits(e)
    requires MetadataReads(e, md)
    requires k < |[0xb0 + FIELDS, TAG] + (PackAll(Fixed(e)) + md)|
    ensures !OpenStructure(Dec(Start(([0xb0 + FIELDS, TAG] + (PackAll(Fixed(e)) + md))[..k]), None)).Opened?
  {
    var body := [0xb0 + FIELDS, TAG] + (PackAll(Fixed(e)) + md);
    StructureBack(e, md);
    assert body[..k] + body[k..] == body;
    PartNotOpened(Dec(Start(body[..k]), None), body[k..], e);
  }

  lemma {:induction false} PartNotOpened(d: Dec, q: seq<Byte>, e: Encrypted)
    requires d.err.None? && q != [] && LeftOver(More(d, q), e) == []
    requires OpenStructure(More(d, q)).Opened? ==> OpenStructure(More(d, q)).e == e
    ensures !OpenStructure(d).Opened?
  {
    if OpenStructure(d).Opened? { OpenMore(d, q); }
  }

  // ---------------------------------------------------------------------------------------------
  // EncodeEncrypted
  // ---------------------------------------------------------------------------------------------

  lemma {:induction false} EntriesSnoc(md: map<Key, Meta>, keys: seq<Key>, k: Key)
    requires (forall x :: x in keys ==> x in md) && k in md
    ensures (forall x :: x in keys + [k] ==> x in md)
    ensures Entries(md, keys + [k]) == Entries(md, keys) + [Entry(k, MetaValue(md[k]))]
  {
  }

  predicate AllFit(md: map<Key, Meta>, keys: seq<Key>)
    requires forall k :: k in keys ==> k in md
  {
    forall k :: k in keys ==> EntryFits(k, md[k])
  }

  lemma {:induction false} AllFitIsPackable(md: map<Key, Meta>, keys: seq<Key>)
    requires forall k :: k in keys ==> k in md
    ensures AllFit(md, keys) <==> Buffers.EntriesPackable(Entries(md, keys))
  {
    var es := Entries(md, keys);
    if AllFit(md, keys) {
      assert forall i :: 0 <= i < |es| ==> keys[i] in keys && EntryFits(keys[i], md[keys[i]]);
    }
    if Buffers.EntriesPackable(es) {
      forall k | k in keys ensures EntryFits(k, md[k]) {
        var i :| 0 <= i < |keys| && keys[i] == k;
        assert es[i] == Entry(k, MetaValue(md[k]));
      }
    }
  }

  /** The entries packed so far, unless one of them did not fit. */
  ghost predicate Packed(buf: seq<Byte>, err: bool, start: seq<Byte>, startErr: bool, es: seq<Entry>)
  {
    && (startErr ==> err)
    && (Buffers.EntriesPackable(es) ==> buf == start + PackEntries(es) && err == startErr)
    && (!Buffers.EntriesPackable(es) ==> err)
  }

  lemma {:induction false} PackedMore(buf: seq<Byte>, err: bool, start: seq<Byte>, startErr: bool, es: seq<Entry>, e: Entry, buf': seq<Byte>, err': bool)
    requires Packed(buf, err, start, startErr, es) && (err ==> err')
    requires |e.key| < TWO32 - 1 && Packable(e.value) ==> buf' == (buf + StringBytes(e.key)) + Pack(e.value) && err' == err
    requires !(|e.key| < TWO32 - 1 && Packable(e.value)) ==> err'
    ensures Packed(buf', err', start, startErr, es + [e])
  {
    if Buffers.EntriesPackable(es) && |e.key| < TWO32 - 1 && Packable(e.value) {
      Buffers.PackEntriesSnoc(es, e);
      Assoc(start + PackEntries(es), StringBytes(e.key), Pack(e.value));
      Assoc(start, PackEntries(es), StringBytes(e.key) + Pack(e.value));
    } else {
      Buffers.NotEntriesPackable(es, e);
    }
  }

  method PackMetadata(p: Buffers.Packer, md: map<Key, Meta>, keys: seq<Key>) returns (known: bool)
    requires forall k :: k in keys ==> k in md && (md[k].MInt? ==> IsInt64(md[k].i))
    modifies p
    ensures known <==> forall k :: k in keys ==> !md[k].MOther?
    ensures known ==> Packed(p.buf, p.err, old(p.buf), old(p.err), Entries(md, keys))
  {
    var i := 0;
    while i < |keys|
      invariant 0 <= i <= |keys| && (forall k :: k in keys[..i] ==> k in md && !md[k].MOther?)
      invariant Packed(p.buf, p.err, old(p.buf), old(p.err), Entries(md, keys[..i]))
    {
      var k := keys[i];
      assert k in keys;
      if md[k].MOther? { return false; }
      ghost var buf, err := p.buf, p.err;
      p.String(k);
      p.PackValue(MetaValue(md[k]));
      assert keys[..i + 1] == keys[..i] + [k];
      EntriesSnoc(md, keys[..i], k);
      PackedMore(buf, err, old(p.buf), old(p.err), Entries(md, keys[..i]), Entry(k, MetaValue(md[k])), p.buf, p.err);
      i := i + 1;
    }
    assert keys[..i] == keys;
    known := true;
  }

  /** Seals a structure; fails just if an entry has a type the format has no place for, or a length does not fit. */
  method EncodeEncrypted(e: Encrypted) returns (r: Option<seq<Byte>>, keys: seq<Key>)
    requires IsInt64(e.profileVersion) && IsInt64(e.baseline.major) && IsInt64(e.baseline.minor)
    requires forall k :: k in e.metadata && e.metadata[k].MInt? ==> IsInt64(e.metadata[k].i)
    ensures SortedKeys(keys, e.metadata.Keys)
    ensures r.Some? <==> Fits(e) && KnownEntries(e)
    ensures r.Some? ==> r.value == EnvelopeBytes(e, keys)
  {
    keys := SortKeys(e.metadata.Keys);
    SortedLength(keys, e.metadata.Keys);
    var p := new Buffers.Packer([FORMAT_VERSION]);
    p.StructHeader(TAG, FIELDS);
    ghost var start := p.buf;
    p.PackItems(StructV(TAG, Fixed(e)), Fixed(e));
    ghost var fixed := p.buf;
    p.ListHeader(|keys|, 0xa0, 0xd8);
    ghost var header, headerErr := p.buf, p.err;
    var known := PackMetadata(p, e.metadata, keys);
    KnownIff(e, keys);
    if !known { return None, keys; }
    AllFitIsPackable(e.metadata, keys);
    FitsIff(e, keys);
    if p.err { return None, keys; }
    SealedBytes(e, keys, p.buf);
    r := Some(p.buf);
  }

  lemma {:induction false} KnownIff(e: Encrypted, keys: seq<Key>)
    requires SortedKeys(keys, e.metadata.Keys)
    ensures KnownEntries(e) <==> forall k :: k in keys ==> !e.metadata[k].MOther?
  {
  }

  lemma {:induction false} FitsIff(e: Encrypted, keys: seq<Key>)
    requires SortedKeys(keys, e.metadata.Keys) && |keys| == |e.metadata|
    ensures Fits(e) <==> Buffers.AllPackable(Fixed(e)) && |keys| < TWO32 - 1 && AllFit(e.metadata, keys)
  {
  }

  lemma {:induction false} SealedBytes(e: Encrypted, keys: seq<Key>, buf: seq<Byte>)
    requires Fits(e) && SortedKeys(keys, e.metadata.Keys) && Buffers.EntriesPackable(Entries(e.metadata, keys))
    requires buf == ((([FORMAT_VERSION] + [0xb0 + FIELDS, TAG]) + PackAll(Fixed(e))) + Header(|keys|, 0xa0, 0xd8)) + PackEntries(Entries(e.metadata, keys))
    ensures buf == EnvelopeBytes(e, keys)
  {
    var a, b, c, h, es := [FORMAT_VERSION], [0xb0 + FIELDS, TAG], PackAll(Fixed(e)), Header(|keys|, 0xa0, 0xd8), PackEntries(Entries(e.metadata, keys));
    Regroup(a, b, c, h, es);
  }

  lemma {:induction false} Regroup(a: seq<Byte>, b: seq<Byte>, c: seq<Byte>, h: seq<Byte>, es: seq<Byte>)
    ensures (((a + b) + c) + h) + es == a + (b + (c + (h + es)))
  {
  }

  // ---------------------------------------------------------------------------------------------
  // The decoders' loops, on any bytes
  // ---------------------------------------------------------------------------------------------

  /**
   * The loop over a list's elements. However many the header announces, it goes round at most once
   * more than there are bytes left, since every round but the last reads one.
   */
  method DecodeListLoop(d0: Dec, s: Scheme, length: nat) returns (items: seq<Property>, d: Dec, rounds: nat)
    requires d0.err.None? && !d0.c.err
    ensures (items, d) == DecodeItems(d0, s, length)
    ensures rounds <= length && rounds <= |d0.c.rest| + 1
  {
    items, d, rounds := [], d0, 0;
    assert [] + DecodeItems(d0, s, length).0 == DecodeItems(d0, s, length).0;
    while rounds < length
      invariant rounds <= length && d.err.None? && !d.c.err && |d.c.rest| + rounds <= |d0.c.rest|
      invariant DecodeItems(d0, s, length) == ListFrom(items, d, s, length - rounds)
    {
      var (x, e) := DecodeOne(d, s, true);
      ListFromStep(items, d, s, length - rounds);
      rounds := rounds + 1;
      d := e;
      if e.err.Some? || e.c.err { return; }
      items := items + [x.value];
    }
    assert items + [] == items;
  }

  function ListFrom(items: seq<Property>, d: Dec, s: Scheme, n: nat): (seq<Property>, Dec)
  {
    (items + DecodeItems(d, s, n).0, DecodeItems(d, s, n).1)
  }

  lemma {:induction false} ListFromStep(items: seq<Property>, d: Dec, s: Scheme, n: nat)
    requires n > 0
    ensures var (x, e) := DecodeOne(d, s, true);
            ListFrom(items, d, s, n) == if e.err.Some? || e.c.err then (items, e) else ListFrom(items + [x.value], e, s, n - 1)
  {
    var (x, e) := DecodeOne(d, s, true);
    if e.err.Some? || e.c.err {
      assert items + [] == items;
    } else {
      var more := DecodeItems(e, s, n - 1).0;
      assert items + ([x.value] + more) == (items + [x.value]) + more;
    }
  }

  /** The loop over the metadata's entries, with the same bound. */
  method MetadataLoop(d0: Dec, entries: nat) returns (md: map<Key, Meta>, d: Dec, rounds: nat)
    requires d0.err.None?
    ensures (md, d) == MetaEntries(d0, entries, map[])
    ensures rounds <= entries && rounds <= |d0.c.rest| + 1
  {
    md, d, rounds := map[], d0, 0;
    ghost var goal := MetaEntries(d0, entries, map[]);
    var n: nat := entries;
    while n > 0
      invariant n + rounds == entries && d.err.None? && |d.c.rest| + rounds <= |d0.c.rest|
      invariant Leads(goal, d, n, md)
    {
      var stop;
      stop, d, md := MetadataRound(goal, d, md, n);
      rounds, n := rounds + 1, n - 1;
      if stop { return; }
    }
    LeadsEnds(goal, d, md);
  }

  /** The loop at this point, with `n` entries to come, ends in `goal`. */
  ghost function Leads(goal: (map<Key, Meta>, Dec), d: Dec, n: nat, md: map<Key, Meta>): bool
  {
    MetaEntries(d, n, md) == goal
  }

  lemma {:induction false} LeadsEnds(goal: (map<Key, Meta>, Dec), d: Dec, md: map<Key, Meta>)
    ensures Leads(goal, d, 0, md) <==> goal == (md, d)
  {
  }

  /** One round of it: either the end, or one entry and at least one byte less. */
  method MetadataRound(ghost goal: (map<Key, Meta>, Dec), d: Dec, md: map<Key, Meta>, ghost n: nat)
    returns (stop: bool, d': Dec, md': map<Key, Meta>)
    requires n > 0 && d.err.None? && Leads(goal, d, n, md)
    ensures stop ==> goal == (md', d')
    ensures !stop ==> Leads(goal, d', n - 1, md') && d'.err.None? && |d'.c.rest| < |d.c.rest|
  {
    var (key, e) := FieldStr(d);
    if e.err.Some? { return true, e, md; }
    var (v, c) := MetaAfter(Next(e.c));
    if v.None? { return true, Fail(e.(c := c), Malformed), md; }
    return false, e.(c := c), md[key := v.value];
  }
}
