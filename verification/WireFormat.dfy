/**
 * The formats against literal octets, so that writer and reader agree not only with each other: the
 * PackStream markers, the framing of messages, and the sealed structure with its property values.
 */
module WireFormat {
  import opened Bytes
  import opened PackStream
  import opened PropertyScheme
  import Chunking
  import PropertyCodec
  import Envelope

  // ---------------------------------------------------------------------------------------------
  // PackStream
  // ---------------------------------------------------------------------------------------------

  /** The octet a small number of the given sign is sent as. */
  function Octet(i: int): Byte
    requires -0x80 <= i < 0x100
  {
    if i < 0 then i + 0x100 else i
  }

  /** An integer in the shortest of the five forms that holds it. */
  lemma {:induction false} IntegerOctets(i: int)
    requires IsInt64(i)
    ensures var b := Pack(IntV(i));
            if -16 <= i <= 127 then b == [Octet(i)]
            else if -128 <= i <= 127 then b == [0xc8, Octet(i)]
            else if -32_768 <= i <= 32_767 then |b| == 3 && b[0] == 0xc9 && Signed(b[1..]) == i
            else if -2_147_483_648 <= i <= 2_147_483_647 then |b| == 5 && b[0] == 0xca && Signed(b[1..]) == i
            else |b| == 9 && b[0] == 0xcb && Signed(b[1..]) == i
  {
    Pow256Values();
    var b := Pack(IntV(i));
    if -128 <= i <= 127 {
      ModOnce(i, 0x100);
    } else if -32_768 <= i <= 32_767 {
      SignedRoundTrip(i, 2);
      assert b[1..] == TwosComplement(i, 2);
    } else if -2_147_483_648 <= i <= 2_147_483_647 {
      SignedRoundTrip(i, 4);
      assert b[1..] == TwosComplement(i, 4);
    } else {
      SignedRoundTrip(i, 8);
      assert b[1..] == TwosComplement(i, 8);
    }
  }

  /** How a length of so many octets is announced: `tiny`, or one of three markers from `wide` on. */
  predicate Announces(b: seq<Byte>, l: nat, tiny: int, wide: int)
  {
    if l <= 15 then |b| >= 1 && b[0] == tiny + l
    else if l <= 255 then |b| >= 2 && b[0] == wide && b[1] == l
    else if l <= 65_535 then |b| >= 3 && b[0] == wide + 1 && b[1] == l / 256 && b[2] == l % 256
    else |b| >= 5 && b[0] == wide + 2 && FromBigEndian(b[1..5]) == l
  }

  lemma {:induction false} HeaderOctets(l: nat, short: Byte, long: Byte, rest: seq<Byte>)
    requires short <= 0xf0 && long <= 0xfd && l < TWO32 - 1
    ensures Announces(Header(l, short, long) + rest, l, short, long)
  {
    Pow256Values();
    if 255 < l <= 65_535 { BigEndian2(l); }
    if l > 65_535 {
      BigEndianRoundTrip(l, 4);
      assert (Header(l, short, long) + rest)[1..5] == BigEndian(l, 4);
    }
  }

  /** Every other kind of value begins with its own marker, and lengths are announced after it. */
  lemma {:induction false} MarkerOctets(v: Value)
    requires Packable(v)
    ensures v.Nil? ==> Pack(v) == [0xc0]
    ensures v.BoolV? ==> Pack(v) == [if v.b then 0xc3 else 0xc2]
    ensures v.FloatV? ==> |Pack(v)| == 9 && Pack(v)[0] == 0xc1
    ensures v.UuidV? ==> Pack(v) == [0xe0] + v.u
    ensures v.StrV? ==> Announces(Pack(v), |v.s|, 0x80, 0xd0)
    ensures v.ListV? ==> Announces(Pack(v), |v.items|, 0x90, 0xd4)
    ensures v.MapV? ==> Announces(Pack(v), |v.entries|, 0xa0, 0xd8)
    ensures v.StructV? ==> |Pack(v)| >= 2 && Pack(v)[0] == 0xb0 + |v.fields| && Pack(v)[1] == v.tag
    ensures v.BytesV? && |v.s| <= 255 ==> Pack(v) == [0xcc, |v.s|] + v.s
    ensures v.BytesV? && 255 < |v.s| <= 65_535 ==> Pack(v) == [0xcd, |v.s| / 256, |v.s| % 256] + v.s
    ensures v.BytesV? && |v.s| > 65_535 ==> |Pack(v)| == 5 + |v.s| && Pack(v)[0] == 0xce
  {
    match v
    case StrV(s) => HeaderOctets(|s|, 0x80, 0xd0, s);
    case ListV(items) => HeaderOctets(|items|, 0x90, 0xd4, PackAll(items));
    case MapV(entries) => HeaderOctets(|entries|, 0xa0, 0xd8, PackEntries(entries));
    case BytesV(s) => if 255 < |s| <= 65_535 { BigEndian2(|s|); }
    case _ =>
  }

  // ---------------------------------------------------------------------------------------------
  // Framing
  // ---------------------------------------------------------------------------------------------

  /** A chunk is its length in two octets and at most 65535 octets; two zero octets end a message. */
  lemma {:induction false} ChunkOctets(m: Chunking.Message)
    ensures |m| <= 65_535 ==> Chunking.Frames(m) == [|m| / 256, |m| % 256] + m + [0, 0]
    ensures |m| > 65_535 ==> Chunking.Frames(m) == [255, 255] + m[..65_535] + Chunking.Frames(m[65_535..])
  {
    if |m| <= 65_535 { BigEndian2(|m|); }
  }

  // ---------------------------------------------------------------------------------------------
  // Encrypted values
  // ---------------------------------------------------------------------------------------------

  /** The name of the one profile there is. */
  const PROFILE: seq<Byte> := ['E' as int, 'N' as int, 'V' as int, 'E' as int, 'L' as int, 'O' as int, 'P' as int, 'E' as int]

  lemma {:induction false} Begins(b: seq<Byte>, t: seq<Byte>, rest: seq<Byte>, m: seq<Byte>)
    requires |t| == 8 && b == [0x01] + ([0xb8, 0x65] + ((([0x88] + t) + ([0x01] + rest)) + m))
    ensures |b| >= 13 && b[..4] == [0x01, 0xb8, 0x65, 0x88] && b[4..12] == t && b[12] == 0x01
  {
    var h := [0x01, 0xb8, 0x65, 0x88];
    assert b == h + (t + ([0x01] + (rest + m)));
  }

  lemma {:induction false} TwoFirst(vs: seq<Value>)
    requires |vs| >= 2 && forall i :: 0 <= i < |vs| ==> Packable(vs[i])
    ensures PackAll(vs) == Pack(vs[0]) + (Pack(vs[1]) + PackAll(vs[2..]))
  {
    assert vs[1..][1..] == vs[2..];
  }

  /** A sealed value is version 1 of the format, then the structure of eight fields tagged 'e', then its profile. */
  lemma {:induction false} SealedOctets(e: Envelope.Encrypted, keys: seq<Envelope.Key>)
    requires Envelope.Fits(e) && Envelope.SortedKeys(keys, e.metadata.Keys)
    requires e.profileType == PROFILE && e.profileVersion == 1
    ensures var b := Envelope.EnvelopeBytes(e, keys);
            |b| >= 13 && b[..4] == [0x01, 0xb8, 0x65, 0x88] && b[4..12] == PROFILE && b[12] == 0x01
  {
    var f := Envelope.Fixed(e);
    TwoFirst(f);
    IntegerOctets(1);
    assert Pack(f[1]) == [0x01];
    assert Pack(f[0]) == [0x88] + PROFILE;
    Begins(Envelope.EnvelopeBytes(e, keys), PROFILE, PackAll(f[2..]), Envelope.MapBytes(e.metadata, keys));
  }

  lemma {:induction false} StructMarker(b: Byte)
    requires MarkerOf(b).typ.StructT?
    ensures 0xb0 <= b < 0xc0 && MarkerOf(b) == Marker(StructT, b - 0xb0, 0)
  {
  }

  /** What the header of the structure must be for it to open. */
  lemma {:induction false} HeaderNeeded(d: PropertyCodec.Dec)
    requires Envelope.OpenStructure(d).Opened?
    ensures var c := Next(d.c);
            c.mrk.typ.StructT? && Pop(c).0 == 0x65 && GoodMarker(Pop(c).1) && Len(Pop(c).1).0 == 8
  {
  }

  lemma {:induction false} ProfileNeeded(d: PropertyCodec.Dec)
    requires Envelope.OpenStructure(d).Opened?
    ensures Envelope.OpenStructure(d).e.profileType == Envelope.ENVELOPE && Envelope.OpenStructure(d).e.profileVersion == 1
  {
  }

  lemma {:induction false} StructureOctets(d: PropertyCodec.Dec)
    requires Envelope.OpenStructure(d).Opened?
    ensures |d.c.rest| >= 2 && d.c.rest[0] == 0xb8 && d.c.rest[1] == 0x65
  {
    HeaderNeeded(d);
    var c := Next(d.c);
    if d.c.rest != [] {
      assert c.mrk == MarkerOf(d.c.rest[0]) && c.rest == d.c.rest[1..];
      StructMarker(d.c.rest[0]);
    }
  }

  /** Nothing opens that does not begin so, with the profile this driver implements. */
  lemma {:induction false} OpenedOctets(b: seq<Byte>)
    requires Envelope.DecodeEncrypted(b).Opened?
    ensures |b| >= 3 && b[0] == 0x01 && b[1] == 0xb8 && b[2] == 0x65
    ensures Envelope.DecodeEncrypted(b).e.profileType == PROFILE && Envelope.DecodeEncrypted(b).e.profileVersion == 1
  {
    var v := Visible(b[1..]);
    var d := PropertyCodec.Dec(Start(v), None);
    assert Envelope.DecodeEncrypted(b) == Envelope.OpenStructure(d);
    StructureOctets(d);
    ProfileNeeded(d);
    assert v[0] == b[1] && v[1] == b[2];
  }

  /** The structure tag and the number of fields of each property value that is a structure. */
  lemma {:induction false} PropertyTags(x: Property)
    ensures x.PDate? ==> Tagged(Wire(x), 'D', 1)
    ensures x.PZonedTime? ==> Tagged(Wire(x), 'T', 2)
    ensures x.PLocalTime? ==> Tagged(Wire(x), 't', 1)
    ensures x.PLocalDateTime? ==> Tagged(Wire(x), 'd', 2)
    ensures x.PZonedDateTime? ==> Tagged(Wire(x), 'I', 3)
    ensures x.PDuration? ==> Tagged(Wire(x), 'E', 4)
    ensures x.PPoint2D? ==> Tagged(Wire(x), 'X', 3)
    ensures x.PPoint3D? ==> Tagged(Wire(x), 'Y', 4)
    ensures x.PVector? ==> Tagged(Wire(x), 'V', 2)
  {
  }

  predicate Tagged(v: Value, tag: char, fields: nat)
  {
    v.StructV? && v.tag == tag as int && |v.fields| == fields
  }
}
