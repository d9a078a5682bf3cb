/**
 * The Bolt Value Encoding Scheme: its versions and type table (scheme.go), the property values it
 * can encode, and how each looks as a PackStream value.
 */
module PropertyScheme {
  import opened Bytes
  import opened PackStream

  // ---------------------------------------------------------------------------------------------
  // Versions
  // ---------------------------------------------------------------------------------------------

  datatype Version = Version(major: int, minor: int)

  predicate AtLeast(v: Version, w: Version)
  {
    if v.major != w.major then v.major > w.major else v.minor >= w.minor
  }

  function Max(v: Version, w: Version): (m: Version)
  {
    if AtLeast(v, w) then v else w
  }

  /** The comparison is a total order. */
  lemma {:induction false} VersionOrder(u: Version, v: Version, w: Version)
    ensures AtLeast(v, v) && (AtLeast(v, w) || AtLeast(w, v))
    ensures AtLeast(v, w) && AtLeast(w, v) ==> v == w
    ensures AtLeast(u, v) && AtLeast(v, w) ==> AtLeast(u, w)
  {
  }

  datatype PType =
    | TBoolean | TBytes | TDate | TDuration | TFloat | TInteger | TList | TLocalDateTime | TLocalTime | TNull
    | TPoint | TString | TUuid | TVector | TZonedDateTime | TZonedTime

  type Table = map<PType, Version>

  const IMPLEMENTED := Version(1, 0)

  const BASELINES: Table := map[
    TBoolean := Version(1, 0), TBytes := Version(1, 0), TDate := Version(1, 0), TDuration := Version(1, 0),
    TFloat := Version(1, 0), TInteger := Version(1, 0), TList := Version(1, 0), TLocalDateTime := Version(1, 0),
    TLocalTime := Version(1, 0), TNull := Version(1, 0), TPoint := Version(1, 0), TString := Version(1, 0),
    TUuid := Version(1, 0), TVector := Version(1, 0), TZonedDateTime := Version(1, 0), TZonedTime := Version(1, 0)]

  /** The types whose representation a caller can reproduce, which authenticated data is limited to. */
  const AAD_BASELINES: Table := map[
    TBoolean := Version(1, 0), TBytes := Version(1, 0), TDate := Version(1, 0), TInteger := Version(1, 0),
    TLocalTime := Version(1, 0), TPoint := Version(1, 0), TString := Version(1, 0), TUuid := Version(1, 0), TZonedTime := Version(1, 0)]

  /** `b` is the greatest of `from` and the versions the table gives for `types`. */
  predicate IsBaseline(b: Version, from: Version, types: set<PType>, table: Table)
  {
    && AtLeast(b, from)
    && (forall t :: t in types && t in table ==> AtLeast(b, table[t]))
    && (b == from || exists t :: t in types && t in table && b == table[t])
  }

  lemma {:induction false} BaselineUnique(b: Version, c: Version, from: Version, types: set<PType>, table: Table)
    requires IsBaseline(b, from, types, table) && IsBaseline(c, from, types, table)
    ensures b == c
  {
    VersionOrder(b, b, c);
  }

  lemma {:induction false} BaselineJoin(a: Version, b: Version, c: Version, s: set<PType>, t: set<PType>, table: Table)
    requires IsBaseline(b, a, s, table) && IsBaseline(c, b, t, table)
    ensures IsBaseline(c, a, s + t, table)
  {
    forall k | k in s + t && k in table ensures AtLeast(c, table[k]) {
      VersionOrder(c, b, table[k]);
    }
    VersionOrder(c, b, a);
  }

  // ---------------------------------------------------------------------------------------------
  // Property values
  // ---------------------------------------------------------------------------------------------

  const SECONDS_PER_DAY := 86_400
  const NANOS_PER_SECOND := 1_000_000_000
  const NANOS_PER_DAY := 86_400_000_000_000

  datatype VectorKind = F64 | F32 | I8 | I16 | I32 | I64

  function KindMarker(k: VectorKind): Byte
  {
    match k case F64 => 0xc1 case F32 => 0xc6 case I8 => 0xc8 case I16 => 0xc9 case I32 => 0xca case I64 => 0xcb
  }

  function KindWidth(k: VectorKind): (w: nat)
    ensures w >= 1
  {
    match k case F64 => 8 case F32 => 4 case I8 => 1 case I16 => 2 case I32 => 4 case I64 => 8
  }

  predicate IsFloat(k: VectorKind)
  {
    k.F64? || k.F32?
  }

  /**
   * What a caller may hand over. A date, time or date-time is what its own encoding keeps of it: a
   * date its wall-clock seconds since 1970, a time its nanosecond of the day, and so on. Floats are
   * their bits. `POther` is anything of a type that is no property type.
   */
  datatype Property =
    | PNull
    | PBool(b: bool)
    | PStr(s: seq<Byte>)
    | PBytes(s: seq<Byte>)
    | PInt(i: int)
    | PUint(u: nat)
    | PFloat(bits: nat)
    | PUuid(u16: seq<Byte>)
    | PDate(wallSeconds: int)
    | PZonedTime(ofDay: nat, offset: int)
    | PLocalTime(ofDay: nat)
    | PLocalDateTime(wallSeconds: int, nanos: nat)
    | PZonedDateTime(seconds: int, nanos: nat, offset: int)
    | PDuration(months: int, days: int, secs: int, nanoseconds: int)
    | PPoint2D(srid: nat, x: nat, y: nat)
    | PPoint3D(srid: nat, x: nat, y: nat, z: nat)
    | PVector(kind: VectorKind, elems: seq<int>)
    | PList(items: seq<Property>)
    | POther

  predicate ElementOk(k: VectorKind, e: int)
  {
    if IsFloat(k) then 0 <= e < Pow256(KindWidth(k))
    else -(Pow256(KindWidth(k)) / 2) <= e < Pow256(KindWidth(k)) / 2
  }

  /** What Go's types guarantee of a value. */
  predicate Typed(x: Property)
  {
    match x
    case PInt(i) => IsInt64(i)
    case PUint(u) => u < TWO64
    case PFloat(bits) => bits < TWO64
    case PUuid(u) => |u| == 16
    case PDate(w) => IsInt64(w)
    case PZonedTime(n, o) => n < NANOS_PER_DAY && IsInt64(o)
    case PLocalTime(n) => n < NANOS_PER_DAY
    case PLocalDateTime(w, n) => IsInt64(w) && n < NANOS_PER_SECOND
    case PZonedDateTime(s, n, o) => IsInt64(s) && n < NANOS_PER_SECOND && IsInt64(o)
    case PDuration(m, d, s, n) => IsInt64(m) && IsInt64(d) && IsInt64(s) && IsInt64(n)
    case PPoint2D(r, x, y) => r < TWO32 && x < TWO64 && y < TWO64
    case PPoint3D(r, x, y, z) => r < TWO32 && x < TWO64 && y < TWO64 && z < TWO64
    case PVector(k, es) => forall i :: 0 <= i < |es| ==> ElementOk(k, es[i])
    case PList(items) => forall i :: 0 <= i < |items| ==> Typed(items[i])
    case _ => true
  }

  /** The type a value is recorded under; for something that is no property, of no consequence. */
  function TypeOf(x: Property): PType
  {
    match x
    case PNull => TNull
    case PBool(_) => TBoolean
    case PStr(_) => TString
    case PBytes(_) => TBytes
    case PInt(_) => TInteger
    case PUint(_) => TInteger
    case PFloat(_) => TFloat
    case PUuid(_) => TUuid
    case PDate(_) => TDate
    case PZonedTime(_, _) => TZonedTime
    case PLocalTime(_) => TLocalTime
    case PLocalDateTime(_, _) => TLocalDateTime
    case PZonedDateTime(_, _, _) => TZonedDateTime
    case PDuration(_, _, _, _) => TDuration
    case PPoint2D(_, _, _) => TPoint
    case PPoint3D(_, _, _, _) => TPoint
    case PVector(_, _) => TVector
    case PList(_) => TList
    case POther => TNull
  }

  /** The day of a moment: Go's division truncates, and so has to be corrected downwards. */
  function DayOf(wallSeconds: int): int
  {
    var days := TruncDiv(wallSeconds, SECONDS_PER_DAY);
    if TruncMod(wallSeconds, SECONDS_PER_DAY) < 0 then days - 1 else days
  }

  /** The day starts at or before the moment, less than a day before: before 1970 too. */
  lemma {:induction false} DayIsFloor(w: int)
    ensures DayOf(w) * SECONDS_PER_DAY <= w < (DayOf(w) + 1) * SECONDS_PER_DAY
    ensures DayOf(w) == w / SECONDS_PER_DAY
  {
  }

  function ElementBytes(k: VectorKind, es: seq<int>): (b: seq<Byte>)
    ensures |b| == |es| * KindWidth(k)
  {
    if es == [] then [] else TwosComplement(es[0], KindWidth(k)) + ElementBytes(k, es[1..])
  }

  /** The PackStream value that is written for a property value. */
  function Wire(x: Property): Value
  {
    match x
    case PNull => Nil
    case PBool(b) => BoolV(b)
    case PStr(s) => StrV(s)
    case PBytes(s) => BytesV(s)
    case PInt(i) => IntV(i)
    case PUint(u) => IntV(u)
    case PFloat(bits) => FloatV(bits)
    case PUuid(u) => UuidV(u)
    case PDate(w) => StructV(0x44, [IntV(DayOf(w))])
    case PZonedTime(n, o) => StructV(0x54, [IntV(n), IntV(o)])
    case PLocalTime(n) => StructV(0x74, [IntV(n)])
    case PLocalDateTime(w, n) => StructV(0x64, [IntV(w), IntV(n)])
    case PZonedDateTime(s, n, o) => StructV(0x49, [IntV(s), IntV(n), IntV(o)])
    case PDuration(m, d, s, n) => StructV(0x45, [IntV(m), IntV(d), IntV(s), IntV(n)])
    case PPoint2D(r, x, y) => StructV(0x58, [IntV(r), FloatV(x), FloatV(y)])
    case PPoint3D(r, x, y, z) => StructV(0x59, [IntV(r), FloatV(x), FloatV(y), FloatV(z)])
    case PVector(k, es) => StructV(0x56, [BytesV([KindMarker(k)]), BytesV(ElementBytes(k, es))])
    case PList(items) => ListV(WireAll(items))
    case POther => Nil
  }

  function WireAll(xs: seq<Property>): (vs: seq<Value>)
    ensures |vs| == |xs| && forall i :: 0 <= i < |xs| ==> vs[i] == Wire(xs[i])
  {
    if xs == [] then [] else [Wire(xs[0])] + WireAll(xs[1..])
  }

  // ---------------------------------------------------------------------------------------------
  // What is accepted
  // ---------------------------------------------------------------------------------------------

  /** What the elements of one list must agree on. */
  datatype ElemKind = ElemKind(typ: PType, srid: nat, dimensions: nat)

  function KindOf(x: Property): ElemKind
  {
    match x
    case PPoint2D(r, _, _) => ElemKind(TPoint, r, 2)
    case PPoint3D(r, _, _, _) => ElemKind(TPoint, r, 3)
    case _ => ElemKind(TypeOf(x), 0, 0)
  }

  /**
   * A property value of permitted types: lists hold neither null, nor lists, nor vectors, and their
   * elements are of one type, and of one coordinate system if they are points.
   */
  predicate Accepted(x: Property, inList: bool, permitted: Table)
  {
    match x
    case POther => false
    case PNull => !inList && TNull in permitted
    case PVector(_, _) => !inList && TVector in permitted
    case PList(items) =>
      && !inList && TList in permitted
      && (forall i :: 0 <= i < |items| ==> Accepted(items[i], true, permitted))
      && (forall i :: 0 <= i < |items| ==> KindOf(items[i]) == KindOf(items[0]))
    case _ => TypeOf(x) in permitted
  }

  /** Two elements that may stand in one list: of one type, and of one coordinate system if points. */
  predicate Alike(x: Property, y: Property)
  {
    match x
    case PBool(_) => y.PBool?
    case PStr(_) => y.PStr?
    case PBytes(_) => y.PBytes?
    case PInt(_) => y.PInt? || y.PUint?
    case PUint(_) => y.PInt? || y.PUint?
    case PFloat(_) => y.PFloat?
    case PUuid(_) => y.PUuid?
    case PDate(_) => y.PDate?
    case PZonedTime(_, _) => y.PZonedTime?
    case PLocalTime(_) => y.PLocalTime?
    case PLocalDateTime(_, _) => y.PLocalDateTime?
    case PZonedDateTime(_, _, _) => y.PZonedDateTime?
    case PDuration(_, _, _, _) => y.PDuration?
    case PPoint2D(srid, _, _) => y.PPoint2D? && y.srid == srid
    case PPoint3D(srid, _, _, _) => y.PPoint3D? && y.srid == srid
    case _ => false
  }

  /** What may stand in a list at all: no null, no list, no vector, nothing that is no property. */
  predicate Element(x: Property)
  {
    !x.PNull? && !x.PList? && !x.PVector? && !x.POther?
  }

  lemma {:induction false} AlikeIsKind(x: Property, y: Property)
    requires Element(x) && Element(y)
    ensures Alike(x, y) <==> KindOf(x) == KindOf(y)
  {
    match x case _ => match y { case _ => }
  }

  /** A list is accepted just when its elements are elements of permitted types, each like every other. */
  lemma {:induction false} ListAccepted(items: seq<Property>, permitted: Table)
    ensures Accepted(PList(items), false, permitted) <==>
              && TList in permitted
              && (forall i :: 0 <= i < |items| ==> Element(items[i]) && TypeOf(items[i]) in permitted)
              && (forall i, j :: 0 <= i < |items| && 0 <= j < |items| ==> Alike(items[i], items[j]))
  {
    if forall i :: 0 <= i < |items| ==> Element(items[i]) {
      forall i, j | 0 <= i < |items| && 0 <= j < |items| ensures Alike(items[i], items[j]) <==> KindOf(items[i]) == KindOf(items[j]) {
        AlikeIsKind(items[i], items[j]);
      }
      forall i | 0 <= i < |items| ensures Accepted(items[i], true, permitted) == (TypeOf(items[i]) in permitted) {
        ElementAccepted(items[i], permitted);
      }
    } else {
      var i :| 0 <= i < |items| && !Element(items[i]);
      assert !Accepted(items[i], true, permitted);
    }
  }

  lemma {:induction false} ElementAccepted(x: Property, permitted: Table)
    requires Element(x)
    ensures Accepted(x, true, permitted) == (TypeOf(x) in permitted)
  {
  }

  /** Every type a value contains. */
  function Types(x: Property): set<PType>
  {
    {TypeOf(x)} + if x.PList? then AllTypes(x.items) else {}
  }

  function AllTypes(xs: seq<Property>): set<PType>
  {
    if xs == [] then {} else Types(xs[0]) + AllTypes(xs[1..])
  }

  /** What a value becomes by being encoded: integers are all int64, and a date loses its time of day. */
  function Canonical(x: Property): Property
  {
    match x
    case PUint(u) => PInt(u)
    case PDate(w) => PDate(DayOf(w) * SECONDS_PER_DAY)
    case PList(items) => PList(CanonicalAll(items))
    case _ => x
  }

  function CanonicalAll(xs: seq<Property>): (ys: seq<Property>)
    ensures |ys| == |xs| && forall i :: 0 <= i < |xs| ==> ys[i] == Canonical(xs[i])
  {
    if xs == [] then [] else [Canonical(xs[0])] + CanonicalAll(xs[1..])
  }
}
