/**
 * Duration.String (temporal.go): a duration written as ISO 8601 text without ever needing more than
 * 64 bits, and a reader of such text to say what it means.
 */
module Duration {
  import opened Bytes

  datatype Duration = Duration(months: int, days: int, seconds: int, nanos: int)

  const SECOND := 1_000_000_000

  predicate IsInt64(i: int)
  {
    -0x8000_0000_0000_0000 <= i < 0x8000_0000_0000_0000
  }

  predicate Typed(d: Duration)
  {
    IsInt64(d.months) && IsInt64(d.days) && IsInt64(d.seconds) && IsInt64(d.nanos)
  }

  // ---------------------------------------------------------------------------------------------
  // Text
  // ---------------------------------------------------------------------------------------------

  function Digit(n: nat): char
    requires n < 10
  {
    '0' + n as char
  }

  predicate IsDigit(c: char)
  {
    '0' <= c <= '9'
  }

  function DigitValue(c: char): nat
    requires IsDigit(c)
  {
    (c - '0') as nat
  }

  function Decimal(n: nat): (s: string)
    ensures |s| > 0 && forall i :: 0 <= i < |s| ==> IsDigit(s[i])
  {
    if n < 10 then [Digit(n)] else Decimal(n / 10) + [Digit(n % 10)]
  }

  /** `n` in exactly `width` digits. */
  function Padded(n: nat, width: nat): (s: string)
    ensures |s| == width && forall i :: 0 <= i < |s| ==> IsDigit(s[i])
    decreases width
  {
    if width == 0 then "" else Padded(n / 10, width - 1) + [Digit(n % 10)]
  }

  function TrimZeros(s: string): (t: string)
    ensures t <= s
  {
    if s != "" && s[|s| - 1] == '0' then TrimZeros(s[..|s| - 1]) else s
  }

  /** One component: a number, perhaps with nanoseconds behind a point, and its unit. */
  datatype Part = Part(negative: bool, whole: nat, fraction: nat, unit: char)

  function FractionText(f: nat): string
  {
    if f == 0 then "" else "." + TrimZeros(Padded(f, 9))
  }

  function NumberText(p: Part): string
  {
    (if p.negative then "-" else "") + (Decimal(p.whole) + FractionText(p.fraction))
  }

  function Text(ps: seq<Part>): string
  {
    if ps == [] then "" else NumberText(ps[0]) + ([ps[0].unit] + Text(ps[1..]))
  }

  /** What a component's number stands for, in billionths. */
  function Value(p: Part): int
  {
    if p.negative then -(p.whole * SECOND + p.fraction) else p.whole * SECOND + p.fraction
  }

  /** A whole number with its sign. */
  function Whole(i: int, unit: char): Part
  {
    if i < 0 then Part(true, -i, 0, unit) else Part(false, i, 0, unit)
  }

  // ---------------------------------------------------------------------------------------------
  // The reader
  // ---------------------------------------------------------------------------------------------

  /** The digits at the front of `s`, how many there are and what number they make. */
  function Digits(s: string, acc: nat): (r: (nat, nat))
    ensures r.1 <= |s| && (forall i :: 0 <= i < r.1 ==> IsDigit(s[i])) && (r.1 < |s| ==> !IsDigit(s[r.1]))
    decreases |s|
  {
    if s == "" || !IsDigit(s[0]) then (acc, 0) else
    var (n, k) := Digits(s[1..], acc * 10 + DigitValue(s[0]));
    (n, k + 1)
  }

  function Pow10(n: nat): (p: nat)
    ensures p >= 1
  {
    if n == 0 then 1 else 10 * Pow10(n - 1)
  }

  /** `f` with `k` zeros behind it. */
  function Shifted(f: nat, k: nat): nat
  {
    if k == 0 then f else 10 * Shifted(f, k - 1)
  }

  /** A number at the front of `s` in billionths, and where it ends: at least one digit, at most nine after a point. */
  function ReadUnsigned(s: string): (r: Option<(nat, nat)>)
    ensures r.Some? ==> 0 < r.value.1 <= |s|
  {
    var (whole, k) := Digits(s, 0);
    if k == 0 then None
    else if k == |s| || s[k] != '.' then Some((whole * SECOND, k))
    else
      var (f, m) := Digits(s[k + 1..], 0);
      if m == 0 || m > 9 then None else Some((whole * SECOND + Shifted(f, 9 - m), k + 1 + m))
  }

  function ReadNumber(s: string): (r: Option<(int, nat)>)
    ensures r.Some? ==> 0 < r.value.1 <= |s|
  {
    if s != "" && s[0] == '-' then
      match ReadUnsigned(s[1..])
      case None => None
      case Some((v, k)) => var w: int := v; Some((-w, k + 1))
    else ReadUnsigned(s)
  }

  /** A number read, with its unit. */
  datatype Read = Read(value: int, unit: char)

  /** Components up to the end or up to a `T`. */
  function ReadParts(s: string): (r: Option<(seq<Read>, string)>)
    ensures r.Some? ==> |r.value.1| <= |s|
    decreases |s|
  {
    if s == "" || s[0] == 'T' then Some(([], s)) else
    match ReadNumber(s)
    case None => None
    case Some((v, k)) =>
      if k == |s| then None else
      match ReadParts(s[k + 1..])
      case None => None
      case Some((ps, rest)) => Some(([Read(v, s[k])] + ps, rest))
  }

  /** Months and days whole, the time in nanoseconds. */
  datatype Meaning = Meaning(months: int, days: int, time: int)

  /** The sum of the components with the given unit. */
  function Total(ps: seq<Read>, unit: char): int
  {
    if ps == [] then 0 else (if ps[0].unit == unit then ps[0].value else 0) + Total(ps[1..], unit)
  }

  predicate Units(ps: seq<Read>, allowed: string)
  {
    forall i :: 0 <= i < |ps| ==> ps[i].unit in allowed
  }

  predicate WholeNumber(v: int)
  {
    v % SECOND == 0
  }

  function DateMeaning(ps: seq<Read>): Option<Meaning>
  {
    var y, m, d := Total(ps, 'Y'), Total(ps, 'M'), Total(ps, 'D');
    if Units(ps, "YMD") && WholeNumber(y) && WholeNumber(m) && WholeNumber(d)
    then Some(Meaning(12 * (y / SECOND) + m / SECOND, d / SECOND, 0)) else None
  }

  function TimeMeaning(ps: seq<Read>): Option<int>
  {
    if Units(ps, "HMS") then Some(3600 * Total(ps, 'H') + 60 * Total(ps, 'M') + Total(ps, 'S')) else None
  }

  /** A duration of at least one component; a `T` must be followed by one. */
  function ReadDuration(s: string): Option<Meaning>
  {
    if s == "" || s[0] != 'P' then None else
    match ReadParts(s[1..])
    case None => None
    case Some((date, rest)) =>
      match DateMeaning(date)
      case None => None
      case Some(m) =>
        if rest == "" then (if date == [] then None else Some(m)) else
        match ReadParts(rest[1..])
        case None => None
        case Some((time, end)) =>
          if end != "" || time == [] then None else
          match TimeMeaning(time)
          case None => None
          case Some(t) => Some(m.(time := t))
  }

  // ---------------------------------------------------------------------------------------------
  // Numbers read back
  // ---------------------------------------------------------------------------------------------

  predicate AllDigits(s: string)
  {
    forall i :: 0 <= i < |s| ==> IsDigit(s[i])
  }

  /** No digit follows. */
  predicate Ends(tail: string)
  {
    tail == "" || !IsDigit(tail[0])
  }

  /** The number a string of digits makes. */
  function Number(s: string): nat
    requires AllDigits(s)
  {
    if s == "" then 0 else Number(s[..|s| - 1]) * 10 + DigitValue(s[|s| - 1])
  }

  lemma {:induction false} DigitsRead(s: string, tail: string, done: string)
    requires AllDigits(s) && AllDigits(done) && Ends(tail)
    ensures AllDigits(done + s) && Digits(s + tail, Number(done)) == (Number(done + s), |s|)
    decreases |s|
  {
    if s == "" {
      assert s + tail == tail && done + s == done;
    } else {
      var d := done + [s[0]];
      assert d[..|d| - 1] == done;
      assert (s + tail)[1..] == s[1..] + tail;
      DigitsRead(s[1..], tail, d);
      assert d + s[1..] == done + s;
    }
  }

  lemma {:induction false} DigitsAre(s: string, tail: string)
    requires AllDigits(s) && Ends(tail)
    ensures Digits(s + tail, 0) == (Number(s), |s|)
  {
    DigitsRead(s, tail, "");
    assert "" + s == s;
  }

  lemma {:induction false} DecimalIs(n: nat)
    ensures Number(Decimal(n)) == n
  {
    var s := Decimal(n);
    if n < 10 {
      assert s[..0] == "";
    } else {
      DecimalIs(n / 10);
      assert s[..|s| - 1] == Decimal(n / 10);
    }
  }

  lemma {:induction false} PaddedIs(n: nat, width: nat)
    requires n < Pow10(width)
    ensures Number(Padded(n, width)) == n
    decreases width
  {
    if width > 0 {
      var s := Padded(n, width);
      assert s[..|s| - 1] == Padded(n / 10, width - 1);
      PaddedIs(n / 10, width - 1);
    }
  }

  /** Trailing zeros behind the point may go. */
  lemma {:induction false} TrimZerosIs(s: string)
    requires AllDigits(s)
    ensures |TrimZeros(s)| <= |s| && AllDigits(TrimZeros(s))
    ensures Shifted(Number(TrimZeros(s)), |s| - |TrimZeros(s)|) == Number(s)
  {
    if s != "" && s[|s| - 1] == '0' {
      TrimZerosIs(s[..|s| - 1]);
    }
  }

  lemma {:induction false} NineDigits()
    ensures Pow10(9) == SECOND
  {
    assert Pow10(3) == 1000;
    assert Pow10(6) == 1_000_000;
  }

  lemma {:induction false} FractionIs(f: nat)
    requires 0 < f < SECOND
    ensures var t := TrimZeros(Padded(f, 9)); AllDigits(t) && 0 < |t| <= 9 && Shifted(Number(t), 9 - |t|) == f
  {
    NineDigits();
    PaddedIs(f, 9);
    TrimZerosIs(Padded(f, 9));
  }

  /** What may follow a number: neither a digit nor a point. */
  predicate AfterNumber(tail: string)
  {
    tail == "" || (!IsDigit(tail[0]) && tail[0] != '.')
  }

  lemma {:induction false} WholeBack(d: string, tail: string)
    requires AllDigits(d) && |d| > 0 && AfterNumber(tail)
    ensures ReadUnsigned(d + tail) == Some((Number(d) * SECOND, |d|))
  {
    DigitsAre(d, tail);
    assert tail != "" ==> (d + tail)[|d|] == tail[0];
  }

  lemma {:induction false} ReadPoint(s: string, whole: nat, k: nat, f: nat, m: nat)
    requires Digits(s, 0) == (whole, k) && 0 < k < |s| && s[k] == '.' && Digits(s[k + 1..], 0) == (f, m) && 0 < m <= 9
    ensures ReadUnsigned(s) == Some((whole * SECOND + Shifted(f, 9 - m), k + 1 + m))
  {
  }

  lemma {:induction false} Pieces(d: string, t: string)
    ensures var s := d + ("." + t); |s| == |d| + 1 + |t| && s[|d|] == '.' && s[|d| + 1..] == t
  {
  }

  lemma {:induction false} PointBack(d: string, t: string, tail: string, f: nat)
    requires AllDigits(d) && |d| > 0 && AllDigits(t) && 0 < |t| <= 9 && Ends(tail) && Shifted(Number(t), 9 - |t|) == f
    ensures ReadUnsigned(d + ("." + (t + tail))) == Some((Number(d) * SECOND + f, |d| + 1 + |t|))
  {
    DigitsAre(d, "." + (t + tail));
    DigitsAre(t, tail);
    Pieces(d, t + tail);
    ReadPoint(d + ("." + (t + tail)), Number(d), |d|, Number(t), |t|);
  }

  lemma {:induction false} UnsignedBack(whole: nat, f: nat, tail: string)
    requires f < SECOND && AfterNumber(tail)
    ensures var s := Decimal(whole) + FractionText(f); ReadUnsigned(s + tail) == Some((whole * SECOND + f, |s|))
  {
    DecimalIs(whole);
    if f == 0 {
      assert Decimal(whole) + FractionText(f) == Decimal(whole);
      WholeBack(Decimal(whole), tail);
    } else {
      FractionBack(Decimal(whole), whole, f, tail);
    }
  }

  lemma {:induction false} FractionBack(d: string, whole: nat, f: nat, tail: string)
    requires AllDigits(d) && |d| > 0 && Number(d) == whole && 0 < f < SECOND && AfterNumber(tail)
    ensures ReadUnsigned((d + FractionText(f)) + tail) == Some((whole * SECOND + f, |d + FractionText(f)|))
  {
    FractionIs(f);
    FractionWith(d, TrimZeros(Padded(f, 9)), whole, f, tail);
  }

  lemma {:induction false} FractionWith(d: string, t: string, whole: nat, f: nat, tail: string)
    requires AllDigits(d) && |d| > 0 && Number(d) == whole && AfterNumber(tail)
    requires AllDigits(t) && 0 < |t| <= 9 && Shifted(Number(t), 9 - |t|) == f
    ensures ReadUnsigned((d + ("." + t)) + tail) == Some((whole * SECOND + f, |d + ("." + t)|))
  {
    Around(d, t, tail);
    PointBack(d, t, tail, f);
  }

  lemma {:induction false} Around(d: string, t: string, tail: string)
    ensures (d + ("." + t)) + tail == d + ("." + (t + tail)) && |d + ("." + t)| == |d| + 1 + |t|
  {
  }

  lemma {:induction false} MinusBack(s: string, v: nat, k: nat)
    requires ReadUnsigned(s) == Some((v, k))
    ensures ReadNumber("-" + s) == Some((-(v as int), k + 1))
  {
    assert ("-" + s)[0] == '-' && ("-" + s)[1..] == s;
  }

  lemma {:induction false} PlainBack(s: string, tail: string)
    requires |s| > 0 && IsDigit(s[0])
    ensures ReadNumber(s + tail) == match ReadUnsigned(s + tail) case None => None case Some(r) => Some((r.0 as int, r.1))
  {
    assert (s + tail)[0] == s[0];
  }

  function Magnitude(p: Part): (s: string)
    ensures |s| > 0 && IsDigit(s[0])
  {
    Decimal(p.whole) + FractionText(p.fraction)
  }

  lemma {:induction false} NumberTextIs(p: Part)
    ensures NumberText(p) == if p.negative then "-" + Magnitude(p) else Magnitude(p)
  {
    assert "" + Magnitude(p) == Magnitude(p);
  }

  lemma {:induction false} NumberBack(p: Part, tail: string)
    requires p.fraction < SECOND && AfterNumber(tail)
    ensures ReadNumber(NumberText(p) + tail) == Some((Value(p), |NumberText(p)|))
  {
    NumberTextIs(p);
    MagnitudeBack(p, tail);
    NumberFrom(p, NumberText(p), Magnitude(p), tail);
  }

  lemma {:induction false} MagnitudeBack(p: Part, tail: string)
    requires p.fraction < SECOND && AfterNumber(tail)
    ensures ReadUnsigned(Magnitude(p) + tail) == Some((p.whole * SECOND + p.fraction, |Magnitude(p)|))
  {
    UnsignedBack(p.whole, p.fraction, tail);
  }

  lemma {:induction false} NumberFrom(p: Part, text: string, s: string, tail: string)
    requires |s| > 0 && IsDigit(s[0]) && ReadUnsigned(s + tail) == Some((p.whole * SECOND + p.fraction, |s|))
    requires text == if p.negative then "-" + s else s
    ensures ReadNumber(text + tail) == Some((Value(p), |text|))
  {
    SignedBack(p.negative, s, tail, p.whole * SECOND + p.fraction);
  }

  lemma {:induction false} SignedBack(negative: bool, s: string, tail: string, v: nat)
    requires |s| > 0 && IsDigit(s[0]) && ReadUnsigned(s + tail) == Some((v, |s|))
    ensures negative ==> ReadNumber(("-" + s) + tail) == Some((-(v as int), |"-" + s|))
    ensures !negative ==> ReadNumber(s + tail) == Some((v as int, |s|))
  {
    MinusBack(s + tail, v, |s|);
    Assoc("-", s, tail);
    PlainBack(s, tail);
  }

  lemma {:induction false} Assoc(a: string, b: string, c: string)
    ensures (a + b) + c == a + (b + c)
  {
  }

  predicate GoodPart(p: Part)
  {
    p.fraction < SECOND && p.unit in "YMDHS"
  }

  function Reads(ps: seq<Part>): (rs: seq<Read>)
    ensures |rs| == |ps| && forall i :: 0 <= i < |ps| ==> rs[i] == Read(Value(ps[i]), ps[i].unit)
  {
    if ps == [] then [] else [Read(Value(ps[0]), ps[0].unit)] + Reads(ps[1..])
  }

  /** Components are read back one by one, up to the end or a `T`. */
  lemma {:induction false} PartsBack(ps: seq<Part>, tail: string)
    requires (forall i :: 0 <= i < |ps| ==> GoodPart(ps[i])) && (tail == "" || tail[0] == 'T')
    ensures ReadParts(Text(ps) + tail) == Some((Reads(ps), tail))
    decreases |ps|
  {
    if ps == [] {
      assert Text(ps) + tail == tail;
    } else {
      PartsBack(ps[1..], tail);
      Regroup(NumberText(ps[0]), [ps[0].unit], Text(ps[1..]), tail);
      PartBack(ps[0], Text(ps[1..]) + tail, Reads(ps[1..]), tail);
    }
  }

  lemma {:induction false} Regroup(a: string, b: string, c: string, d: string)
    ensures (a + (b + c)) + d == a + (b + (c + d))
  {
  }

  lemma {:induction false} PartBack(p: Part, more: string, rs: seq<Read>, rest: string)
    requires GoodPart(p) && ReadParts(more) == Some((rs, rest))
    ensures ReadParts(NumberText(p) + ([p.unit] + more)) == Some(([Read(Value(p), p.unit)] + rs, rest))
  {
    NumberBack(p, [p.unit] + more);
    FirstChar(p);
    UnitAfter(NumberText(p), p.unit, more);
    OnePart(NumberText(p) + ([p.unit] + more), Value(p), |NumberText(p)|, p.unit, rs, rest);
  }

  lemma {:induction false} UnitAfter(n: string, unit: char, more: string)
    requires |n| > 0
    ensures var s := n + ([unit] + more); s[0] == n[0] && |n| < |s| && s[|n|] == unit && s[|n| + 1..] == more
  {
  }

  lemma {:induction false} OnePart(s: string, v: int, k: nat, unit: char, rs: seq<Read>, rest: string)
    requires s != "" && s[0] != 'T' && ReadNumber(s) == Some((v, k)) && k < |s| && s[k] == unit && ReadParts(s[k + 1..]) == Some((rs, rest))
    ensures ReadParts(s) == Some(([Read(v, unit)] + rs, rest))
  {
  }

  lemma {:induction false} FirstChar(p: Part)
    ensures |NumberText(p)| > 0 && NumberText(p)[0] != 'T'
  {
    var d := Decimal(p.whole);
    if !p.negative { assert NumberText(p)[0] == d[0]; }
  }

  // ---------------------------------------------------------------------------------------------
  // Duration.String
  // ---------------------------------------------------------------------------------------------

  /** An int64 as its 64 bits. */
  function ToSigned(x: bv64): int
  {
    if x >= 0x8000_0000_0000_0000 then x as int - 0x1_0000_0000_0000_0000 else x as int
  }

  /** Shifting and flipping give the bits of -1 if the top bit is set and of 1 if not. */
  lemma {:induction false} SignBits(x: bv64)
    ensures (!((x >> 63) - 1)) | 1 == if x >= 0x8000_0000_0000_0000 then 0xffff_ffff_ffff_ffff else 1
  {
  }

  /** So the bits are juggled to the very number a branch would give. */
  lemma {:induction false} SignTrick(x: bv64)
    ensures ToSigned((!((x >> 63) - 1)) | 1) == Sign(ToSigned(x))
  {
    SignBits(x);
    assert (0xffff_ffff_ffff_ffff as bv64) as int == 0xffff_ffff_ffff_ffff;
    assert (1 as bv64) as int == 1;
  }

  function Sign(x: int): int
  {
    if x < 0 then -1 else 1
  }

  predicate HasTime(d: Duration)
  {
    d.seconds != 0 || d.nanos != 0
  }

  predicate HasDate(d: Duration)
  {
    d.months != 0 || d.days != 0
  }

  function TimeOf(d: Duration): int
  {
    d.seconds * SECOND + d.nanos
  }

  /** The time of a duration, divided up. */
  datatype Clock = Clock(hours: int, minutes: int, seconds: int, nanos: int)

  function ClockNanos(c: Clock): int
  {
    ((c.hours * 60 + c.minutes) * 60 + c.seconds) * SECOND + c.nanos
  }

  predicate Narrow(c: Clock)
  {
    -60 < c.minutes < 60 && -60 < c.seconds < 60 && -SECOND < c.nanos < SECOND
  }

  /** If the time is nothing, so is every one of its components. */
  lemma {:induction false} NothingLeft(c: Clock)
    requires Narrow(c)
    ensures ClockNanos(c) == 0 <==> c.hours == 0 && c.minutes == 0 && c.seconds == 0 && c.nanos == 0
  {
    if ClockNanos(c) == 0 {
      var s := (c.hours * 60 + c.minutes) * 60 + c.seconds;
      assert s * SECOND == -c.nanos;
      assert s == 0 && c.nanos == 0;
      var m := c.hours * 60 + c.minutes;
      assert m * 60 == -c.seconds;
    }
  }

  function Seconds(seconds: int, nanos: int): (ps: seq<Part>)
    requires -SECOND < nanos < SECOND
  {
    if nanos < 0 then
      if seconds < 0 then [Part(true, -seconds, -nanos, 'S')]
      else if seconds > 0 then [Part(false, seconds - 1, SECOND + nanos, 'S')]
      else [Part(true, 0, -nanos, 'S')]
    else if nanos > 0 then
      if seconds < -1 then [Part(true, -(seconds + 1), SECOND - nanos, 'S')]
      else if seconds > -1 then [Part(false, seconds, nanos, 'S')]
      else [Part(true, 0, SECOND - nanos, 'S')]
    else if seconds != 0 then [Whole(seconds, 'S')] else []
  }

  function Optional(i: int, unit: char): seq<Part>
  {
    if i != 0 then [Whole(i, unit)] else []
  }

  function TimeParts(c: Clock): seq<Part>
    requires Narrow(c)
  {
    Optional(c.hours, 'H') + (Optional(c.minutes, 'M') + Seconds(c.seconds, c.nanos))
  }

  function DateParts(d: Duration): seq<Part>
  {
    Optional(TruncDiv(d.months, 12), 'Y') + (Optional(TruncMod(d.months, 12), 'M') + Optional(d.days, 'D'))
  }

  // --- what the components add up to -----------------------------------------------------------

  lemma {:induction false} ReadsConcat(a: seq<Part>, b: seq<Part>)
    ensures Reads(a + b) == Reads(a) + Reads(b)
  {
  }

  lemma {:induction false} TotalConcat(a: seq<Read>, b: seq<Read>, u: char)
    ensures Total(a + b, u) == Total(a, u) + Total(b, u)
  {
    if a == [] {
      assert a + b == b;
    } else {
      assert (a + b)[1..] == a[1..] + b;
      TotalConcat(a[1..], b, u);
    }
  }

  lemma {:induction false} OptionalTotal(i: int, unit: char, u: char)
    ensures Total(Reads(Optional(i, unit)), u) == if u == unit then i * SECOND else 0
  {
    if i != 0 { assert Reads(Optional(i, unit))[1..] == []; }
  }

  lemma {:induction false} SecondsTotal(seconds: int, nanos: int, u: char)
    requires -SECOND < nanos < SECOND
    ensures Total(Reads(Seconds(seconds, nanos)), u) == if u == 'S' then seconds * SECOND + nanos else 0
  {
    var ps := Seconds(seconds, nanos);
    if ps != [] {
      assert Reads(ps)[1..] == [];
      assert Value(ps[0]) == seconds * SECOND + nanos;
    }
  }

  lemma {:induction false} ThreeTotal(a: seq<Part>, b: seq<Part>, c: seq<Part>, u: char)
    ensures Total(Reads(a + (b + c)), u) == Total(Reads(a), u) + Total(Reads(b), u) + Total(Reads(c), u)
  {
    ReadsConcat(a, b + c);
    ReadsConcat(b, c);
    TotalConcat(Reads(a), Reads(b + c), u);
    TotalConcat(Reads(b), Reads(c), u);
  }

  lemma {:induction false} TimePartsMean(c: Clock)
    requires Narrow(c)
    ensures TimeMeaning(Reads(TimeParts(c))) == Some(ClockNanos(c))
    ensures forall i :: 0 <= i < |TimeParts(c)| ==> GoodPart(TimeParts(c)[i])
    ensures TimeParts(c) == [] <==> ClockNanos(c) == 0
  {
    var h, m, s := Optional(c.hours, 'H'), Optional(c.minutes, 'M'), Seconds(c.seconds, c.nanos);
    forall u: char ensures Total(Reads(TimeParts(c)), u)
      == (if u == 'H' then c.hours * SECOND else 0) + (if u == 'M' then c.minutes * SECOND else 0) + (if u == 'S' then c.seconds * SECOND + c.nanos else 0)
    {
      ThreeTotal(h, m, s, u);
      OptionalTotal(c.hours, 'H', u);
      OptionalTotal(c.minutes, 'M', u);
      SecondsTotal(c.seconds, c.nanos, u);
    }
    PartsAreGood(h, m, s, "HMS");
    NothingLeft(c);
  }

  lemma {:induction false} PartsAreGood(a: seq<Part>, b: seq<Part>, c: seq<Part>, units: string)
    requires forall i :: 0 <= i < |a| ==> GoodPart(a[i]) && a[i].unit in units
    requires forall i :: 0 <= i < |b| ==> GoodPart(b[i]) && b[i].unit in units
    requires forall i :: 0 <= i < |c| ==> GoodPart(c[i]) && c[i].unit in units
    ensures forall i :: 0 <= i < |a + (b + c)| ==> GoodPart((a + (b + c))[i]) && (a + (b + c))[i].unit in units
    ensures Units(Reads(a + (b + c)), units)
  {
  }

  lemma {:induction false} DateTotal(d: Duration, u: char)
    ensures Total(Reads(DateParts(d)), u)
      == (if u == 'Y' then TruncDiv(d.months, 12) * SECOND else 0) + (if u == 'M' then TruncMod(d.months, 12) * SECOND else 0)
         + (if u == 'D' then d.days * SECOND else 0)
  {
    var years, months := TruncDiv(d.months, 12), TruncMod(d.months, 12);
    ThreeTotal(Optional(years, 'Y'), Optional(months, 'M'), Optional(d.days, 'D'), u);
    OptionalTotal(years, 'Y', u);
    OptionalTotal(months, 'M', u);
    OptionalTotal(d.days, 'D', u);
  }

  lemma {:induction false} Exactly(v: int)
    ensures WholeNumber(v * SECOND) && (v * SECOND) / SECOND == v
  {
  }

  lemma {:induction false} DateMeaningIs(ps: seq<Read>, y: int, m: int, d: int)
    requires Units(ps, "YMD") && Total(ps, 'Y') == y * SECOND && Total(ps, 'M') == m * SECOND && Total(ps, 'D') == d * SECOND
    ensures DateMeaning(ps) == Some(Meaning(12 * y + m, d, 0))
  {
    Exactly(y);
    Exactly(m);
    Exactly(d);
  }

  lemma {:induction false} DatePartsGood(d: Duration)
    ensures forall i :: 0 <= i < |DateParts(d)| ==> GoodPart(DateParts(d)[i])
    ensures Units(Reads(DateParts(d)), "YMD")
    ensures DateParts(d) == [] <==> !HasDate(d)
  {
    TruncIs(d.months, 12);
    PartsAreGood(Optional(TruncDiv(d.months, 12), 'Y'), Optional(TruncMod(d.months, 12), 'M'), Optional(d.days, 'D'), "YMD");
  }

  lemma {:induction false} DatePartsMean(d: Duration)
    ensures DateMeaning(Reads(DateParts(d))) == Some(Meaning(d.months, d.days, 0))
    ensures forall i :: 0 <= i < |DateParts(d)| ==> GoodPart(DateParts(d)[i])
    ensures DateParts(d) == [] <==> !HasDate(d)
  {
    DatePartsGood(d);
    DateTotal(d, 'Y');
    DateTotal(d, 'M');
    DateTotal(d, 'D');
    TruncIs(d.months, 12);
    DateMeaningIs(Reads(DateParts(d)), TruncDiv(d.months, 12), TruncMod(d.months, 12), d.days);
  }

  // --- dividing the time -----------------------------------------------------------------------

  /** Minutes and seconds of unlike sign are made alike. */
  function Alike(minutes: int, seconds: int): (int, int)
  {
    if minutes != 0 && seconds != 0 && Sign(minutes) != Sign(seconds)
    then (minutes + Sign(seconds), seconds + 60 * Sign(minutes)) else (minutes, seconds)
  }

  /** The division as Go does it, in 64 bits. */
  function Divided(d: Duration): Clock
  {
    var seconds := TruncMod(d.seconds, 60) + TruncDiv(d.nanos, SECOND);
    var (m, s) := Alike(TruncDiv(d.seconds, 60) + TruncDiv(seconds, 60), TruncMod(seconds, 60));
    Clock(TruncDiv(m, 60), TruncMod(m, 60), s, TruncMod(d.nanos, SECOND))
  }

  lemma {:induction false} AlikeIs(minutes: int, seconds: int)
    requires -60 < seconds < 60
    ensures var (m, s) := Alike(minutes, seconds); m * 60 + s == minutes * 60 + seconds && -60 < s < 60
  {
  }

  lemma {:induction false} TruncIs(a: int, b: int)
    requires b > 0
    ensures a == TruncDiv(a, b) * b + TruncMod(a, b) && -b < TruncMod(a, b) < b
    ensures (a >= 0 ==> 0 <= TruncMod(a, b) && 0 <= TruncDiv(a, b) <= a) && (a <= 0 ==> TruncMod(a, b) <= 0 && a <= TruncDiv(a, b) <= 0)
  {
    if a >= 0 { DivBounds(a, b); } else { DivBounds(-a, b); }
  }

  lemma {:induction false} DivBounds(a: int, b: int)
    requires a >= 0 && b > 0
    ensures 0 <= a / b <= a && a == (a / b) * b + a % b
  {
    QuotientSmall(a / b, b, a % b);
  }

  lemma {:induction false} QuotientSmall(q: int, b: int, r: nat)
    requires b > 0 && q >= 0
    ensures q <= q * b + r
  {
    assert q * b == q * (b - 1) + q;
    assert q * (b - 1) >= 0;
  }

  /** Nothing is lost in the division, and every component is within its bounds. */
  lemma {:induction false} DividedIs(d: Duration)
    ensures Narrow(Divided(d)) && ClockNanos(Divided(d)) == TimeOf(d)
  {
    TruncIs(d.seconds, 60);
    TruncIs(d.nanos, SECOND);
    var seconds := TruncMod(d.seconds, 60) + TruncDiv(d.nanos, SECOND);
    TruncIs(seconds, 60);
    var minutes := TruncDiv(d.seconds, 60) + TruncDiv(seconds, 60);
    AlikeIs(minutes, TruncMod(seconds, 60));
    var (m, s) := Alike(minutes, TruncMod(seconds, 60));
    TruncIs(m, 60);
    Rebuilt(d, TruncDiv(d.nanos, SECOND), TruncMod(d.nanos, SECOND), m, s, Divided(d));
  }

  lemma {:induction false} Rebuilt(d: Duration, whole: int, rest: int, m: int, s: int, c: Clock)
    requires d.nanos == whole * SECOND + rest && m * 60 + s == d.seconds + whole
    requires c.hours * 60 + c.minutes == m && c.seconds == s && c.nanos == rest
    ensures ClockNanos(c) == TimeOf(d)
  {
  }

  // --- the text --------------------------------------------------------------------------------

  function StringOf(d: Duration): string
  {
    if !HasTime(d) && !HasDate(d) then "PT0S" else
    DividedIs(d);
    "P" + (Text(DateParts(d)) + if HasTime(d) then "T" + Text(TimeParts(Divided(d))) else "")
  }

  /**
   * What is printed means exactly the months, days and nanoseconds of the duration; except that if
   * seconds and nanoseconds cancel out and are not both zero, a `T` is printed with nothing behind
   * it, which is no duration.
   */
  lemma {:induction false} StringMeans(d: Duration)
    ensures ReadDuration(StringOf(d)) == if HasTime(d) && TimeOf(d) == 0 then None else Some(Meaning(d.months, d.days, TimeOf(d)))
  {
    DatePartsMean(d);
    DividedIs(d);
    TimePartsMean(Divided(d));
    if !HasTime(d) && !HasDate(d) {
      Zero();
    } else if HasTime(d) {
      WithTime(DateParts(d), TimeParts(Divided(d)));
    } else {
      WithoutTime(DateParts(d));
    }
  }

  lemma {:induction false} WithTime(date: seq<Part>, time: seq<Part>)
    requires forall i :: 0 <= i < |date| ==> GoodPart(date[i])
    requires forall i :: 0 <= i < |time| ==> GoodPart(time[i])
    requires DateMeaning(Reads(date)).Some? && TimeMeaning(Reads(time)).Some?
    ensures ReadDuration("P" + (Text(date) + ("T" + Text(time))))
         == if time == [] then None else Some(DateMeaning(Reads(date)).value.(time := TimeMeaning(Reads(time)).value))
  {
    PartsBack(date, "T" + Text(time));
    assert Text(time) == Text(time) + "";
    PartsBack(time, "");
    Tails(Text(date), Text(time));
    WholeText("P" + (Text(date) + ("T" + Text(time))), Reads(date), "T" + Text(time), Reads(time));
  }

  lemma {:induction false} Tails(date: string, time: string)
    ensures ("P" + (date + ("T" + time)))[0] == 'P' && ("P" + (date + ("T" + time)))[1..] == date + ("T" + time) && ("T" + time)[1..] == time
  {
  }

  lemma {:induction false} WholeText(s: string, date: seq<Read>, rest: string, time: seq<Read>)
    requires s != "" && s[0] == 'P' && ReadParts(s[1..]) == Some((date, rest)) && rest != "" && ReadParts(rest[1..]) == Some((time, ""))
    requires DateMeaning(date).Some? && TimeMeaning(time).Some?
    ensures ReadDuration(s) == if time == [] then None else Some(DateMeaning(date).value.(time := TimeMeaning(time).value))
  {
  }

  lemma {:induction false} WithoutTime(date: seq<Part>)
    requires (forall i :: 0 <= i < |date| ==> GoodPart(date[i])) && date != [] && DateMeaning(Reads(date)).Some?
    ensures ReadDuration("P" + (Text(date) + "")) == DateMeaning(Reads(date))
  {
    PartsBack(date, "");
    assert ("P" + (Text(date) + ""))[1..] == Text(date) + "";
  }

  lemma {:induction false} ZeroText()
    ensures Text([Part(false, 0, 0, 'S')]) == "0S"
  {
    var p := Part(false, 0, 0, 'S');
    assert Decimal(0) == "0";
    assert NumberText(p) == "" + ("0" + "");
    assert [p][1..] == [] && Text([]) == "";
    assert Text([p]) == "0" + (['S'] + "");
  }

  lemma {:induction false} ZeroMeans()
    ensures TimeMeaning(Reads([Part(false, 0, 0, 'S')])) == Some(0) && DateMeaning(Reads([])) == Some(Meaning(0, 0, 0))
  {
    var rs := Reads([Part(false, 0, 0, 'S')]);
    assert rs == [Read(0, 'S')] && rs[1..] == [];
  }

  lemma {:induction false} Zero()
    ensures ReadDuration("PT0S") == Some(Meaning(0, 0, 0))
  {
    var zero := [Part(false, 0, 0, 'S')];
    ZeroText();
    ZeroMeans();
    WithTime([], zero);
    assert Text([]) == "";
    assert "P" + ("" + ("T" + "0S")) == "PT0S";
  }

  lemma {:induction false} TextWithTime(d: Duration)
    requires HasTime(d) && Narrow(Divided(d))
    ensures StringOf(d) == "P" + (Text(DateParts(d)) + ("T" + Text(TimeParts(Divided(d)))))
  {
  }

  /** Whenever seconds and nanoseconds cancel out, the text is that of the date and a bare `T`. */
  lemma {:induction false} CancelsOut(d: Duration)
    requires HasTime(d) && TimeOf(d) == 0
    ensures StringOf(d) == "P" + (Text(DateParts(d)) + "T")
  {
    DividedIs(d);
    NothingLeft(Divided(d));
    NoTimeParts(Divided(d));
    TextWithTime(d);
    BareT();
  }

  lemma {:induction false} NoDateParts(d: Duration)
    requires !HasDate(d)
    ensures DateParts(d) == []
  {
  }

  lemma {:induction false} NoTimeParts(c: Clock)
    requires c == Clock(0, 0, 0, 0)
    ensures TimeParts(c) == []
  {
  }

  lemma {:induction false} BareT()
    ensures Text([]) == "" && "T" + Text([]) == "T" && "P" + ("" + "T") == "PT"
  {
  }

  lemma {:induction false} OneSecondLessItself()
    ensures StringOf(Duration(0, 0, 1, -1_000_000_000)) == "PT"
  {
    CancelsOut(Duration(0, 0, 1, -1_000_000_000));
    NoDateParts(Duration(0, 0, 1, -1_000_000_000));
    BareT();
  }

  // ---------------------------------------------------------------------------------------------
  // Step by step
  // ---------------------------------------------------------------------------------------------

  lemma {:induction false} TextSnoc(ps: seq<Part>, p: Part)
    ensures Text(ps + [p]) == Text(ps) + (NumberText(p) + [p.unit])
  {
    if ps == [] {
      assert ps + [p] == [p] && [p][1..] == [];
      assert NumberText(p) + ([p.unit] + "") == "" + (NumberText(p) + [p.unit]);
    } else {
      assert (ps + [p])[1..] == ps[1..] + [p];
      TextSnoc(ps[1..], p);
      Regroup(NumberText(ps[0]), [ps[0].unit], Text(ps[1..]), NumberText(p) + [p.unit]);
    }
  }

  /** A component appended to the text. */
  method Append(res: string, p: Part, ghost ps: seq<Part>, ghost start: string) returns (r: string)
    requires res == start + Text(ps)
    ensures r == start + Text(ps + [p])
  {
    TextSnoc(ps, p);
    Assoc(start, Text(ps), NumberText(p) + [p.unit]);
    r := res + (NumberText(p) + [p.unit]);
  }

  method AppendDate(d: Duration, start: string) returns (res: string)
    requires Typed(d)
    ensures res == start + Text(DateParts(d))
  {
    res := start;
    ghost var ps: seq<Part> := [];
    var years, months := TruncDiv(d.months, 12), TruncMod(d.months, 12);
    TruncIs(d.months, 12);
    assert IsInt64(years) && IsInt64(months);
    if years != 0 { res := Append(res, Whole(years, 'Y'), ps, start); ps := ps + [Whole(years, 'Y')]; }
    if months != 0 { res := Append(res, Whole(months, 'M'), ps, start); ps := ps + [Whole(months, 'M')]; }
    if d.days != 0 { res := Append(res, Whole(d.days, 'D'), ps, start); ps := ps + [Whole(d.days, 'D')]; }
    assert ps == DateParts(d);
  }

  /** The division of the time, every intermediate result within 64 bits. */
  method Divide(d: Duration) returns (c: Clock)
    requires Typed(d)
    ensures c == Divided(d)
  {
    var minutes1, seconds := TruncDiv(d.seconds, 60), TruncMod(d.seconds, 60);
    TruncIs(d.seconds, 60);
    var secondsNanos, nanos := TruncDiv(d.nanos, SECOND), TruncMod(d.nanos, SECOND);
    TruncIs(d.nanos, SECOND);
    seconds := seconds + secondsNanos;
    assert IsInt64(minutes1) && IsInt64(seconds);
    var minutes2, rest := TruncDiv(seconds, 60), TruncMod(seconds, 60);
    TruncIs(seconds, 60);
    var minutes := minutes1 + minutes2;
    assert IsInt64(minutes);
    if minutes != 0 && rest != 0 {
      var signMinutes, signSeconds := Sign(minutes), Sign(rest);
      if signMinutes != signSeconds {
        minutes := minutes + signSeconds;
        rest := rest + 60 * signMinutes;
        assert IsInt64(minutes) && IsInt64(rest);
      }
    }
    c := Clock(TruncDiv(minutes, 60), TruncMod(minutes, 60), rest, nanos);
  }

  method AppendSeconds(res: string, seconds: int, nanos: int, ghost ps: seq<Part>, ghost start: string) returns (r: string)
    requires -SECOND < nanos < SECOND && -60 < seconds < 60 && res == start + Text(ps)
    ensures r == start + Text(ps + Seconds(seconds, nanos))
  {
    if nanos < 0 {
      if seconds < 0 {
        r := Append(res, Part(true, -seconds, -nanos, 'S'), ps, start);
      } else if seconds > 0 {
        r := Append(res, Part(false, seconds - 1, SECOND + nanos, 'S'), ps, start);
      } else {
        r := Append(res, Part(true, 0, -nanos, 'S'), ps, start);
      }
    } else if nanos > 0 {
      if seconds < -1 {
        r := Append(res, Part(true, -(seconds + 1), SECOND - nanos, 'S'), ps, start);
      } else if seconds > -1 {
        r := Append(res, Part(false, seconds, nanos, 'S'), ps, start);
      } else {
        r := Append(res, Part(true, 0, SECOND - nanos, 'S'), ps, start);
      }
    } else if seconds != 0 {
      r := Append(res, Whole(seconds, 'S'), ps, start);
    } else {
      r := res;
      assert ps + [] == ps;
    }
  }

  method AppendTime(d: Duration, start: string) returns (res: string)
    requires Typed(d)
    ensures Narrow(Divided(d)) && res == start + Text(TimeParts(Divided(d)))
  {
    DividedIs(d);
    var c := Divide(d);
    res := start;
    ghost var ps: seq<Part> := [];
    if c.hours != 0 { res := Append(res, Whole(c.hours, 'H'), ps, start); ps := ps + [Whole(c.hours, 'H')]; }
    if c.minutes != 0 { res := Append(res, Whole(c.minutes, 'M'), ps, start); ps := ps + [Whole(c.minutes, 'M')]; }
    res := AppendSeconds(res, c.seconds, c.nanos, ps, start);
    assert ps + Seconds(c.seconds, c.nanos) == TimeParts(c);
  }

  /** Duration.String: exactly the text whose meaning StringMeans tells. */
  method String(d: Duration) returns (res: string)
    requires Typed(d)
    ensures res == StringOf(d)
  {
    if d.seconds == 0 && d.nanos == 0 && d.months == 0 && d.days == 0 { return "PT0S"; }
    res := "P";
    if HasDate(d) { res := AppendDate(d, res); } else { NoDateParts(d); }
    ghost var date := Text(DateParts(d));
    assert res == "P" + date;
    if HasTime(d) {
      res := AppendTime(d, res + "T");
      TextWithTime(d);
      Assoc("P" + date, "T", Text(TimeParts(Divided(d))));
      Assoc("P", date, "T" + Text(TimeParts(Divided(d))));
    } else {
      assert date + "" == date;
    }
  }
}
