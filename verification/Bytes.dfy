/** What all parts share: octets, the big-endian integers of the wire formats, lists and Go's division. */
module Bytes {

  type Byte = x: int | 0 <= x < 0x100

  datatype Option<+T> = None | Some(value: T)

  /** The list without the first occurrence of `x`. */
  function Without<T(==)>(l: seq<T>, x: T): (r: seq<T>)
    ensures |r| <= |l|
  {
    if l == [] then [] else if l[0] == x then l[1..] else [l[0]] + Without(l[1..], x)
  }

  /** Go's division truncates towards zero. */
  function TruncDiv(a: int, b: int): int
    requires b > 0
  {
    if a >= 0 then a / b else -((-a) / b)
  }

  /** Go's remainder has the sign of the dividend. */
  function TruncMod(a: int, b: int): int
    requires b > 0
  {
    a - TruncDiv(a, b) * b
  }

  /** The number of values a `width`-byte unsigned integer can take. */
  function Pow256(width: nat): (p: nat)
    ensures p >= 1
  {
    if width == 0 then 1 else 0x100 * Pow256(width - 1)
  }

  /** `n` in exactly `width` bytes, most significant first; higher bytes are dropped. */
  function BigEndian(n: nat, width: nat): (b: seq<Byte>)
    ensures |b| == width
    decreases width
  {
    if width == 0 then [] else BigEndian(n / 0x100, width - 1) + [n % 0x100]
  }

  function FromBigEndian(b: seq<Byte>): (n: nat)
  {
    if b == [] then 0 else FromBigEndian(b[..|b| - 1]) * 0x100 + b[|b| - 1]
  }

  lemma {:induction false} Pow256Values()
    ensures Pow256(1) == 0x100
    ensures Pow256(2) == 0x1_0000
    ensures Pow256(4) == 0x1_0000_0000
    ensures Pow256(8) == 0x1_0000_0000_0000_0000
  {
    assert Pow256(3) == 0x100_0000;
    assert Pow256(5) == 0x100_0000_0000;
    assert Pow256(6) == 0x1_0000_0000_0000;
    assert Pow256(7) == 0x100_0000_0000_0000;
  }

  /** Reading back what was written loses exactly the bytes that did not fit. */
  lemma {:induction false} BigEndianRoundTrip(n: nat, width: nat)
    requires n < Pow256(width)
    ensures FromBigEndian(BigEndian(n, width)) == n
    decreases width
  {
    if width == 0 {
    } else {
      BigEndianRoundTrip(n / 0x100, width - 1);
      var b := BigEndian(n, width);
      assert b[..|b| - 1] == BigEndian(n / 0x100, width - 1);
    }
  }

  /** A big-endian integer of `|b|` bytes is below `256^|b|`. */
  lemma {:induction false} FromBigEndianBound(b: seq<Byte>)
    ensures FromBigEndian(b) < Pow256(|b|)
  {
    if b == [] {
    } else {
      FromBigEndianBound(b[..|b| - 1]);
    }
  }

  /** The two-byte case, written out. */
  lemma {:induction false} BigEndian2(n: nat)
    requires n < 0x1_0000
    ensures BigEndian(n, 2) == [n / 0x100, n % 0x100]
    ensures FromBigEndian(BigEndian(n, 2)) == n
  {
    Pow256Values();
    BigEndianRoundTrip(n, 2);
    assert BigEndian(n, 2) == BigEndian(n / 0x100, 1) + [n % 0x100];
    assert BigEndian(n / 0x100, 1) == BigEndian(n / 0x100 / 0x100, 0) + [n / 0x100 % 0x100];
  }
}
