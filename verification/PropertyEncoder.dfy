/**
 * Encoding property values (encode.go): the walk over a value that packs it, raises the baseline
 * and checks what a list may hold, all in one pass.
 */
module PropertyEncoder {
  import opened Bytes
  import opened PackStream
  import opened PropertyScheme
  import opened PropertyCodec
  import Buffers = PackStreamBuffers

  lemma {:induction false} WireTyped(x: Property)
    requires Typed(x) && !x.PUint? && !x.PList?
    ensures Buffers.Typed(Wire(x))
  {
    if x.PDate? { DayIsFloor(x.wallSeconds); }
  }

  lemma {:induction false} AllTypesSnoc(xs: seq<Property>, x: Property)
    ensures AllTypes(xs + [x]) == AllTypes(xs) + Types(x)
  {
    if xs == [] {
      assert xs + [x] == [x];
    } else {
      assert (xs + [x])[1..] == xs[1..] + [x];
      AllTypesSnoc(xs[1..], x);
    }
  }

  lemma {:induction false} WireAllSnoc(xs: seq<Property>, x: Property)
    ensures WireAll(xs + [x]) == WireAll(xs) + [Wire(x)]
  {
    var ws := WireAll(xs + [x]);
    forall i | 0 <= i < |ws| ensures ws[i] == (WireAll(xs) + [Wire(x)])[i] {}
  }

  /** What has been packed of a list after its header: its elements' bytes, unless one was too long. */
  ghost predicate PackedSoFar(buf: seq<Byte>, err: bool, start: seq<Byte>, startErr: bool, xs: seq<Property>)
  {
    && (startErr ==> err)
    && (Buffers.AllPackable(WireAll(xs)) ==> buf == start + PackAll(WireAll(xs)) && err == startErr)
    && (!Buffers.AllPackable(WireAll(xs)) ==> err)
  }

  lemma {:induction false} PackedOneMore(buf: seq<Byte>, err: bool, start: seq<Byte>, startErr: bool, xs: seq<Property>, x: Property, buf': seq<Byte>, err': bool)
    requires PackedSoFar(buf, err, start, startErr, xs) && (err ==> err')
    requires Packable(Wire(x)) ==> buf' == buf + Pack(Wire(x)) && err' == err
    requires !Packable(Wire(x)) ==> err'
    ensures PackedSoFar(buf', err', start, startErr, xs + [x])
  {
    WireAllSnoc(xs, x);
    if Buffers.AllPackable(WireAll(xs)) && Packable(Wire(x)) {
      Buffers.PackAllSnoc(WireAll(xs), Wire(x));
      Assoc(start, PackAll(WireAll(xs)), Pack(Wire(x)));
    } else {
      Buffers.NotAllPackable(WireAll(xs), Wire(x));
    }
  }

  lemma {:induction false} BaselineOneMore(a: Version, b: Version, c: Version, xs: seq<Property>, x: Property, table: Table)
    requires IsBaseline(b, a, AllTypes(xs), table) && IsBaseline(c, b, Types(x), table)
    ensures IsBaseline(c, a, AllTypes(xs + [x]), table)
  {
    AllTypesSnoc(xs, x);
    BaselineJoin(a, b, c, AllTypes(xs), Types(x), table);
  }

  /** One element that is not accepted, or not of the first one's kind, is enough to refuse a list. */
  lemma {:induction false} Refused(x: Property, i: nat, permitted: Table)
    requires x.PList? && i < |x.items|
    requires !Accepted(x.items[i], true, permitted) || KindOf(x.items[i]) != KindOf(x.items[0])
    ensures !Accepted(x, false, permitted)
  {
  }

  class Encoder {
    const packer: Buffers.Packer
    const permitted: Table
    var baseline: Version
    var err: bool

    constructor (permitted: Table)
      ensures this.permitted == permitted && fresh(packer) && baseline == Version(0, 0) && !err && packer.buf == [] && !packer.err
    {
      this.permitted := permitted;
      packer := new Buffers.Packer([]);
      baseline, err := Version(0, 0), false;
    }

    method Accept(t: PType) returns (ok: bool)
      modifies this
      ensures ok == (t in permitted)
      ensures ok ==> err == old(err) && IsBaseline(baseline, old(baseline), {t}, permitted)
      ensures !ok ==> err && baseline == old(baseline)
    {
      if t !in permitted {
        err := true;
        return false;
      }
      VersionOrder(baseline, baseline, permitted[t]);
      baseline := Max(baseline, permitted[t]);
      ok := true;
    }

    /**
     * Encodes one value. It fails just if the value is not accepted; otherwise the value's bytes are
     * appended, or an error of the packer noted if a length does not fit, and the baseline is raised
     * to the greatest of the types it contains.
     */
    method EncodeOne(x: Property, inList: bool) returns (k: ElemKind)
      requires Typed(x)
      modifies this, packer
      ensures old(err) ==> err && baseline == old(baseline) && packer.buf == old(packer.buf) && packer.err == old(packer.err)
      ensures !old(err) ==> err == !Accepted(x, inList, permitted)
      ensures !err ==> k == KindOf(x) && IsBaseline(baseline, old(baseline), Types(x), permitted)
      ensures !err && Packable(Wire(x)) ==> packer.buf == old(packer.buf) + Pack(Wire(x)) && packer.err == old(packer.err)
      ensures !err && !Packable(Wire(x)) ==> packer.err
      ensures old(packer.err) ==> packer.err
      decreases x, 1
    {
      k := ElemKind(TNull, 0, 0);
      if err { return; }
      if x.PList? {
        k := EncodeList(x, inList);
        return;
      }
      if x.POther? || (inList && (x.PNull? || x.PVector?)) {
        err := true;
        return;
      }
      var ok := Accept(TypeOf(x));
      if !ok { return; }
      if x.PUint? {
        packer.Uint64(x.u);
      } else {
        WireTyped(x);
        packer.PackValue(Wire(x));
      }
      k := KindOf(x);
      assert Types(x) == {TypeOf(x)};
    }

    method EncodeList(x: Property, inList: bool) returns (k: ElemKind)
      requires x.PList? && Typed(x) && !err
      modifies this, packer
      ensures err == !Accepted(x, inList, permitted)
      ensures !err ==> k == KindOf(x) && IsBaseline(baseline, old(baseline), Types(x), permitted)
      ensures !err && Packable(Wire(x)) ==> packer.buf == old(packer.buf) + Pack(Wire(x)) && packer.err == old(packer.err)
      ensures !err && !Packable(Wire(x)) ==> packer.err
      ensures old(packer.err) ==> packer.err
      decreases x, 0
    {
      k := ElemKind(TNull, 0, 0);
      if inList {
        err := true;
        return;
      }
      var ok := Accept(TList);
      if !ok { return; }
      packer.ListHeader(|x.items|, 0x90, 0xd4);
      ghost var start, startErr := packer.buf, packer.err;
      k := EncodeItems(x);
      if err { return; }
      ListDone(x, old(packer.buf), old(packer.err), start, startErr, packer.buf, packer.err);
      k := ElemKind(TList, 0, 0);
    }

    method EncodeItems(x: Property) returns (first: ElemKind)
      requires x.PList? && Typed(x) && !err
      requires TList in permitted
      modifies this, packer
      ensures err == !Accepted(x, false, permitted)
      ensures !err ==> IsBaseline(baseline, old(baseline), AllTypes(x.items), permitted)
      ensures !err ==> PackedSoFar(packer.buf, packer.err, old(packer.buf), old(packer.err), x.items)
      ensures old(packer.err) ==> packer.err
      decreases x, 0, 0
    {
      first := ElemKind(TNull, 0, 0);
      VersionOrder(baseline, baseline, baseline);
      var i := 0;
      while i < |x.items|
        invariant 0 <= i <= |x.items| && !err
        invariant forall j :: 0 <= j < i ==> Accepted(x.items[j], true, permitted) && KindOf(x.items[j]) == first
        invariant IsBaseline(baseline, old(baseline), AllTypes(x.items[..i]), permitted)
        invariant PackedSoFar(packer.buf, packer.err, old(packer.buf), old(packer.err), x.items[..i])
      {
        ghost var b, buf, perr := baseline, packer.buf, packer.err;
        var item := x.items[i];
        var kind := EncodeOne(item, true);
        if err {
          Refused(x, i, permitted);
          return;
        }
        if i == 0 {
          first := kind;
        } else if kind != first {
          err := true;
          Refused(x, i, permitted);
          return;
        }
        BaselineOneMore(old(baseline), b, baseline, x.items[..i], item, permitted);
        PackedOneMore(buf, perr, old(packer.buf), old(packer.err), x.items[..i], item, packer.buf, packer.err);
        assert x.items[..i + 1] == x.items[..i] + [item];
        i := i + 1;
      }
      assert x.items[..i] == x.items;
    }
  }

  lemma {:induction false} ListDone(x: Property, before: seq<Byte>, beforeErr: bool, start: seq<Byte>, startErr: bool, buf: seq<Byte>, err: bool)
    requires x.PList? && start == before + Header(|x.items|, 0x90, 0xd4) && startErr == (beforeErr || |x.items| >= TWO32 - 1)
    requires PackedSoFar(buf, err, start, startErr, x.items)
    ensures Packable(Wire(x)) ==> buf == before + Pack(Wire(x)) && err == beforeErr
    ensures !Packable(Wire(x)) ==> err
    ensures beforeErr ==> err
  {
    var vs := WireAll(x.items);
    assert Wire(x) == ListV(vs);
    assert Packable(Wire(x)) <==> |vs| < TWO32 - 1 && Buffers.AllPackable(vs);
    if Packable(Wire(x)) { Assoc(before, Header(|vs|, 0x90, 0xd4), PackAll(vs)); }
  }

  /** EncodeValue with the whole table, EncodeAAD with the part of it that is reproducible. */
  method Encode(x: Property, permitted: Table) returns (r: Option<Encoded>)
    requires Typed(x)
    ensures r.Some? <==> Accepted(x, false, permitted) && Packable(Wire(x))
    ensures r.Some? ==> EncodesTo(x, permitted, r.value)
  {
    var e := new Encoder(permitted);
    var kind := e.EncodeOne(x, false);
    if e.err { return None; }
    if e.packer.err { return None; }
    assert [] + Pack(Wire(x)) == Pack(Wire(x));
    r := Some(Encoded(e.packer.buf, kind.typ, e.baseline));
  }
}
