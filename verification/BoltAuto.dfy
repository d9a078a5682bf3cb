/**
 * Auto-commit queries on a connection on which nothing fails: one result at a time, each buffered
 * whole before the next query or a transaction begins.
 */
module BoltAuto {
  import opened Bytes
  import opened Bolt
  import opened BoltCalls
  import opened BoltTx

  // ---------------------------------------------------------------------------------------------
  // The invariant
  // ---------------------------------------------------------------------------------------------

  /** What is in order whatever the connection is doing. */
  predicate Sound(w: World)
  {
    Wired(w) && !w.c.err && !w.c.queueErr && !w.hung && !w.p.failed && w.p.honest && !w.p.inTx
  }

  /** The PULL or DISCARD of the result now streaming, without a query id. */
  predicate AsksFor(r: Request, s: nat)
  {
    Asks(r) && r.sid == s && r.qid == None
  }

  /** Acknowledgements aside, only that is outstanding, and at most once. */
  predicate OneAsked(w: World, s: nat)
  {
    && (forall i :: 0 <= i < |w.p.inbox| ==> w.p.inbox[i] == Other || AsksFor(w.p.inbox[i], s))
    && (forall i, j :: 0 <= i < j < |w.p.inbox| ==> !(Asks(w.p.inbox[i]) && Asks(w.p.inbox[j])))
    && (forall i :: 0 <= i < |w.p.inbox| && w.p.inbox[i].Discard? ==> s < |w.c.streams| && w.c.streams[s].discarding)
  }

  /** The result of stream `s` is streaming; what the peer has left of it is under the query id -1. */
  predicate Pending(w: World, s: nat)
  {
    && Sound(w) && s < |w.c.streams| && Live(w.c.streams[s]) && w.c.streams[s].key == w.c.key
    && w.c.curr == Some(s) && w.c.num <= 1 && (w.c.st == Streaming || w.c.st == Ready)
    && w.p.latest == -1 && -1 in w.p.open
    && OneAsked(w, s) && (InFlight(w, s) || w.c.streams[s].endOfBatch)
    && (!w.c.streams[s].discarding ==> w.hist[s].sent + w.p.open[-1] == w.hist[s].rows)
  }

  /** The result of stream `s` has arrived, and nothing but acknowledgements is outstanding. */
  predicate Finished(w: World, s: nat)
  {
    && Sound(w) && s < |w.c.streams| && w.c.streams[s].sum && !w.c.streams[s].err
    && Fresh(w) && NoneOpen(w.c)
    && (!w.c.streams[s].discarding ==> w.hist[s].sent == w.hist[s].rows)
  }

  /** A result with an answer to come is not also marked as waiting to be asked for. */
  predicate Calm(w: World, s: nat)
    requires s < |w.c.streams|
  {
    InFlight(w, s) ==> !w.c.streams[s].endOfBatch
  }

  /** The result is streaming or has arrived. */
  predicate Underway(w: World, s: nat)
  {
    Finished(w, s) || (Pending(w, s) && w.c.st == Streaming)
  }

  /** Every stream but `s` is as it was, and so is what has become of its records. */
  predicate Apart(w: World, v: World, s: nat)
  {
    OthersSame(w, v, s) && forall t :: 0 <= t < |w.hist| && t != s ==> v.hist[t] == w.hist[t]
  }

  lemma {:induction false} ApartTrans(u: World, w: World, v: World, s: nat)
    requires Apart(u, w, s) && Apart(w, v, s)
    ensures Apart(u, v, s)
  {
  }

  // ---------------------------------------------------------------------------------------------
  // Receiving
  // ---------------------------------------------------------------------------------------------

  lemma {:induction false} AutoMessage(w: World, s: nat)
    requires Pending(w, s)
    ensures Receive(w).1 <==> !Receive(w).0.c.err
    ensures Receive(w).1 ==>
              && w.choices != [] && Available(w.p, w.choices[0]) && w.p.inbox != []
              && (w.choices[0].msg.RecordMsg? || w.choices[0].msg.Success?)
              && Receive(w) == Delivered(w.(choices := w.choices[1..]), w.choices[0])
  {
    NoFailureSeen(w);
  }

  /** A suffix of what is outstanding is still in order. */
  lemma {:induction false} OneAskedRest(w: World, v: World, s: nat)
    requires OneAsked(w, s) && w.p.inbox != [] && v.p.inbox == w.p.inbox[1..] && s < |v.c.streams|
    requires s < |w.c.streams| && v.c.streams[s].discarding == w.c.streams[s].discarding
    ensures OneAsked(v, s) && (Asks(w.p.inbox[0]) ==> forall i :: 0 <= i < |v.p.inbox| ==> v.p.inbox[i] == Other)
    ensures InFlight(w, s) && !Asks(w.p.inbox[0]) ==> InFlight(v, s)
  {
    forall i | 0 <= i < |v.p.inbox| ensures v.p.inbox[i] == Other || AsksFor(v.p.inbox[i], s) {
      assert v.p.inbox[i] == w.p.inbox[i + 1];
    }
    forall i, j | 0 <= i < j < |v.p.inbox| ensures !(Asks(v.p.inbox[i]) && Asks(v.p.inbox[j])) {
      assert v.p.inbox[i] == w.p.inbox[i + 1] && v.p.inbox[j] == w.p.inbox[j + 1];
    }
    if InFlight(w, s) && !Asks(w.p.inbox[0]) {
      var i :| 0 <= i < |w.p.inbox| && Asks(w.p.inbox[i]) && w.p.inbox[i].sid == s;
      assert v.p.inbox[i - 1] == w.p.inbox[i];
    }
  }

  lemma {:induction false} AutoRecord(w: World, s: nat, ch: Choice)
    requires Pending(w, s) && Available(w.p, ch) && ch.msg.RecordMsg?
    ensures var v := Delivered(w, ch).0; Pending(v, s) && v.c.st == w.c.st && Apart(w, v, s) && (Calm(w, s) ==> Calm(v, s))
  {
    WiredInRange(w);
    DeliveredPaired(w, ch);
    DeliveredKeepsAll(w, ch);
    var v := Delivered(w, ch).0;
    assert w.p.inbox[0].Pull? && AsksFor(w.p.inbox[0], s);
    assert [w.c.handlers[0]] + w.c.handlers[1..] == w.c.handlers;
    assert v.p.inbox == w.p.inbox;
    assert InFlight(v, s) == InFlight(w, s);
    assert w.hist[s].sent + w.p.open[-1] == w.hist[s].sent + [ch.msg.rec] + w.p.open[-1][1..];
  }

  lemma {:induction false} AutoAck(w: World, s: nat, ch: Choice)
    requires Pending(w, s) && Available(w.p, ch) && ch.msg.Success? && w.p.inbox[0] == Other
    ensures var v := Delivered(w, ch).0; Pending(v, s) && v.c.st == w.c.st && Apart(w, v, s) && (Calm(w, s) ==> Calm(v, s))
  {
    WiredInRange(w);
    DeliveredPaired(w, ch);
    DeliveredKeepsAll(w, ch);
    OneAskedRest(w, Delivered(w, ch).0, s);
  }

  lemma {:induction false} AutoBatch(w: World, s: nat, ch: Choice)
    requires Pending(w, s) && Available(w.p, ch) && ch.msg.Success? && Asks(w.p.inbox[0]) && ch.msg.hasMore
    ensures var v := Delivered(w, ch).0; Pending(v, s) && v.c.st == w.c.st && Apart(w, v, s) && (Calm(w, s) ==> Calm(v, s))
  {
    WiredInRange(w);
    DeliveredPaired(w, ch);
    DeliveredKeepsAll(w, ch);
    assert AsksFor(w.p.inbox[0], s);
    OneAskedRest(w, Delivered(w, ch).0, s);
  }

  lemma {:induction false} AutoEnd(w: World, s: nat, ch: Choice)
    requires Pending(w, s) && Available(w.p, ch) && ch.msg.Success? && Asks(w.p.inbox[0]) && !ch.msg.hasMore
    ensures Finished(Delivered(w, ch).0, s) && Apart(w, Delivered(w, ch).0, s)
  {
    WiredInRange(w);
    DeliveredPaired(w, ch);
    DeliveredKeepsAll(w, ch);
    assert AsksFor(w.p.inbox[0], s);
    OneAskedRest(w, Delivered(w, ch).0, s);
    assert w.hist[s].sent + [] == w.hist[s].sent;
  }

  /** One receive: the result goes on, or it has arrived. */
  lemma {:induction false} AutoReceive(w: World, s: nat)
    requires Pending(w, s) && Receive(w).1
    ensures var v := Receive(w).0;
            Apart(w, v, s) && (Finished(v, s) || (Pending(v, s) && v.c.st == w.c.st && (Calm(w, s) ==> Calm(v, s))))
  {
    AutoMessage(w, s);
    var u := w.(choices := w.choices[1..]);
    var ch := w.choices[0];
    assert InFlight(u, s) == InFlight(w, s);
    assert Pending(u, s);
    if ch.msg.RecordMsg? { AutoRecord(u, s, ch); }
    else if w.p.inbox[0] == Other { AutoAck(u, s, ch); }
    else if ch.msg.hasMore { AutoBatch(u, s, ch); }
    else { AutoEnd(u, s, ch); }
  }

  lemma {:induction false} FinishedDrained(w: World, s: nat)
    requires Finished(w, s) && !ReceiveAll(w).0.c.err
    ensures ReceiveAll(w).1 && Finished(ReceiveAll(w).0, s) && ReceiveAll(w).0.p.inbox == [] && Apart(w, ReceiveAll(w).0, s)
  {
    PlainDrained(w);
    assert Begin !in w.p.inbox;
  }

  lemma {:induction false} AutoReceiveAll(w: World, s: nat)
    requires Underway(w, s) && !ReceiveAll(w).0.c.err
    ensures ReceiveAll(w).1 && Underway(ReceiveAll(w).0, s) && ReceiveAll(w).0.p.inbox == [] && Apart(w, ReceiveAll(w).0, s)
    decreases |w.choices|
  {
    if Finished(w, s) {
      FinishedDrained(w, s);
    } else if w.c.handlers != [] {
      AutoMessage(w, s);
      AutoReceive(w, s);
      AutoReceiveAll(Receive(w).0, s);
      ApartTrans(w, Receive(w).0, ReceiveAll(w).0, s);
    }
  }

  // ---------------------------------------------------------------------------------------------
  // Buffering and consuming the pending result
  // ---------------------------------------------------------------------------------------------

  lemma {:induction false} AutoAsked(w: World, s: nat, y: Stream, r: Request)
    requires Pending(w, s) && w.c.st == Streaming && w.p.inbox == []
    requires Retuned(w.c.streams[s], y) && AsksFor(r, s) && (r.Discard? ==> y.discarding)
    requires !Send(Append(SetStream(w, s, y), r)).c.err
    ensures var v := Send(Append(SetStream(w, s, y), r));
            && Pending(v, s) && v.c.st == Streaming && v.p.inbox == [r] && v.c.handlers != [] && v.c.streams[s] == y
            && Apart(w, v, s)
  {
    var v := Send(Append(SetStream(w, s, y), r));
    assert v.p.inbox == [r];
    assert Asks(v.p.inbox[0]) && v.p.inbox[0].sid == s;
    assert InFlight(v, s);
  }

  /** Buffering ends with the whole result there; it never spins. */
  lemma {:induction false} AutoBufferLoop(w: World, s: nat)
    requires Underway(w, s) && !BufferLoop(w, s).c.err
    ensures Finished(BufferLoop(w, s), s) && BufferLoop(w, s).p.inbox == [] && Apart(w, BufferLoop(w, s), s)
    decreases |w.choices|, if w.c.handlers == [] then 1 else 0
  {
    AutoReceiveAll(w, s);
    var w1 := ReceiveAll(w).0;
    if !Finished(w1, s) {
      assert !InFlight(w1, s);
      var y := w1.c.streams[s].(fetchSize := -1);
      var r := Pull(-1, None, s);
      assert AppendPull(SetStream(w1, s, y), s) == Append(SetStream(w1, s, y), r);
      AutoAsked(w1, s, y, r);
      var w2 := Send(Append(SetStream(w1, s, y), r));
      AutoBufferLoop(w2, s);
      ApartTrans(w1, w2, BufferLoop(w2, s), s);
      ApartTrans(w, w1, BufferLoop(w2, s), s);
    }
  }

  lemma {:induction false} AutoBufferStream(w: World, s: nat)
    requires Underway(w, s) && !BufferStream(w).c.err
    ensures Finished(BufferStream(w), s) && Apart(w, BufferStream(w), s)
  {
    if !Finished(w, s) { AutoBufferLoop(w, s); }
  }

  lemma {:induction false} AutoDiscardLoop(w: World, s: nat, discarded: bool)
    requires Underway(w, s) && w.c.streams[s].discarding
    requires discarded ==> Pending(w, s) && |w.p.inbox| == 1 == |w.c.handlers| && w.p.inbox[0].Discard?
    requires !DiscardLoop(w, s, discarded).c.err
    ensures Finished(DiscardLoop(w, s, discarded), s) && Apart(w, DiscardLoop(w, s, discarded), s)
    decreases |w.choices|, if discarded then 0 else 1
  {
    AutoReceiveAll(w, s);
    var w1 := ReceiveAll(w).0;
    ReceiveAllQuiet(w);
    assert Discarding(w1, s) == Discarding(w, s);
    if discarded { AutoLoneDiscard(w, s); }
    if !Finished(w1, s) {
      var y := w1.c.streams[s].(fetchSize := -1);
      var r := Discard(-1, None, s);
      assert DiscardAsked(w1, s) == Send(Append(SetStream(w1, s, y), r));
      AutoAsked(w1, s, y, r);
      var w2 := DiscardAsked(w1, s);
      AutoDiscardLoop(w2, s, true);
      ApartTrans(w1, w2, DiscardLoop(w2, s, true), s);
      ApartTrans(w, w1, DiscardLoop(w2, s, true), s);
    }
  }

  lemma {:induction false} AutoLoneDiscard(w: World, s: nat)
    requires Pending(w, s) && w.c.st == Streaming && |w.p.inbox| == 1 && w.p.inbox[0].Discard? && !ReceiveAll(w).0.c.err
    ensures Finished(ReceiveAll(w).0, s)
  {
    AutoMessage(w, s);
    var u := w.(choices := w.choices[1..]);
    assert InFlight(u, s) == InFlight(w, s);
    AutoEnd(u, s, w.choices[0]);
    var w1 := Receive(w).0;
    assert w1.c.handlers == [];
    assert ReceiveAll(w) == ReceiveAll(w1) == (w1, true);
  }

  lemma {:induction false} AutoDiscardStream(w: World, s: nat)
    requires Pending(w, s) && w.c.st == Streaming && !DiscardStream(w).c.err
    ensures Finished(DiscardStream(w), s) && Apart(w, DiscardStream(w), s)
  {
    var u := SetStream(w, s, w.c.streams[s].(discarding := true));
    assert InFlight(u, s) == InFlight(w, s);
    assert Pending(u, s);
    AutoDiscardLoop(u, s, false);
    ApartTrans(w, u, DiscardStream(w), s);
  }

  // ---------------------------------------------------------------------------------------------
  // A new query
  // ---------------------------------------------------------------------------------------------

  /** Nothing is streaming; what came before is out of the way. */
  predicate Idle(w: World)
  {
    Fresh(w) && NoneOpen(w.c)
  }

  /** RUN and PULL of the new stream `s` are the last of what is outstanding. */
  predicate Waiting(w: World, s: nat)
  {
    && Sound(w) && w.c.st == Ready && NoneOpen(w.c) && s < |w.c.streams|
    && w.c.streams[s] == NewStream(w.c.streams[s].fetchSize) && w.hist[s] == History([], [], [])
    && |w.p.inbox| >= 2 && w.p.inbox[|w.p.inbox| - 2] == Run(s)
    && w.p.inbox[|w.p.inbox| - 1].Pull? && AsksFor(w.p.inbox[|w.p.inbox| - 1], s)
    && forall i :: 0 <= i < |w.p.inbox| - 2 ==> w.p.inbox[i] == Other
  }

  lemma {:induction false} AutoOpened(w: World, n: int)
    requires Idle(w) && !Open(w, n).c.err
    ensures var v := Open(w, n); var s := |w.c.streams|;
            && Waiting(v, s) && |v.c.streams| == s + 1 && v.c.streams[..s] == w.c.streams && v.hist[..s] == w.hist
            && v.p.inbox[|v.p.inbox| - 1] == Pull(n, None, s)
  {
    var v := Open(w, n);
    assert v.p.inbox == w.p.inbox + [Run(|w.c.streams|), Pull(n, None, |w.c.streams|)];
  }

  lemma {:induction false} WaitingMessage(w: World, s: nat)
    requires Waiting(w, s)
    ensures Receive(w).1 <==> !Receive(w).0.c.err
    ensures Receive(w).1 ==>
              && w.choices != [] && Available(w.p, w.choices[0]) && w.choices[0].msg.Success?
              && Receive(w) == Delivered(w.(choices := w.choices[1..]), w.choices[0])
  {
    NoFailureSeen(w);
  }

  lemma {:induction false} WaitingAck(w: World, s: nat, ch: Choice)
    requires Waiting(w, s) && Available(w.p, ch) && ch.msg.Success? && w.p.inbox[0] == Other
    ensures var v := Delivered(w, ch).0; Waiting(v, s) && Apart(w, v, s)
  {
    WiredInRange(w);
    DeliveredPaired(w, ch);
    DeliveredKeepsAll(w, ch);
    var v := Delivered(w, ch).0;
    assert v.p.inbox == w.p.inbox[1..];
    var n := |w.p.inbox|;
    assert v.p.inbox[n - 3] == w.p.inbox[n - 2] && v.p.inbox[n - 2] == w.p.inbox[n - 1];
  }

  lemma {:induction false} WaitingRun(w: World, s: nat, ch: Choice)
    requires Waiting(w, s) && Available(w.p, ch) && ch.msg.Success? && w.p.inbox[0] == Run(s)
    ensures var v := Delivered(w, ch).0; Pending(v, s) && Calm(v, s) && v.c.st == Ready && Apart(w, v, s)
  {
    WiredInRange(w);
    DeliveredPaired(w, ch);
    DeliveredKeepsAll(w, ch);
    var v := Delivered(w, ch).0;
    assert |w.p.inbox| == 2;
    assert v.p.inbox == [w.p.inbox[1]];
    assert Asks(v.p.inbox[0]) && v.p.inbox[0].sid == s;
    assert v.hist[s].sent + ch.rows == ch.rows;
  }

  lemma {:induction false} AutoAwait(w: World, s: nat)
    requires Waiting(w, s) && !AwaitAttached(w, s).0.c.err
    ensures var (v, ok) := AwaitAttached(w, s); ok && Pending(v, s) && Calm(v, s) && v.c.st == Ready && Apart(w, v, s)
    decreases |w.choices|
  {
    WaitingMessage(w, s);
    var u := w.(choices := w.choices[1..]);
    var w1 := Receive(w).0;
    if w.p.inbox[0] == Other {
      WaitingAck(u, s, w.choices[0]);
      AutoAwait(w1, s);
      ApartTrans(w, w1, AwaitAttached(w1, s).0, s);
    } else {
      WaitingRun(u, s, w.choices[0]);
    }
  }

  /** The new query's result streams, and every earlier stream is as it was. */
  lemma {:induction false} AutoStarted(w: World, n: int)
    requires Idle(w) && !OpenAndAttach(w, n).0.c.err
    ensures var (v, out) := OpenAndAttach(w, n); var s := |w.c.streams|;
            && out == Done && |v.c.streams| == s + 1 && Pending(v, s) && Calm(v, s) && v.c.st == Streaming
            && v.c.streams[..s] == w.c.streams && v.hist[..s] == w.hist
  {
    var s := |w.c.streams|;
    AutoOpened(w, n);
    var w2 := Open(w, n);
    AutoAwait(w2, s);
    var w3 := AwaitAttached(w2, s).0;
    NowStreaming(w3, s);
    assert w3.c.streams[..s] == w2.c.streams[..s] && w3.hist[..s] == w2.hist[..s];
  }

  lemma {:induction false} NowStreaming(w: World, s: nat)
    requires Pending(w, s) && Calm(w, s)
    ensures var v := w.(c := w.c.(st := Streaming)); Pending(v, s) && Calm(v, s)
  {
    assert InFlight(w.(c := w.c.(st := Streaming)), s) == InFlight(w, s);
  }

  // ---------------------------------------------------------------------------------------------
  // The calls
  // ---------------------------------------------------------------------------------------------

  /** Every stream from `base` on has its whole result, but for the last one, which may be streaming. */
  predicate Auto(w: World, base: nat)
  {
    && base <= |w.c.streams| == |w.hist|
    && (forall t :: base <= t < |w.c.streams| - 1 ==> Arrived(w, t))
    && if base == |w.c.streams| then Idle(w)
       else var s := |w.c.streams| - 1; Finished(w, s) || (Pending(w, s) && Calm(w, s) && w.c.st == Streaming)
  }

  predicate Arrived(w: World, t: nat)
    requires t < |w.c.streams| == |w.hist|
  {
    && w.c.streams[t].sum && !w.c.streams[t].err
    && (!w.c.streams[t].discarding ==> w.hist[t].sent == w.hist[t].rows)
  }

  lemma {:induction false} AutoMadeRoom(w: World, base: nat)
    requires Auto(w, base) && !MakeRoom(w).c.err
    ensures var v := MakeRoom(w);
            && Idle(v) && Auto(v, base) && |v.c.streams| == |w.c.streams|
            && (forall t :: base <= t < |v.c.streams| ==> Arrived(v, t))
  {
    if base < |w.c.streams| {
      var s := |w.c.streams| - 1;
      if w.c.st == Streaming { AutoBufferStream(w, s); }
      forall t | base <= t < s ensures Arrived(MakeRoom(w), t) { assert Arrived(w, t); }
    }
  }

  /** A query while the last one's result is pending: that is buffered whole, and the new one streams. */
  lemma {:induction false} RunInAuto(w: World, base: nat, fetchSize: int)
    requires Auto(w, base) && !AutoCommitRun(w, fetchSize).0.c.err
    ensures var (v, out) := AutoCommitRun(w, fetchSize);
            && out == Done && Auto(v, base) && |v.c.streams| == |w.c.streams| + 1
            && (forall t :: base <= t < |w.c.streams| ==> Arrived(v, t))
  {
    AutoMadeRoom(w, base);
    var w1 := MakeRoom(w);
    AutoStarted(w1, NormalizeFetchSize(fetchSize));
    var v := AutoCommitRun(w, fetchSize).0;
    forall t | base <= t < |w.c.streams| ensures Arrived(v, t) {
      assert Arrived(w1, t);
      assert v.c.streams[..|w.c.streams|][t] == w1.c.streams[t] && v.hist[..|w.c.streams|][t] == w1.hist[t];
    }
  }

  /** So it is for a transaction begun then. */
  lemma {:induction false} BeginInAuto(w: World, base: nat, id: nat, sync: bool)
    requires Auto(w, base) && !TxBegin(w, id, sync).0.c.err
    ensures var (v, out) := TxBegin(w, id, sync);
            && out == Done && Boundary(v, |w.c.streams|) && |v.c.streams| == |w.c.streams| && v.c.txId == id
            && (forall t :: base <= t < |w.c.streams| ==> Arrived(v, t))
  {
    AutoMadeRoom(w, base);
    var w1 := MakeRoom(w);
    assert TxBegin(w, id, sync) == TxBegin(w1, id, sync);
    BeginInTx(w1, id, sync);
    forall t | base <= t < |w.c.streams| ensures Arrived(TxBegin(w, id, sync).0, t) { assert Arrived(w1, t); }
  }

  lemma {:induction false} TakenInAuto(w: World, base: nat, s: nat)
    requires Auto(w, base) && base <= s < |w.c.streams| && w.c.streams[s].fifo != []
    ensures Auto(TakeRecord(w, s), base)
  {
    var v := TakeRecord(w, s);
    assert forall t :: InFlight(v, t) == InFlight(w, t);
    assert forall t :: base <= t < |w.c.streams| - 1 ==> Arrived(w, t) ==> Arrived(v, t);
  }

  lemma {:induction false} AutoPulledMore(w: World, s: nat)
    requires Pending(w, s) && Calm(w, s) && w.c.st == Streaming && !PullMore(w, s).c.err
    ensures var v := PullMore(w, s); Pending(v, s) && Calm(v, s) && v.c.st == Streaming && v.c.handlers != [] && Apart(w, v, s)
  {
    if w.c.streams[s].endOfBatch {
      var r := Pull(w.c.streams[s].fetchSize, None, s);
      var w1 := Send(AppendPull(w, s));
      var v := PullMore(w, s);
      assert w1.p.inbox == w.p.inbox + [r];
      assert v.p.inbox[|w.p.inbox|] == r;
      assert InFlight(v, s);
      forall i | 0 <= i < |w.p.inbox| ensures w.p.inbox[i] == Other {}
    } else {
      assert InFlight(w, s);
    }
  }

  lemma {:induction false} StillAuto(w: World, v: World, base: nat)
    requires Auto(w, base) && base < |w.c.streams| && Apart(w, v, |w.c.streams| - 1) && |v.hist| == |v.c.streams|
    requires var s := |w.c.streams| - 1; Finished(v, s) || (Pending(v, s) && Calm(v, s) && v.c.st == Streaming)
    ensures Auto(v, base)
  {
    forall t | base <= t < |v.c.streams| - 1 ensures Arrived(v, t) { assert Arrived(w, t); }
  }

  lemma {:induction false} NextReceived(w: World, base: nat, s: nat)
    requires Auto(w, base) && base <= s == |w.c.streams| - 1 && Pending(w, s) && Calm(w, s) && w.c.st == Streaming
    requires !PullMore(w, s).c.err && Receive(PullMore(w, s)).1
    ensures Auto(Receive(PullMore(w, s)).0, base)
  {
    var w1 := PullMore(w, s);
    AutoPulledMore(w, s);
    AutoReceive(w1, s);
    ApartTrans(w, w1, Receive(w1).0, s);
    StillAuto(w, Receive(w1).0, base);
  }

  /** A record, or the summary once the whole result has been returned or discarded. */
  predicate NextGood(r: (World, Outcome), base: nat, s: nat, n: nat)
  {
    && Auto(r.0, base) && |r.0.c.streams| == n && s < n && (r.1.Rec? || r.1 == Summary)
    && (r.1 == Summary ==> Arrived(r.0, s) && r.0.c.streams[s].fifo == [])
  }

  /** Next returns a record, or the summary once the whole result has been returned or discarded. */
  lemma {:induction false} NextInAuto(w: World, base: nat, s: nat)
    requires Auto(w, base) && base <= s < |w.c.streams| && !NextRecord(w, s).0.c.err
    ensures NextGood(NextRecord(w, s), base, s, |w.c.streams|)
    decreases |w.choices|
  {
    var x := w.c.streams[s];
    if x.fifo != [] {
      TakenInAuto(w, base, s);
    } else if s < |w.c.streams| - 1 {
      assert Arrived(w, s);
      assert NextRecord(w, s) == (w, Summary);
    } else if Pending(w, s) {
      NextPending(w, s);
      NextReceived(w, base, s);
      var w2 := Receive(PullMore(w, s)).0;
      assert NextRecord(w, s) == NextRecord(w2, s);
      NextInAuto(w2, base, s);
    } else {
      assert NextRecord(w, s) == (w, Summary);
    }
  }

  /** While the result is pending and none of it is buffered, Next receives. */
  lemma {:induction false} NextPending(w: World, s: nat)
    requires Pending(w, s) && Calm(w, s) && w.c.st == Streaming && w.c.streams[s].fifo == [] && !NextRecord(w, s).0.c.err
    ensures !PullMore(w, s).c.err && PullMore(w, s).c.handlers != [] && Receive(PullMore(w, s)).1
    ensures !Receive(PullMore(w, s)).0.c.err && |Receive(PullMore(w, s)).0.choices| < |w.choices|
  {
    if !w.c.streams[s].endOfBatch { assert PullMore(w, s) == w; }
    AutoPulledMore(w, s);
    AutoMessage(PullMore(w, s), s);
  }

  /** Buffer leaves the whole result to be read. */
  lemma {:induction false} BufferInAuto(w: World, base: nat, s: nat)
    requires Auto(w, base) && base <= s < |w.c.streams| && !Buffer(w, s).0.c.err
    ensures var (v, out) := Buffer(w, s);
            && out == Done && Auto(v, base) && |v.c.streams| == |w.c.streams|
            && Arrived(v, s) && Discarding(v, s) == Discarding(w, s)
  {
    BufferCallQuiet(w, s);
    if s < |w.c.streams| - 1 {
      assert Arrived(w, s);
    } else if Pending(w, s) {
      AutoBufferStream(w, s);
      StillAuto(w, BufferStream(w), base);
    }
  }

  /** Consume ends with the summary and takes nothing from any other stream. */
  lemma {:induction false} ConsumeInAuto(w: World, base: nat, s: nat)
    requires Auto(w, base) && base <= s < |w.c.streams| && !Consume(w, s).0.c.err
    ensures var (v, out) := Consume(w, s);
            && out == Summary && Auto(v, base) && |v.c.streams| == |w.c.streams|
            && forall t: nat :: t != s ==> Discarding(v, t) == Discarding(w, t)
  {
    if s < |w.c.streams| - 1 {
      assert Arrived(w, s);
    } else if Pending(w, s) {
      AutoDiscardStream(w, s);
      StillAuto(w, DiscardStream(w), base);
      DiscardQuiet(w);
    }
  }

  lemma {:induction false} TelemetryInAuto(w: World, base: nat)
    requires Auto(w, base)
    ensures Auto(Append(w, Other), base)
  {
    var v := Append(w, Other);
    forall t ensures InFlight(v, t) == InFlight(w, t) {
      if InFlight(w, t) {
        var i :| 0 <= i < |w.p.inbox| && Asks(w.p.inbox[i]) && w.p.inbox[i].sid == t;
        assert v.p.inbox[i] == w.p.inbox[i];
      }
    }
    forall t | base <= t < |w.c.streams| - 1 ensures Arrived(v, t) { assert Arrived(w, t); }
  }

  // ---------------------------------------------------------------------------------------------
  // Any number of calls
  // ---------------------------------------------------------------------------------------------

  predicate AllowedAuto(w: World, base: nat, op: Op)
  {
    match op
    case OpTelemetry => true
    case OpRun(_) => true
    case OpNext(s) => base <= s < |w.c.streams|
    case OpConsume(s) => base <= s < |w.c.streams|
    case OpBuffer(s) => base <= s < |w.c.streams|
    case _ => false
  }

  /** Auto-commit queries and reads of their results, none of them failing. */
  predicate SmoothAuto(w: World, base: nat, ops: seq<Op>)
    requires Wired(w)
    decreases |ops|
  {
    || ops == []
    || (AllowedAuto(w, base, ops[0]) && !Call(w, ops[0]).0.c.err && SmoothAuto(Call(w, ops[0]).0, base, ops[1..]))
  }

  lemma {:induction false} CallInAuto(w: World, base: nat, op: Op)
    requires Auto(w, base) && AllowedAuto(w, base, op) && !Call(w, op).0.c.err
    ensures Auto(Call(w, op).0, base) && Good(op, Call(w, op).1)
  {
    match op
    case OpTelemetry => TelemetryInAuto(w, base);
    case OpRun(n) => RunInAuto(w, base, n);
    case OpNext(s) => NextInAuto(w, base, s);
    case OpConsume(s) => ConsumeInAuto(w, base, s);
    case OpBuffer(s) => BufferInAuto(w, base, s);
  }

  lemma {:induction false} CallSparesAuto(w: World, base: nat, op: Op, s: nat)
    requires Auto(w, base) && AllowedAuto(w, base, op) && !Call(w, op).0.c.err && op != OpConsume(s)
    ensures Discarding(Call(w, op).0, s) == Discarding(w, s)
  {
    if op.OpConsume? { ConsumeInAuto(w, base, op.s); } else { CallDiscards(w, op, s); }
  }

  /**
   * After any auto-commit calls that do not fail, the state is in order; and a stream is discarded
   * only if it was consumed.
   */
  lemma {:induction false} AutoRuns(w: World, base: nat, ops: seq<Op>, s: nat)
    requires Auto(w, base) && SmoothAuto(w, base, ops)
    ensures Auto(Calls(w, ops), base)
    ensures OpConsume(s) !in ops ==> Discarding(Calls(w, ops), s) == Discarding(w, s)
    decreases |ops|
  {
    if ops != [] {
      CallInAuto(w, base, ops[0]);
      if OpConsume(s) !in ops { CallSparesAuto(w, base, ops[0], s); }
      AutoRuns(Call(w, ops[0]).0, base, ops[1..], s);
    }
  }

  /** What is not yet with the client of the result of stream `s`: nothing once it has arrived. */
  function Remaining(w: World, s: nat): seq<Record>
  {
    if w.c.curr == Some(s) && -1 in w.p.open then w.p.open[-1] else []
  }

  /** The records `g`, those buffered and those the server has left are the rows of stream `s`. */
  predicate IsAutoResult(v: World, s: nat, g: seq<Record>)
    requires s < |v.c.streams| == |v.hist|
  {
    g + v.c.streams[s].fifo + Remaining(v, s) == v.hist[s].rows
  }

  lemma {:induction false} GotInAuto(w: World, base: nat, s: nat, g: seq<Record>)
    requires Auto(w, base) && base <= s < |w.c.streams| && !Discarding(w, s) && Got(w, s) == g
    ensures IsAutoResult(w, s, g)
  {
    assert g + w.c.streams[s].fifo == w.hist[s].sent;
    if s < |w.c.streams| - 1 {
      assert Arrived(w, s);
      assert w.c.curr != Some(s);
    }
  }

  /**
   * Of a query not consumed, the records that the calls returned, then those buffered, then those the
   * server has left, are the query's rows, whatever other queries came after it.
   */
  lemma {:induction false} RowsReturnedAuto(w: World, base: nat, ops: seq<Op>, s: nat)
    requires Auto(w, base) && SmoothAuto(w, base, ops) && OpConsume(s) !in ops
    requires |w.c.streams| <= s < |Calls(w, ops).c.streams|
    ensures IsAutoResult(Calls(w, ops), s, Returned(w, ops, s))
  {
    AutoRuns(w, base, ops, s);
    RunGives(w, ops, s);
    assert Got(w, s) == [];
    GotInAuto(Calls(w, ops), base, s, Returned(w, ops, s));
  }

  /** A connection just set up is a place to start from, and so is one whose transaction has ended. */
  lemma {:induction false} AutoStarts(choices: seq<Choice>, w: World, base: nat, commit: bool)
    requires Boundary(w, base) && !EndTx(w, w.c.txId, commit).0.c.err
    ensures Auto(NewConnection(true, choices), 0)
    ensures var v := EndTx(w, w.c.txId, commit).0; Auto(v, |v.c.streams|)
  {
    EndInTx(w, base, commit);
  }
}
