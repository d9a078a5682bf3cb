/**
 * What the caller of a failure-free transaction sees of its queries: the records that Next returns
 * are the query's rows, and what Consume throws away.
 */
module BoltResults {
  import opened Bytes
  import opened Bolt
  import opened BoltCalls
  import opened BoltTx

  // ---------------------------------------------------------------------------------------------
  // A query read to its end
  // ---------------------------------------------------------------------------------------------

  lemma {:induction false} ConsumeDiscards(w: World, base: nat, s: nat)
    requires Boundary(w, base) && Allowed(w, base, OpConsume(s)) && !Consume(w, s).0.c.err && Live(w.c.streams[s])
    ensures MayDiscard(w, OpConsume(s)) == s
  {
    LiveMeansStreaming(w, base, s);
    var w1 := SwitchTo(w, s).0;
    if w1.c.err { ErrSticksDiscard(w1); }
    SwitchInTx(w, base, s);
  }

  /** In a transaction a stream starts losing its records only when it is itself consumed. */
  lemma {:induction false} CallSpares(w: World, base: nat, op: Op, s: nat)
    requires Boundary(w, base) && Allowed(w, base, op) && !Call(w, op).0.c.err && op != OpConsume(s)
    ensures Discarding(Call(w, op).0, s) == Discarding(w, s)
  {
    if op.OpConsume? && !Live(w.c.streams[op.s]) {
      assert Call(w, op).0 == w;
    } else {
      if op.OpConsume? { ConsumeDiscards(w, base, op.s); }
      CallDiscards(w, op, s);
    }
  }

  lemma {:induction false} RunSparesInTx(w: World, base: nat, ops: seq<Op>, s: nat)
    requires Boundary(w, base) && Smooth(w, base, ops) && OpConsume(s) !in ops
    ensures Discarding(Calls(w, ops), s) == Discarding(w, s)
    decreases |ops|
  {
    if ops != [] {
      CallSpares(w, base, ops[0], s);
      CallInTx(w, base, ops[0]);
      RunSparesInTx(Call(w, ops[0]).0, base, ops[1..], s);
    }
  }

  /**
   * Of a query that the transaction's calls open and do not consume: the records they returned, in
   * that order, then those buffered, then those the server has left, are the query's rows.
   */
  lemma {:induction false} RowsReturned(w: World, base: nat, ops: seq<Op>, s: nat)
    requires Boundary(w, base) && Smooth(w, base, ops) && OpConsume(s) !in ops
    requires |w.c.streams| <= s < |Calls(w, ops).c.streams|
    ensures IsResult(Calls(w, ops), s, Returned(w, ops, s))
  {
    RunGives(w, ops, s);
    assert Got(w, s) == [];
    RunSparesInTx(w, base, ops, s);
    TransactionRuns(w, base, ops, |ops|);
    assert ops[..|ops|] == ops;
    GotIsResult(Calls(w, ops), base, s, Returned(w, ops, s));
  }

  /** The records `g`, those buffered and those the server has left are the rows of stream `s`. */
  predicate IsResult(v: World, s: nat, g: seq<Record>)
    requires s < |v.c.streams| == |v.hist|
  {
    && v.c.streams[s].qid in v.p.open
    && g + v.c.streams[s].fifo + v.p.open[v.c.streams[s].qid] == v.hist[s].rows
    && (v.c.streams[s].sum && v.c.streams[s].fifo == [] ==> g == v.hist[s].rows)
  }

  lemma {:induction false} GotIsResult(v: World, base: nat, s: nat, g: seq<Record>)
    requires Boundary(v, base) && base <= s < |v.c.streams| && !Discarding(v, s) && Got(v, s) == g
    ensures IsResult(v, s, g)
  {
    ResultArrivesWhole(v, base, s);
  }

  /** Once Next has answered with the summary, the records it returned are the query's rows. */
  lemma {:induction false} ReadToTheEnd(w: World, base: nat, ops: seq<Op>, s: nat)
    requires Boundary(w, base) && Smooth(w, base, ops + [OpNext(s)]) && OpConsume(s) !in ops
    requires |w.c.streams| <= s && Call(Calls(w, ops), OpNext(s)).1 == Summary
    ensures var v := Calls(w, ops + [OpNext(s)]);
            s < |v.hist| && Returned(w, ops + [OpNext(s)], s) == v.hist[s].rows
  {
    SmoothSplit(w, base, ops, OpNext(s));
    TransactionRuns(w, base, ops, |ops|);
    assert ops[..|ops|] == ops;
    NextInTx(Calls(w, ops), base, s);
    assert OpConsume(s) !in ops + [OpNext(s)];
    RowsReturned(w, base, ops + [OpNext(s)], s);
  }

  lemma {:induction false} SmoothSplit(w: World, base: nat, ops: seq<Op>, op: Op)
    requires Wired(w) && Smooth(w, base, ops + [op])
    ensures Smooth(w, base, ops) && Allowed(Calls(w, ops), base, op) && !Call(Calls(w, ops), op).0.c.err
    ensures Calls(w, ops + [op]) == Call(Calls(w, ops), op).0
    decreases |ops|
  {
    if ops == [] {
      assert (ops + [op])[1..] == [];
    } else {
      assert (ops + [op])[0] == ops[0] && (ops + [op])[1..] == ops[1..] + [op];
      SmoothSplit(Call(w, ops[0]).0, base, ops[1..], op);
    }
  }

  // ---------------------------------------------------------------------------------------------
  // A query consumed
  // ---------------------------------------------------------------------------------------------

  predicate PullInFlight(w: World, s: nat)
  {
    exists i :: 0 <= i < |w.p.inbox| && w.p.inbox[i].Pull? && w.p.inbox[i].sid == s
  }

  /** A stream not yet discarded has only PULLs in flight. */
  lemma {:induction false} OnlyPulls(w: World, base: nat, s: nat)
    requires InTx(w, base) && s < |w.c.streams| && !w.c.streams[s].discarding
    ensures InFlight(w, s) == PullInFlight(w, s)
  {
    if InFlight(w, s) {
      var i :| 0 <= i < |w.p.inbox| && Asks(w.p.inbox[i]) && w.p.inbox[i].sid == s;
      assert RequestOk(w, base, i);
    }
  }

  /** Answers to its PULL empty a discarded stream's buffer; nothing else touches it. */
  lemma {:induction false} DeliveredFifo(w: World, base: nat, ch: Choice, s: nat)
    requires InTx(w, base) && Available(w.p, ch) && (ch.msg.RecordMsg? || ch.msg.Success?) && !w.p.inbox[0].Run?
    requires s < |w.c.streams| && w.c.streams[s].discarding
    ensures var v := Delivered(w, ch).0;
            && s < |v.c.streams| && v.p.inbox == (if ch.msg.RecordMsg? then w.p.inbox else w.p.inbox[1..])
            && v.c.streams[s].fifo == if w.p.inbox[0].Pull? && w.p.inbox[0].sid == s then [] else w.c.streams[s].fifo
  {
    DeliveredEffect(w, base, ch);
    WiredInRange(w);
    assert RequestOk(w, base, 0);
    if ch.msg.RecordMsg? { RecordForm(w, base, ch); }
    else if Asks(w.p.inbox[0]) && !ch.msg.hasMore { EndForm(w, base, ch); }
  }

  /** What the buffer of a discarded stream will be once all that is in flight has been answered. */
  function Drained(w: World, s: nat): seq<Record>
    requires s < |w.c.streams|
  {
    if PullInFlight(w, s) then [] else w.c.streams[s].fifo
  }

  lemma {:induction false} ReceiveFifo(w: World, base: nat, s: nat)
    requires InTx(w, base) && Receive(w).1 && w.p.inbox != [] && !w.p.inbox[0].Run?
    requires s < |w.c.streams| && w.c.streams[s].discarding
    ensures s < |Receive(w).0.c.streams| && Drained(Receive(w).0, s) == Drained(w, s)
  {
    FailureFreeMessage(w, base);
    var u := w.(choices := w.choices[1..]);
    SameButChoices(w, u, base);
    DeliveredFifo(u, base, w.choices[0], s);
    InboxStep(w, Receive(w).0, s);
  }

  lemma {:induction false} InboxStep(w: World, v: World, s: nat)
    requires w.p.inbox != [] && (v.p.inbox == w.p.inbox || v.p.inbox == w.p.inbox[1..])
    ensures PullInFlight(v, s) ==> PullInFlight(w, s)
    ensures PullInFlight(w, s) ==> PullInFlight(v, s) || (w.p.inbox[0].Pull? && w.p.inbox[0].sid == s)
  {
    var d := if v.p.inbox == w.p.inbox then 0 else 1;
    if PullInFlight(v, s) {
      var i :| 0 <= i < |v.p.inbox| && v.p.inbox[i].Pull? && v.p.inbox[i].sid == s;
      assert w.p.inbox[i + d] == v.p.inbox[i];
    }
    if PullInFlight(w, s) {
      var i :| 0 <= i < |w.p.inbox| && w.p.inbox[i].Pull? && w.p.inbox[i].sid == s;
      if i > 0 { assert v.p.inbox[i - d] == w.p.inbox[i]; }
    }
  }

  lemma {:induction false} DrainFifo(w: World, base: nat, busy: int, s: nat)
    requires InTx(w, base) && Settled(w, base, busy) && Agrees(w) && AllAttached(w, base) && !ReceiveAll(w).0.c.err
    requires s < |w.c.streams| && w.c.streams[s].discarding
    ensures ReceiveAll(w).0.c.streams[s].fifo == Drained(w, s)
    decreases |w.choices|
  {
    ReceiveAllInTx(w, base, busy);
    if w.c.handlers != [] {
      FailureFreeMessage(w, base);
      NoRunWhenAttached(w, base);
      ReceiveInTx(w, base, busy);
      ReceiveFifo(w, base, s);
      DrainFifo(Receive(w).0, base, busy, s);
    }
  }

  lemma {:induction false} DiscardAskedFifo(w: World, base: nat, s: nat)
    requires MayAsk(w, base, s) && Settled(w, base, s) && w.p.inbox == [] && w.c.streams[s].discarding
    requires !DiscardAsked(w, s).c.err
    ensures var v := DiscardAsked(w, s); Drained(v, s) == w.c.streams[s].fifo
  {
    DiscardSent(w, base, s);
    AskSent(w, base, s, w.c.streams[s].(fetchSize := -1), Discard(-1, WireQid(w.c, s), s));
  }

  lemma {:induction false} DiscardLoopFifo(w: World, base: nat, s: nat, discarded: bool)
    requires InTx(w, base) && Settled(w, base, s) && Agrees(w) && AllAttached(w, base)
    requires base <= s < |w.c.streams| && w.c.streams[s].discarding
    requires discarded ==> |w.p.inbox| == 1 && w.p.inbox[0].Discard? && w.p.inbox[0].sid == s
    requires !DiscardLoop(w, s, discarded).c.err
    ensures DiscardLoop(w, s, discarded).c.streams[s].fifo == Drained(w, s)
    decreases |w.choices|, if discarded then 0 else 1
  {
    ReceiveAllInTx(w, base, s);
    DrainFifo(w, base, s, s);
    var w1 := ReceiveAll(w).0;
    if discarded { LoneDiscardEnds(w, base, s); }
    if Live(w1.c.streams[s]) {
      QuietMeansEndOfBatch(w1, base, s);
      var w2 := DiscardAsked(w1, s);
      assert DiscardLoop(w, s, discarded) == DiscardLoop(w2, s, true);
      DiscardSent(w1, base, s);
      DiscardAskedFifo(w1, base, s);
      DiscardLoopFifo(w2, base, s, true);
    }
  }

  lemma {:induction false} DiscardFifo(w: World, base: nat, s: nat)
    requires InTx(w, base) && Settled(w, base, s) && Agrees(w) && AllAttached(w, base)
    requires base <= s < |w.c.streams| && w.c.curr == Some(s) && Live(w.c.streams[s]) && !DiscardStream(w).c.err
    ensures DiscardStream(w).c.streams[s].fifo == Drained(w, s)
  {
    LiveMeansStreaming(w, base, s);
    var y := w.c.streams[s].(discarding := true);
    RetunedInTx(w, base, s, y);
    var u := SetStream(w, s, y);
    assert DiscardStream(w) == DiscardLoop(u, s, false);
    DiscardLoopFifo(u, base, s, false);
  }

  lemma {:induction false} SwitchFifo(w: World, base: nat, s: nat)
    requires Boundary(w, base) && base <= s < |w.c.streams| && Live(w.c.streams[s]) && !w.c.streams[s].discarding
    requires (w.c.curr == Some(s) || !InFlight(w, s)) && SwitchTo(w, s).1 && !SwitchTo(w, s).0.c.err
    ensures s < |SwitchTo(w, s).0.c.streams|
    ensures Drained(SwitchTo(w, s).0, s) == if w.c.curr == Some(s) && !InFlight(w, s) then w.c.streams[s].fifo else []
  {
    OnlyPulls(w, base, s);
    if w.c.curr != Some(s) {
      SwitchInTx(w, base, s);
      var v := SwitchTo(w, s).0;
      SwitchQuiet(w, s);
      assert Discarding(v, s) == Discarding(w, s);
      OnlyPulls(v, base, s);
    }
  }

  /** Consume still has to ask for the stream, or has an answer to wait for, and so empties its buffer. */
  predicate Drains(w: World, s: nat)
    requires s < |w.c.streams|
  {
    Live(w.c.streams[s]) && (w.c.curr != Some(s) || InFlight(w, s))
  }

  /**
   * A Consume that succeeds throws away every record not yet returned, except that those already
   * buffered stay if the result has arrived already, or if its stream is current and nothing of it
   * is in flight: there is then no answer to a PULL to empty the buffer.
   */
  lemma {:induction false} ConsumeEmpties(w: World, base: nat, s: nat)
    requires Boundary(w, base) && base <= s < |w.c.streams| && !w.c.streams[s].discarding
    requires (w.c.curr == Some(s) || !InFlight(w, s)) && !Consume(w, s).0.c.err
    ensures var v := Consume(w, s).0;
            && s < |v.c.streams| && v.c.streams[s].sum
            && v.c.streams[s].fifo == if Drains(w, s) then [] else w.c.streams[s].fifo
  {
    if Live(w.c.streams[s]) {
      LiveMeansStreaming(w, base, s);
      var w1 := SwitchTo(w, s).0;
      if w1.c.err { ErrSticksDiscard(w1); }
      SwitchInTx(w, base, s);
      SwitchFifo(w, base, s);
      DiscardInTx(w1, base, s);
      DiscardFifo(w1, base, s);
    }
  }

  /** So Next answers with the summary after a Consume just when it drained or nothing was buffered. */
  lemma {:induction false} NextAfterConsume(w: World, base: nat, s: nat)
    requires Boundary(w, base) && base <= s < |w.c.streams| && !w.c.streams[s].discarding
    requires (w.c.curr == Some(s) || !InFlight(w, s)) && !Consume(w, s).0.c.err
    ensures s < |Consume(w, s).0.c.streams|
    ensures NextRecord(Consume(w, s).0, s).1 == Summary <==> Drains(w, s) || w.c.streams[s].fifo == []
  {
    ConsumeEmpties(w, base, s);
    ConsumeInTx(w, base, s);
    assert !Consume(w, s).0.c.streams[s].err;
  }

  /** What a server answers to the PULL of a query with one row. */
  function OneRow(rec: Record): seq<Choice>
  {
    [Reply(RecordMsg(rec), []), Reply(Success(false, 0), [])]
  }

  lemma {:induction false} OneRowArrives(id: nat, n: int, rec: Record)
    requires Wired(ServingWorld(id, n, [rec], OneRow(rec), StreamingTx))
    ensures var (v, ok) := ReceiveAll(ServingWorld(id, n, [rec], OneRow(rec), StreamingTx));
            ok && !v.c.err && v.c.streams[0].sum && v.c.streams[0].fifo == [rec]
  {
    var w := ServingWorld(id, n, [rec], OneRow(rec), StreamingTx);
    ReceiveDelivers(w);
    var w1 := Receive(w).0;
    assert [w.c.handlers[0]] + w.c.handlers[1..] == w.c.handlers;
    assert w1.c.handlers == [OnPull(0)] && w1.p.inbox == [Pull(n, None, 0)] && w1.choices == OneRow(rec)[1..];
    assert w1.p.open[0] == [];
    assert w1.c.streams[0].fifo == [rec];
    ReceiveDelivers(w1);
    var w2 := Receive(w1).0;
    assert w2.c.handlers == [];
    assert ReceiveAll(w) == ReceiveAll(w1) == ReceiveAll(w2) == (w2, true);
  }

  lemma {:induction false} BufferedThenConsumed(id: nat, n: int, rec: Record)
    requires Wired(ServingWorld(id, n, [rec], OneRow(rec), StreamingTx))
    ensures var w := ServingWorld(id, n, [rec], OneRow(rec), StreamingTx);
            var v := Call(Call(w, OpBuffer(0)).0, OpConsume(0)).0;
            !v.c.err && Call(v, OpNext(0)).1 == Rec(rec)
  {
    OneRowArrives(id, n, rec);
    var w := ServingWorld(id, n, [rec], OneRow(rec), StreamingTx);
    var w1 := ReceiveAll(w).0;
    assert BufferLoop(w, 0) == w1;
    assert Call(w, OpBuffer(0)).0 == w1;
  }

  lemma {:induction false} ThreeCalls(w: World, a: Op, b: Op, c: Op)
    requires Wired(w)
    ensures Calls(w, [a, b, c]) == Call(Call(Call(w, a).0, b).0, c).0
  {
    var ops := [a, b, c];
    assert ops[1..] == [b, c] && [b, c][1..] == [c] && [c][1..] == [];
    assert Calls(Call(Call(w, a).0, b).0, [c]) == Call(Call(Call(w, a).0, b).0, c).0;
  }

  /** Such a run: a query with one row is buffered, consumed, and Next still returns the row. */
  lemma {:induction false} ConsumedYetReturned(id: nat, fetchSize: int, rec: Record)
    ensures var w := BeganConnection(id, [rec], OneRow(rec));
            && Wired(w)
            && var v := Calls(w, [OpRunTx(id, fetchSize), OpBuffer(0), OpConsume(0)]); !v.c.err && Call(v, OpNext(0)).1 == Rec(rec)
  {
    var w := BeganConnection(id, [rec], OneRow(rec));
    PipelinedBegin(id, [rec], OneRow(rec));
    FirstQueryRuns(id, fetchSize, [rec], OneRow(rec));
    BufferedThenConsumed(id, NormalizeFetchSize(fetchSize), rec);
    ThreeCalls(w, OpRunTx(id, fetchSize), OpBuffer(0), OpConsume(0));
  }

  /** On the wire a query is RUN and then PULL of as many records as the caller gave, all, or 1000. */
  lemma {:induction false} QueryRequests(w: World, base: nat, fetchSize: int)
    requires Boundary(w, base) && !MakeRoom(w).c.err && !Open(MakeRoom(w), NormalizeFetchSize(fetchSize)).c.err
    ensures var u := MakeRoom(w);
            var n := if fetchSize < 0 then -1 else if fetchSize == 0 then 1000 else fetchSize;
            Open(u, NormalizeFetchSize(fetchSize)).p.inbox == u.p.inbox + [Run(|w.c.streams|), Pull(n, None, |w.c.streams|)]
  {
    PausedInTx(w, base);
    OpenedShape(MakeRoom(w), base, NormalizeFetchSize(fetchSize));
  }

  // ---------------------------------------------------------------------------------------------
  // Asking twice
  // ---------------------------------------------------------------------------------------------

  /** Two requests for more of the stream are outstanding at once. */
  predicate AskedTwice(w: World, s: nat)
  {
    exists i, j :: 0 <= i < j < |w.p.inbox| && Asks(w.p.inbox[i]) && Asks(w.p.inbox[j]) && w.p.inbox[i].sid == w.p.inbox[j].sid == s
  }

  lemma {:induction false} OnceAtMost(w: World, base: nat, s: nat)
    requires InTx(w, base)
    ensures !AskedTwice(w, s)
  {
  }

  /**
   * Consume and Buffer of a stream that is not current ask for it without looking whether an answer
   * for it is on its way. With no stream current they ask twice just when there is one.
   */
  lemma {:induction false} SwitchAsksAgain(w: World, base: nat, s: nat)
    requires Boundary(w, base) && base <= s < |w.c.streams| && Live(w.c.streams[s]) && w.c.curr == None
    requires !SwitchTo(w, s).0.c.err
    ensures AskedTwice(SwitchTo(w, s).0, s) <==> InFlight(w, s)
  {
    LiveMeansStreaming(w, base, s);
    OnceAtMost(w, base, s);
    var u := w.(c := w.c.(curr := Some(s)));
    var r := Pull(u.c.streams[s].fetchSize, WireQid(u.c, s), s);
    var v := SwitchTo(w, s).0;
    assert v.p.inbox == w.p.inbox + [r];
    if InFlight(w, s) {
      var i :| 0 <= i < |w.p.inbox| && Asks(w.p.inbox[i]) && w.p.inbox[i].sid == s;
      assert Asks(v.p.inbox[i]) && v.p.inbox[i].sid == s && Asks(v.p.inbox[|w.p.inbox|]);
    }
    if AskedTwice(v, s) {
      var i, j :| 0 <= i < j < |v.p.inbox| && Asks(v.p.inbox[i]) && Asks(v.p.inbox[j]) && v.p.inbox[i].sid == v.p.inbox[j].sid == s;
      assert w.p.inbox[i] == v.p.inbox[i];
    }
  }
}
