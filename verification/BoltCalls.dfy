/**
 * What the calls on a connection give out and take away, in every run and whatever fails: the
 * records that Next returns, the streams that stop keeping their records, and the transactions
 * that are ended.
 */
module BoltCalls {
  import opened Bytes
  import opened Bolt

  predicate Ends(r: Request)
  {
    r.Commit? || r.Rollback?
  }

  predicate NoEnds(w: World)
  {
    forall i :: 0 <= i < |w.p.inbox| ==> !Ends(w.p.inbox[i])
  }

  /** How many requests `k` the peer has carried out or has yet to answer; `k` ends a transaction. */
  function AskedFor(w: World, k: Request): nat
  {
    multiset(w.p.ended)[k] + multiset(w.p.inbox)[k]
  }

  /** The records Next has returned of stream `s`; none of a stream not yet made. */
  function Got(w: World, s: nat): seq<Record>
  {
    if s < |w.hist| then w.hist[s].got else []
  }

  predicate Discarding(w: World, s: nat)
  {
    s < |w.c.streams| && w.c.streams[s].discarding
  }

  // ---------------------------------------------------------------------------------------------
  // What everything but the last step of Next and of EndTx leaves alone
  // ---------------------------------------------------------------------------------------------

  ghost predicate GotKept(w: World, v: World)
  {
    |w.c.streams| <= |v.c.streams| && forall s: nat :: Got(v, s) == Got(w, s)
  }

  ghost predicate DiscardingKept(w: World, v: World, t: int)
  {
    forall s: nat :: s != t ==> Discarding(v, s) == Discarding(w, s)
  }

  ghost predicate EndsKept(w: World, v: World)
  {
    && (NoEnds(w) ==> NoEnds(v) && v.p.ended == w.p.ended)
    && AskedFor(v, Commit) <= AskedFor(w, Commit) && AskedFor(v, Rollback) <= AskedFor(w, Rollback)
  }

  /** A stream has a summary only if the peer has said that there is no more of it. */
  predicate Truthful(w: World)
  {
    forall s :: 0 <= s < |w.c.streams| && w.c.streams[s].sum ==> s in w.complete
  }

  predicate TruthKept(w: World, v: World)
  {
    Truthful(w) ==> Truthful(v)
  }

  /** No record is given out, no stream but `t` starts being discarded, no end is asked for, no summary made up. */
  ghost predicate Quiet(w: World, v: World, t: int)
  {
    GotKept(w, v) && DiscardingKept(w, v, t) && EndsKept(w, v) && TruthKept(w, v)
  }

  lemma {:induction false} QuietTrans(u: World, w: World, v: World, t: int)
    requires Quiet(u, w, t) && Quiet(w, v, t)
    ensures Quiet(u, v, t)
  {
    forall s: nat ensures Got(v, s) == Got(u, s) { assert Got(w, s) == Got(u, s); }
    forall s: nat | s != t ensures Discarding(v, s) == Discarding(u, s) { assert Discarding(w, s) == Discarding(u, s); }
  }

  lemma {:induction false} QuietWeaken(w: World, v: World, t: int)
    requires Quiet(w, v, -1)
    ensures Quiet(w, v, t)
  {
  }

  /** Same peer, same records given out, same marks. */
  lemma {:induction false} QuietSame(w: World, v: World)
    requires v.p.inbox == w.p.inbox && v.p.ended == w.p.ended && v.hist == w.hist && |v.c.streams| == |w.c.streams|
    requires forall s :: 0 <= s < |w.c.streams| ==> v.c.streams[s].discarding == w.c.streams[s].discarding
    requires v.complete == w.complete && forall s :: 0 <= s < |w.c.streams| && v.c.streams[s].sum ==> w.c.streams[s].sum
    ensures Quiet(w, v, -1)
  {
  }

  lemma {:induction false} AppendQuiet(w: World, r: Request)
    requires Wired(w) && RequestInRange(r, |w.c.streams|) && !Ends(r)
    ensures Quiet(w, Append(w, r), -1)
  {
    var v := Append(w, r);
    assert multiset(v.p.inbox) == multiset(w.p.inbox) + multiset{r};
  }

  lemma {:induction false} SendQuiet(w: World)
    requires Wired(w)
    ensures Quiet(w, Send(w), -1)
  {
    WiredInRange(w);
    if w.choices != [] && w.choices[0].Drop? { SetErrorBuffers(w.c, true); }
    QuietSame(w, Send(w));
  }

  /** Answering the front request and noting it, if it is to be noted, leaves the total. */
  lemma {:induction false} FrontMoves(inbox: seq<Request>, ended: seq<Request>, k: Request)
    requires inbox != []
    ensures multiset(inbox[1..])[k] <= multiset(inbox)[k]
    ensures multiset(ended + [inbox[0]])[k] + multiset(inbox[1..])[k] == multiset(ended)[k] + multiset(inbox)[k]
  {
    assert inbox == [inbox[0]] + inbox[1..];
  }

  lemma {:induction false} AnsweredForm(p: Peer, ch: Choice)
    requires Available(p, ch)
    ensures var q := Answered(p, ch);
            || (q.ended == p.ended && (q.inbox == p.inbox || q.inbox == p.inbox[1..]))
            || (Ends(p.inbox[0]) && q.ended == p.ended + [p.inbox[0]] && q.inbox == p.inbox[1..])
  {
  }

  lemma {:induction false} NotedGot(hist: seq<History>, r: Request, ch: Choice)
    requires ch.Reply? && RequestInRange(r, |hist|)
    ensures forall s :: 0 <= s < |hist| ==> Noted(hist, r, ch)[s].got == hist[s].got
  {
  }

  /** The effect of an answer, put together from the handler's side, the peer's and the history. */
  lemma {:induction false} QuietParts(w: World, v: World)
    requires |w.hist| == |w.c.streams| == |v.hist| == |v.c.streams|
    requires forall s :: 0 <= s < |w.hist| ==> v.hist[s].got == w.hist[s].got
    requires forall s :: 0 <= s < |w.hist| ==> v.c.streams[s].discarding == w.c.streams[s].discarding
    requires EndsKept(w, v) && TruthKept(w, v)
    ensures Quiet(w, v, -1)
  {
  }

  lemma {:induction false} DeliveredEnds(w: World, ch: Choice)
    requires Wired(w) && Available(w.p, ch)
    ensures EndsKept(w, Delivered(w, ch).0)
  {
    AnsweredForm(w.p, ch);
    FrontMoves(w.p.inbox, w.p.ended, Commit);
    FrontMoves(w.p.inbox, w.p.ended, Rollback);
  }

  lemma {:induction false} SetErrorSums(c: Conn, fatal: bool, s: nat)
    requires InRange(c) && s < |c.streams|
    ensures |SetError(c, fatal).streams| == |c.streams| && (SetError(c, fatal).streams[s].sum ==> c.streams[s].sum)
  {
  }

  lemma {:induction false} FinishSums(c: Conn, t: nat, x: Stream, s: nat)
    requires t < |c.streams| && s < |c.streams|
    ensures |Finish(c, t, x).streams| == |c.streams|
    ensures Finish(c, t, x).streams[s].sum == (if s == t then x.sum else c.streams[s].sum)
  {
  }

  lemma {:induction false} SuccessSums(c: Conn, h: Handler, hasMore: bool, qid: int, s: nat)
    requires InRange(c) && HandlerInRange(h, |c.streams|) && s < |c.streams|
    ensures var c' := HandleSuccess(c, h, hasMore, qid);
            && |c'.streams| == |c.streams|
            && (c'.streams[s].sum ==> c.streams[s].sum || (!hasMore && (h == OnPull(s) || h == OnDiscard(s))))
  {
    match h
    case OnPull(t) =>
      var x := c.streams[t];
      FinishSums(c, t, x.(fifo := if x.discarding then [] else x.fifo, sum := true), s);
    case OnDiscard(t) => FinishSums(c, t, c.streams[t].(sum := true), s);
    case _ =>
  }

  lemma {:induction false} FailureSums(c: Conn, h: Handler, fatal: bool, s: nat)
    requires InRange(c) && HandlerInRange(h, |c.streams|) && s < |c.streams|
    ensures var c' := Handle(c, h, Failure(fatal)).0; |c'.streams| == |c.streams| && (c'.streams[s].sum ==> c.streams[s].sum)
  {
    match h
    case OnPull(t) => SetErrorSums(c.(streams := c.streams[t := c.streams[t].(err := true)]), fatal, s);
    case OnDiscard(t) => SetErrorSums(c.(streams := c.streams[t := c.streams[t].(err := true)]), fatal, s);
    case OnReset =>
    case _ => SetErrorSums(c, fatal, s);
  }

  lemma {:induction false} IgnoredSums(c: Conn, h: Handler, s: nat)
    requires InRange(c) && HandlerInRange(h, |c.streams|) && s < |c.streams|
    ensures var c' := Handle(c, h, Ignored).0; |c'.streams| == |c.streams| && (c'.streams[s].sum ==> c.streams[s].sum)
  {
    match h
    case OnPull(t) => FinishSums(c, t, c.streams[t].(err := true), s);
    case OnDiscard(t) => FinishSums(c, t, c.streams[t].(err := true), s);
    case _ =>
  }

  /** No handler sets a summary but that of a PULL or DISCARD which is told that there is no more. */
  lemma {:induction false} HandledSums(c: Conn, h: Handler, m: Msg, s: nat)
    requires InRange(c) && HandlerInRange(h, |c.streams|) && s < |c.streams|
    ensures var c' := Handle(c, h, m).0;
            && |c'.streams| == |c.streams|
            && (c'.streams[s].sum ==> c.streams[s].sum || (m.Success? && !m.hasMore && (h == OnPull(s) || h == OnDiscard(s))))
  {
    match m
    case Success(hasMore, qid) => SuccessSums(c, h, hasMore, qid, s);
    case Failure(fatal) => FailureSums(c, h, fatal, s);
    case Ignored => IgnoredSums(c, h, s);
    case RecordMsg(_) =>
  }

  lemma {:induction false} DeliveredTruth(w: World, ch: Choice)
    requires Wired(w) && Available(w.p, ch)
    ensures TruthKept(w, Delivered(w, ch).0)
  {
    WiredInRange(w);
    var c := w.c.(handlers := w.c.handlers[1..]);
    HandledBuffers(c, w.c.handlers[0], ch.msg);
    var v := Delivered(w, ch).0;
    if Truthful(w) {
      forall s | 0 <= s < |v.c.streams| && v.c.streams[s].sum ensures s in v.complete {
        HandledSums(c, w.c.handlers[0], ch.msg, s);
        assert w.c.handlers[0] == HandlerFor(w.p.inbox[0]);
      }
    }
  }

  lemma {:induction false} DeliveredQuiet(w: World, ch: Choice)
    requires Wired(w) && Available(w.p, ch)
    ensures Quiet(w, Delivered(w, ch).0, -1)
  {
    WiredInRange(w);
    HandledBuffers(w.c.(handlers := w.c.handlers[1..]), w.c.handlers[0], ch.msg);
    NotedGot(w.hist, w.p.inbox[0], ch);
    DeliveredEnds(w, ch);
    DeliveredTruth(w, ch);
    QuietParts(w, Delivered(w, ch).0);
  }

  lemma {:induction false} ReceiveQuiet(w: World)
    requires Wired(w)
    ensures Quiet(w, Receive(w).0, -1)
  {
    WiredInRange(w);
    if !w.c.queueErr {
      if w.choices == [] || !Available(w.p, w.choices[0]) {
        SetErrorBuffers(w.c.(queueErr := true), true);
        QuietSame(w, Receive(w).0);
      } else {
        DeliveredQuiet(w.(choices := w.choices[1..]), w.choices[0]);
        QuietSame(w, w.(choices := w.choices[1..]));
        QuietTrans(w, w.(choices := w.choices[1..]), Receive(w).0, -1);
      }
    }
  }

  lemma {:induction false} ReceiveAllQuiet(w: World)
    requires Wired(w)
    ensures Quiet(w, ReceiveAll(w).0, -1)
    decreases |w.choices|
  {
    if w.c.handlers != [] {
      ReceiveQuiet(w);
      var w1 := Receive(w).0;
      if Receive(w).1 {
        ReceiveAllQuiet(w1);
        QuietTrans(w, w1, ReceiveAll(w).0, -1);
      }
    }
  }

  lemma {:induction false} PullQuiet(w: World, s: nat)
    requires Wired(w) && s < |w.c.streams|
    ensures Quiet(w, Send(AppendPull(w, s)), -1)
  {
    var w1 := AppendPull(w, s);
    if w.c.st == Streaming || w.c.st == StreamingTx {
      AppendQuiet(w, Pull(w.c.streams[s].fetchSize, WireQid(w.c, s), s));
    }
    SendQuiet(w1);
    QuietTrans(w, w1, Send(w1), -1);
  }

  // ---------------------------------------------------------------------------------------------
  // The connection's own steps
  // ---------------------------------------------------------------------------------------------

  lemma {:induction false} BufferLoopQuiet(w: World, s: nat)
    requires Wired(w) && s < |w.c.streams|
    ensures Quiet(w, BufferLoop(w, s), -1)
    decreases |w.choices|, if w.c.handlers == [] then 1 else 0
  {
    ReceiveAllQuiet(w);
    var (w1, ok) := ReceiveAll(w);
    if !ok || w1.c.err || w1.c.streams[s].sum || w1.c.streams[s].err || !w1.c.streams[s].endOfBatch {
      QuietSame(w1, BufferLoop(w, s));
      QuietTrans(w, w1, BufferLoop(w, s), -1);
    } else {
      var u := SetStream(w1, s, w1.c.streams[s].(fetchSize := -1));
      QuietSame(w1, u);
      PullQuiet(u, s);
      var w2 := Send(AppendPull(u, s));
      QuietTrans(w1, u, w2, -1);
      QuietTrans(w, w1, w2, -1);
      if w2.c.err || w2.c.handlers == [] {
        QuietSame(w2, BufferLoop(w, s));
      } else {
        BufferLoopQuiet(w2, s);
      }
      QuietTrans(w, w2, BufferLoop(w, s), -1);
    }
  }

  lemma {:induction false} BufferQuiet(w: World)
    requires Wired(w)
    ensures Quiet(w, BufferStream(w), -1)
  {
    if w.c.curr.Some? { BufferLoopQuiet(w, w.c.curr.value); }
  }

  lemma {:induction false} PauseQuiet(w: World)
    requires Wired(w)
    ensures Quiet(w, PauseStream(w), -1)
  {
    if w.c.curr.Some? {
      ReceiveAllQuiet(w);
      QuietSame(ReceiveAll(w).0, PauseStream(w));
      QuietTrans(w, ReceiveAll(w).0, PauseStream(w), -1);
    }
  }

  lemma {:induction false} SwitchQuiet(w: World, s: nat)
    requires Wired(w) && s < |w.c.streams|
    ensures Quiet(w, SwitchTo(w, s).0, -1)
  {
    if w.c.curr != Some(s) {
      PauseQuiet(w);
      var w1 := PauseStream(w);
      if !w1.c.err {
        var u := if w1.c.curr.Some? then w1 else w1.(c := w1.c.(curr := Some(s)));
        QuietSame(w1, u);
        PullQuiet(u, s);
        QuietTrans(w, w1, u, -1);
        QuietTrans(w, u, SwitchTo(w, s).0, -1);
      }
    }
  }

  lemma {:induction false} DiscardAskedQuiet(w: World, s: nat)
    requires Wired(w) && s < |w.c.streams|
    ensures Quiet(w, DiscardAsked(w, s), -1)
  {
    var u := SetStream(w, s, w.c.streams[s].(fetchSize := -1));
    var r := Discard(-1, WireQid(w.c, s), s);
    QuietSame(w, u);
    AppendQuiet(u, r);
    SendQuiet(Append(u, r));
    QuietTrans(w, u, Append(u, r), -1);
    QuietTrans(w, Append(u, r), DiscardAsked(w, s), -1);
  }

  lemma {:induction false} DroppedQuiet(u: World, w: World, s: nat)
    requires Quiet(u, w, -1) && Wired(w) && s < |w.c.streams|
    ensures Quiet(u, Dropped(w, s), -1)
  {
    QuietSame(w, Dropped(w, s));
    QuietTrans(u, w, Dropped(w, s), -1);
  }

  lemma {:induction false} DiscardLoopQuiet(w: World, s: nat, discarded: bool)
    requires Wired(w) && s < |w.c.streams| && (discarded ==> w.c.handlers != [])
    ensures Quiet(w, DiscardLoop(w, s, discarded), -1)
    decreases |w.choices|, if discarded then 0 else 1
  {
    ReceiveAllQuiet(w);
    var (w1, ok) := ReceiveAll(w);
    if !ok || w1.c.err || w1.c.streams[s].sum || w1.c.streams[s].err {
      assert DiscardLoop(w, s, discarded) == w1;
    } else if w1.c.streams[s].endOfBatch && discarded {
      DroppedQuiet(w, w1, s);
    } else {
      var w2 := DiscardAsked(w1, s);
      DiscardAskedQuiet(w1, s);
      QuietTrans(w, w1, w2, -1);
      if !w2.c.err {
        DiscardLoopQuiet(w2, s, true);
        QuietTrans(w, w2, DiscardLoop(w2, s, true), -1);
      }
    }
  }

  /** Only the current stream starts being discarded. */
  lemma {:induction false} DiscardQuiet(w: World)
    requires Wired(w)
    ensures Quiet(w, DiscardStream(w), if w.c.curr.Some? then w.c.curr.value else -1)
  {
    if (w.c.st == Streaming || w.c.st == StreamingTx) && w.c.curr.Some? {
      var s := w.c.curr.value;
      var u := SetStream(w, s, w.c.streams[s].(discarding := true));
      assert Quiet(w, u, s);
      DiscardLoopQuiet(u, s, false);
      QuietWeaken(u, DiscardStream(w), s);
      QuietTrans(w, u, DiscardStream(w), s);
    }
  }

  lemma {:induction false} OpenQuiet(w: World, fetchSize: int)
    requires Wired(w)
    ensures Quiet(w, Open(w, fetchSize), -1)
  {
    var s := |w.c.streams|;
    var w1 := w.(c := w.c.(streams := w.c.streams + [NewStream(fetchSize)]), hist := w.hist + [History([], [], [])]);
    assert Quiet(w, w1, -1);
    AppendQuiet(w1, Run(s));
    var w2 := Append(w1, Run(s));
    AppendQuiet(w2, Pull(fetchSize, None, s));
    var w3 := Append(w2, Pull(fetchSize, None, s));
    SendQuiet(w3);
    QuietTrans(w, w1, w2, -1);
    QuietTrans(w, w2, w3, -1);
    QuietTrans(w, w3, Send(w3), -1);
  }

  lemma {:induction false} AwaitQuiet(w: World, s: nat)
    requires Wired(w) && s < |w.c.streams|
    ensures Quiet(w, AwaitAttached(w, s).0, -1)
    decreases |w.choices|
  {
    if !w.c.streams[s].attached {
      ReceiveQuiet(w);
      var (w1, ok) := Receive(w);
      if ok && !w1.c.err {
        AwaitQuiet(w1, s);
        QuietTrans(w, w1, AwaitAttached(w, s).0, -1);
      }
    }
  }

  lemma {:induction false} OpenAndAttachQuiet(w: World, fetchSize: int)
    requires Wired(w)
    ensures Quiet(w, OpenAndAttach(w, fetchSize).0, -1)
  {
    OpenQuiet(w, fetchSize);
    var w2 := Open(w, fetchSize);
    if !w2.c.err {
      StartQuiet(w2, |w.c.streams|);
      QuietTrans(w, w2, StartStreaming(w2, |w.c.streams|).0, -1);
    }
  }

  lemma {:induction false} StartQuiet(w: World, s: nat)
    requires Wired(w) && s < |w.c.streams|
    ensures Quiet(w, StartStreaming(w, s).0, -1)
  {
    AwaitQuiet(w, s);
    var (u, ok) := AwaitAttached(w, s);
    QuietState(w, u, Streaming, u.c.txId);
    QuietState(w, u, StreamingTx, u.c.txId);
  }

  /** Changing the connection's state and transaction afterwards makes no difference. */
  lemma {:induction false} QuietState(w: World, v: World, st: State, txId: nat)
    requires Quiet(w, v, -1)
    ensures Quiet(w, v.(c := v.c.(st := st)), -1) && Quiet(w, v.(c := v.c.(st := st, txId := txId)), -1)
  {
    QuietSame(v, v.(c := v.c.(st := st)));
    QuietTrans(w, v, v.(c := v.c.(st := st)), -1);
    var u := v.(c := v.c.(st := st, txId := txId));
    QuietSame(v, u);
    QuietTrans(w, v, u, -1);
  }

  lemma {:induction false} RunQuiet(w: World, fetchSize: int)
    requires Wired(w)
    ensures Quiet(w, RunQuery(w, fetchSize).0, -1)
  {
    BufferQuiet(w);
    PauseQuiet(w);
    var w1 := MakeRoom(w);
    assert Quiet(w, w1, -1);
    if !(w1.hung || w1.c.err || w1.c.st !in {Tx, Ready, StreamingTx}) {
      OpenAndAttachQuiet(w1, NormalizeFetchSize(fetchSize));
      QuietTrans(w, w1, RunQuery(w, fetchSize).0, -1);
    }
  }

  /** Once `r` is in the queue, sending it and reading the answers adds nothing more. */
  lemma {:induction false} ExchangeQuiet(w: World, r: Request, sync: bool)
    requires Wired(w) && RequestInRange(r, |w.c.streams|)
    ensures Quiet(Append(w, r), Exchange(w, r, sync).0, -1)
  {
    var w1 := Append(w, r);
    if sync {
      SendQuiet(w1);
      var w2 := Send(w1);
      if !w2.c.err {
        ReceiveAllQuiet(w2);
        QuietTrans(w1, w2, ReceiveAll(w2).0, -1);
      }
    }
  }

  lemma {:induction false} BeginSentQuiet(w: World, sync: bool)
    requires Wired(w)
    ensures Quiet(w, Exchange(w, Begin, sync).0, -1)
  {
    AppendQuiet(w, Begin);
    ExchangeQuiet(w, Begin, sync);
    QuietTrans(w, Append(w, Begin), Exchange(w, Begin, sync).0, -1);
  }

  lemma {:induction false} BeginNowQuiet(w: World, id: nat, sync: bool)
    requires Wired(w)
    ensures Quiet(w, BeginNow(w, id, sync).0, -1)
  {
    var w2 := w.(c := ResetStreams(w.c));
    QuietSame(w, w2);
    if !w2.c.err && w2.c.st == Ready {
      BeginSentQuiet(w2, sync);
      var w3 := Exchange(w2, Begin, sync).0;
      QuietTrans(w, w2, w3, -1);
      QuietState(w, w3, Tx, id);
    }
  }

  lemma {:induction false} BeginQuiet(w: World, id: nat, sync: bool)
    requires Wired(w)
    ensures Quiet(w, TxBegin(w, id, sync).0, -1)
  {
    BufferQuiet(w);
    var w1 := if w.c.st == Streaming then BufferStream(w) else w;
    BeginNowQuiet(w1, id, sync);
    QuietTrans(w, w1, BeginNow(w1, id, sync).0, -1);
  }

  lemma {:induction false} ForceResetQuiet(w: World)
    requires Wired(w)
    ensures Quiet(w, ForceReset(w), -1)
  {
    if w.c.st != Dead {
      var w0 := w.(c := w.c.(err := false));
      QuietSame(w, w0);
      ReceiveAllQuiet(w0);
      var (w1, ok) := ReceiveAll(w0);
      QuietTrans(w, w0, w1, -1);
      if ok && !w1.c.err {
        AppendQuiet(w1, Request.Reset);
        var u := Append(w1, Request.Reset);
        SendQuiet(u);
        var w2 := Send(u);
        QuietTrans(w, w1, u, -1);
        QuietTrans(w, u, w2, -1);
        if !w2.c.err {
          ReceiveQuiet(w2);
          QuietTrans(w, w2, Receive(w2).0, -1);
        }
      }
    }
  }

  lemma {:induction false} ResetQuiet(w: World)
    requires Wired(w)
    ensures Quiet(w, ResetConn(w), -1)
  {
    ForceResetQuiet(w);
    var w1 := if w.c.st == Ready then w else ForceReset(w);
    QuietSame(w1, ResetConn(w));
    QuietTrans(w, w1, ResetConn(w), -1);
  }

  lemma {:induction false} PullMoreQuiet(w: World, s: nat)
    requires Wired(w) && s < |w.c.streams|
    ensures Quiet(w, PullMore(w, s), -1)
  {
    if w.c.streams[s].endOfBatch {
      PullQuiet(w, s);
      var w1 := Send(AppendPull(w, s));
      QuietSame(w1, PullMore(w, s));
      QuietTrans(w, w1, PullMore(w, s), -1);
    }
  }

  // ---------------------------------------------------------------------------------------------
  // The public calls
  // ---------------------------------------------------------------------------------------------

  /** `v` is `w` with the records `g` more given out of stream `s`. */
  ghost predicate Gave(w: World, v: World, s: nat, g: seq<Record>)
  {
    && DiscardingKept(w, v, -1) && EndsKept(w, v) && TruthKept(w, v)
    && forall t: nat :: Got(v, t) == Got(w, t) + if t == s then g else []
  }

  lemma {:induction false} QuietGave(w: World, v: World, s: nat)
    requires Quiet(w, v, -1)
    ensures Gave(w, v, s, [])
  {
    forall t: nat ensures Got(v, t) == Got(w, t) + [] { assert Got(v, t) == Got(w, t); }
  }

  lemma {:induction false} QuietThenGave(u: World, w: World, v: World, s: nat, g: seq<Record>)
    requires Quiet(u, w, -1) && Gave(w, v, s, g)
    ensures Gave(u, v, s, g)
  {
    forall t: nat ensures Got(v, t) == Got(u, t) + if t == s then g else [] { assert Got(w, t) == Got(u, t); }
    forall t: nat ensures Discarding(v, t) == Discarding(u, t) { assert Discarding(w, t) == Discarding(u, t); }
  }

  /** Next gives out the very record it returns, of that stream and of no other; and else none. */
  lemma {:induction false} NextGives(w: World, s: nat)
    requires Wired(w) && s < |w.c.streams|
    ensures var (v, out) := NextRecord(w, s);
            Gave(w, v, s, if out.Rec? then [out.rec] else [])
    decreases |w.choices|
  {
    var x := w.c.streams[s];
    var (v, out) := NextRecord(w, s);
    if x.fifo != [] {
      forall t: nat ensures Got(v, t) == Got(w, t) + if t == s then [out.rec] else [] {}
    } else if x.err || x.sum {
      QuietGave(w, v, s);
    } else {
      PullMoreQuiet(w, s);
      var w1 := PullMore(w, s);
      if (x.endOfBatch && w1.c.err) || w1.c.handlers == [] {
        QuietGave(w, v, s);
      } else {
        ReceiveQuiet(w1);
        var (w2, ok) := Receive(w1);
        QuietTrans(w, w1, w2, -1);
        if !ok || w2.c.err {
          QuietGave(w, v, s);
        } else {
          NextGives(w2, s);
          QuietThenGave(w, w2, v, s, if out.Rec? then [out.rec] else []);
        }
      }
    }
  }

  /** Consume starts discarding no stream but the one it has made current. */
  lemma {:induction false} ConsumeQuiet(w: World, s: nat)
    requires Wired(w) && s < |w.c.streams|
    ensures var c := SwitchTo(w, s).0.c; Quiet(w, Consume(w, s).0, if c.curr.Some? then c.curr.value else -1)
  {
    var x := w.c.streams[s];
    if !x.sum && !x.err && MayDrain(w, s) {
      var (w1, ok) := SwitchTo(w, s);
      var t := if w1.c.curr.Some? then w1.c.curr.value else -1;
      SwitchQuiet(w, s);
      QuietWeaken(w, w1, t);
      if ok {
        DiscardQuiet(w1);
        QuietTrans(w, w1, DiscardStream(w1), t);
      }
    }
  }

  /** Buffer starts discarding nothing. */
  lemma {:induction false} BufferCallQuiet(w: World, s: nat)
    requires Wired(w) && s < |w.c.streams|
    ensures Quiet(w, Buffer(w, s).0, -1)
  {
    var x := w.c.streams[s];
    if !x.sum && !x.err && MayDrain(w, s) {
      SwitchQuiet(w, s);
      var (w1, ok) := SwitchTo(w, s);
      if ok {
        BufferQuiet(w1);
        QuietTrans(w, w1, BufferStream(w1), -1);
      }
    }
  }

  /** One more end is asked for, of the given kind; of the other kind there are no more. */
  ghost predicate OneMore(w: World, v: World, commit: bool)
  {
    && AskedFor(v, Commit) <= AskedFor(w, Commit) + (if commit then 1 else 0)
    && AskedFor(v, Rollback) <= AskedFor(w, Rollback) + (if commit then 0 else 1)
  }

  /** EndTx gives out nothing, discards no stream but the current one and asks for the end it is to. */
  lemma {:induction false} EndTxAsks(w: World, h: nat, commit: bool)
    requires Wired(w)
    ensures var v := EndTx(w, h, commit).0;
            && GotKept(w, v) && DiscardingKept(w, v, if w.c.curr.Some? then w.c.curr.value else -1)
            && OneMore(w, v, commit) && TruthKept(w, v)
  {
    if h == w.c.txId {
      DiscardAllQuiet(w);
      var w1 := DiscardAllStreams(w);
      if !w1.c.err && w1.c.st == Tx {
        var (w3, ok) := Exchange(w1, if commit then Commit else Rollback, true);
        EndAsked(w1, commit, w3);
        var v := if !ok || w3.c.err then w3 else w3.(c := w3.c.(st := Ready));
        QuietSame(w3, v);
        EndTrans(w, w1, w3, v, if w.c.curr.Some? then w.c.curr.value else -1, commit);
      }
    }
  }

  lemma {:induction false} EndTrans(w: World, w1: World, w3: World, v: World, t: int, commit: bool)
    requires Quiet(w, w1, t) && Quiet(w3, v, -1)
    requires GotKept(w1, w3) && DiscardingKept(w1, w3, -1) && OneMore(w1, w3, commit) && TruthKept(w1, w3)
    ensures GotKept(w, v) && DiscardingKept(w, v, t) && OneMore(w, v, commit) && TruthKept(w, v)
  {
    forall s: nat ensures Got(v, s) == Got(w, s) {
      assert Got(w1, s) == Got(w, s) && Got(w3, s) == Got(w1, s);
    }
    forall s: nat | s != t ensures Discarding(v, s) == Discarding(w, s) {
      assert Discarding(w1, s) == Discarding(w, s) && Discarding(w3, s) == Discarding(w1, s);
    }
  }

  lemma {:induction false} DiscardAllQuiet(w: World)
    requires Wired(w)
    ensures Quiet(w, DiscardAllStreams(w), if w.c.curr.Some? then w.c.curr.value else -1)
  {
    DiscardQuiet(w);
    if w.c.st == Streaming || w.c.st == StreamingTx {
      var t := if w.c.curr.Some? then w.c.curr.value else -1;
      QuietSame(DiscardStream(w), DiscardAllStreams(w));
      QuietWeaken(DiscardStream(w), DiscardAllStreams(w), t);
      QuietTrans(w, DiscardStream(w), DiscardAllStreams(w), t);
    }
  }

  lemma {:induction false} EndAsked(w: World, commit: bool, v: World)
    requires Wired(w) && v == Exchange(w, if commit then Commit else Rollback, true).0
    ensures GotKept(w, v) && DiscardingKept(w, v, -1) && OneMore(w, v, commit) && TruthKept(w, v)
  {
    var k := if commit then Commit else Rollback;
    var u := Append(w, k);
    assert multiset(u.p.inbox) == multiset(w.p.inbox) + multiset{k};
    ExchangeQuiet(w, k, true);
    assert Quiet(u, v, -1);
    forall s: nat ensures Got(v, s) == Got(w, s) { assert Got(u, s) == Got(w, s); }
    forall s: nat ensures Discarding(v, s) == Discarding(w, s) { assert Discarding(u, s) == Discarding(w, s); }
  }

  // ---------------------------------------------------------------------------------------------
  // One call, whichever it is
  // ---------------------------------------------------------------------------------------------

  /** What the answer to a call hands over of stream `s`. */
  function Given(op: Op, out: Outcome, s: nat): seq<Record>
  {
    if op == OpNext(s) && out.Rec? then [out.rec] else []
  }

  /** The calls that may take records away from a stream. */
  predicate Discards(op: Op)
  {
    op.OpConsume? || op.OpEndTx?
  }

  lemma {:induction false} OtherCallQuiet(w: World, op: Op)
    requires Wired(w) && !op.OpNext? && !Discards(op)
    ensures Quiet(w, Call(w, op).0, -1)
  {
    if !w.hung {
      match op
      case OpTelemetry => AppendQuiet(w, Other);
      case OpRun(n) => RunQuiet(w, n);
      case OpTxBegin(id, sync) => BeginQuiet(w, id, sync);
      case OpRunTx(h, n) => RunQuiet(w, n);
      case OpBuffer(s) => if s < |w.c.streams| { BufferCallQuiet(w, s); }
      case OpReset => ResetQuiet(w);
      case OpForceReset => ForceResetQuiet(w);
    }
  }

  lemma {:induction false} NextCall(w: World, s: nat)
    requires Wired(w)
    ensures var (v, out) := Call(w, OpNext(s)); Gave(w, v, s, Given(OpNext(s), out, s))
  {
    if w.hung || s >= |w.c.streams| { QuietGave(w, w, s); } else { NextGives(w, s); }
  }

  /** The stream that a call may start to discard: the one it has made current, or -1. */
  function MayDiscard(w: World, op: Op): int
    requires Wired(w)
  {
    var c := if op.OpConsume? && op.s < |w.c.streams| then SwitchTo(w, op.s).0.c else w.c;
    if Discards(op) && c.curr.Some? then c.curr.value else -1
  }

  lemma {:induction false} ConsumeCall(w: World, s: nat)
    requires Wired(w)
    ensures Quiet(w, Call(w, OpConsume(s)).0, MayDiscard(w, OpConsume(s)))
  {
    if !w.hung && s < |w.c.streams| { ConsumeQuiet(w, s); }
  }

  lemma {:induction false} EndCall(w: World, h: nat, commit: bool)
    requires Wired(w)
    ensures var v := Call(w, OpEndTx(h, commit)).0;
            && GotKept(w, v) && DiscardingKept(w, v, MayDiscard(w, OpEndTx(h, commit)))
            && OneMore(w, v, commit) && TruthKept(w, v)
  {
    if !w.hung { EndTxAsks(w, h, commit); }
  }

  /** What Next returns is what is given out of its stream; no other call and no failure gives any. */
  lemma {:induction false} CallGives(w: World, op: Op, s: nat)
    requires Wired(w)
    ensures Got(Call(w, op).0, s) == Got(w, s) + Given(op, Call(w, op).1, s)
  {
    match op
    case OpNext(t) => NextCall(w, t);
    case OpConsume(t) => ConsumeCall(w, t);
    case OpEndTx(h, commit) => EndCall(w, h, commit);
    case _ => OtherCallQuiet(w, op);
  }

  /**
   * A stream starts losing its records only in Consume, where it is the stream made current, and
   * in the end of a transaction, where it is the current one.
   */
  lemma {:induction false} CallDiscards(w: World, op: Op, s: nat)
    requires Wired(w) && s != MayDiscard(w, op)
    ensures Discarding(Call(w, op).0, s) == Discarding(w, s)
  {
    match op
    case OpNext(t) => NextCall(w, t);
    case OpConsume(t) => ConsumeCall(w, t);
    case OpEndTx(h, commit) => EndCall(w, h, commit);
    case _ => OtherCallQuiet(w, op);
  }

  /** Only EndTx asks for a transaction to be ended, once, and in the way it was called for. */
  lemma {:induction false} CallEnds(w: World, op: Op)
    requires Wired(w)
    ensures if op.OpEndTx? then OneMore(w, Call(w, op).0, op.commit) else EndsKept(w, Call(w, op).0)
  {
    match op
    case OpNext(t) => NextCall(w, t);
    case OpConsume(t) => ConsumeCall(w, t);
    case OpEndTx(h, commit) => EndCall(w, h, commit);
    case _ => OtherCallQuiet(w, op);
  }

  /** Next and Consume answer with a summary only if the stream has one. */
  lemma {:induction false} SummaryIsTheStreams(w: World, s: nat)
    requires Wired(w) && s < |w.c.streams|
    ensures NextRecord(w, s).1 == Summary ==> s < |NextRecord(w, s).0.c.streams| && NextRecord(w, s).0.c.streams[s].sum
    ensures Consume(w, s).1 == Summary ==> s < |Consume(w, s).0.c.streams| && Consume(w, s).0.c.streams[s].sum
    decreases |w.choices|
  {
    var x := w.c.streams[s];
    if x.fifo == [] && !x.err && !x.sum {
      var w1 := PullMore(w, s);
      if !(x.endOfBatch && w1.c.err) && w1.c.handlers != [] {
        var (w2, ok) := Receive(w1);
        if ok && !w2.c.err { SummaryIsTheStreams(w2, s); }
      }
    }
  }

  /** In every run: an answer with the summary means that the peer has said there is no more. */
  lemma {:induction false} SummaryIsTrue(w: World, op: Op)
    requires Wired(w) && Truthful(w) && !w.hung && (op.OpNext? || op.OpConsume?) && Call(w, op).1 == Summary
    ensures op.s in Call(w, op).0.complete
  {
    CallTruth(w, op);
    SummaryIsTheStreams(w, op.s);
  }

  lemma {:induction false} CallTruth(w: World, op: Op)
    requires Wired(w)
    ensures TruthKept(w, Call(w, op).0)
  {
    match op
    case OpNext(t) => NextCall(w, t);
    case OpConsume(t) => ConsumeCall(w, t);
    case OpEndTx(h, commit) => EndCall(w, h, commit);
    case _ => OtherCallQuiet(w, op);
  }

  // ---------------------------------------------------------------------------------------------
  // Every run
  // ---------------------------------------------------------------------------------------------

  /** The records the calls returned of stream `s`, in the order they returned them. */
  function Returned(w: World, ops: seq<Op>, s: nat): seq<Record>
    requires Wired(w)
    decreases |ops|
  {
    if ops == [] then [] else Given(ops[0], Call(w, ops[0]).1, s) + Returned(Call(w, ops[0]).0, ops[1..], s)
  }

  /** How many of the calls are to end a transaction in that way. */
  function EndCalls(ops: seq<Op>, commit: bool): nat
  {
    if ops == [] then 0
    else (if ops[0].OpEndTx? && ops[0].commit == commit then 1 else 0) + EndCalls(ops[1..], commit)
  }

  lemma {:induction false} GivenFirst(a: seq<Record>, b: seq<Record>, c: seq<Record>)
    ensures (a + b) + c == a + (b + c)
  {
  }

  lemma {:induction false} RunGives(w: World, ops: seq<Op>, s: nat)
    requires Wired(w)
    ensures Got(Calls(w, ops), s) == Got(w, s) + Returned(w, ops, s)
    decreases |ops|
  {
    if ops != [] {
      var (v, out) := Call(w, ops[0]);
      CallGives(w, ops[0], s);
      RunGives(v, ops[1..], s);
      GivenFirst(Got(w, s), Given(ops[0], out, s), Returned(v, ops[1..], s));
    }
  }

  lemma {:induction false} RunSpares(w: World, ops: seq<Op>, s: nat)
    requires Wired(w) && forall i :: 0 <= i < |ops| ==> !Discards(ops[i])
    ensures Discarding(Calls(w, ops), s) == Discarding(w, s)
    decreases |ops|
  {
    if ops != [] {
      CallDiscards(w, ops[0], s);
      RunSpares(Call(w, ops[0]).0, ops[1..], s);
    }
  }

  lemma {:induction false} RunTruth(w: World, ops: seq<Op>)
    requires Wired(w) && Truthful(w)
    ensures Truthful(Calls(w, ops))
    decreases |ops|
  {
    if ops != [] {
      CallTruth(w, ops[0]);
      RunTruth(Call(w, ops[0]).0, ops[1..]);
    }
  }

  lemma {:induction false} RunEnds(w: World, ops: seq<Op>)
    requires Wired(w)
    ensures AskedFor(Calls(w, ops), Commit) <= AskedFor(w, Commit) + EndCalls(ops, true)
    ensures AskedFor(Calls(w, ops), Rollback) <= AskedFor(w, Rollback) + EndCalls(ops, false)
    decreases |ops|
  {
    if ops != [] {
      CallEnds(w, ops[0]);
      RunEnds(Call(w, ops[0]).0, ops[1..]);
    }
  }

  lemma {:induction false} RunAccounts(n: World, ops: seq<Op>, s: nat)
    requires Wired(n) && |n.c.streams| == |n.hist| == 0
    ensures var w := Calls(n, ops);
            s < |w.c.streams| && (!w.c.streams[s].discarding || forall i :: 0 <= i < |ops| ==> !Discards(ops[i])) ==>
              Returned(n, ops, s) + w.c.streams[s].fifo == w.hist[s].sent
  {
    var w := Calls(n, ops);
    RunGives(n, ops, s);
    assert Got(n, s) == [] && !Discarding(n, s);
    if s < |w.c.streams| {
      if forall i :: 0 <= i < |ops| ==> !Discards(ops[i]) { RunSpares(n, ops, s); }
      assert Returned(n, ops, s) == w.hist[s].got;
    }
  }

  /**
   * Of every connection, whatever its peer answers, whatever fails and whatever is called: the
   * records Next returned of a stream, in that order, and then those buffered, are the ones the peer
   * sent for it, unless it is being discarded, which needs a Consume or the end of a transaction;
   * a stream has a summary only if the peer has said that there is no more of it, so no result cut
   * short passes for a whole one; and the peer carries out no COMMIT or ROLLBACK not called for.
   */
  lemma {:induction false} EveryRun(honest: bool, choices: seq<Choice>, ops: seq<Op>, s: nat)
    ensures var w := Calls(NewConnection(honest, choices), ops);
            && |w.hist| == |w.c.streams|
            && (s < |w.c.streams| && (!w.c.streams[s].discarding || forall i :: 0 <= i < |ops| ==> !Discards(ops[i])) ==>
                  Returned(NewConnection(honest, choices), ops, s) + w.c.streams[s].fifo == w.hist[s].sent)
            && (s < |w.c.streams| && w.c.streams[s].sum ==> s in w.complete)
            && multiset(w.p.ended)[Commit] <= EndCalls(ops, true)
            && multiset(w.p.ended)[Rollback] <= EndCalls(ops, false)
  {
    var n := NewConnection(honest, choices);
    RunAccounts(n, ops, s);
    RunTruth(n, ops);
    RunEnds(n, ops);
  }

  // ---------------------------------------------------------------------------------------------
  // After a failure
  // ---------------------------------------------------------------------------------------------

  lemma {:induction false} ErrSticksDiscard(w: World)
    requires Wired(w) && w.c.err
    ensures DiscardStream(w).c.err
  {
    if (w.c.st == Streaming || w.c.st == StreamingTx) && w.c.curr.Some? {
      var s := w.c.curr.value;
      ErrSticksAll(SetStream(w, s, w.c.streams[s].(discarding := true)));
    }
  }

  lemma {:induction false} ErrSticksBuffer(w: World)
    requires Wired(w) && w.c.err
    ensures BufferStream(w).c.err
  {
    if w.c.curr.Some? { ErrSticksAll(w); }
  }

  lemma {:induction false} HandleKeepsErr(c: Conn, h: Handler, m: Msg)
    requires InRange(c) && HandlerInRange(h, |c.streams|) && c.err
    ensures Handle(c, h, m).0.err
  {
    match m
    case Success(_, _) => match h { case _ => }
    case Failure(_) => match h { case _ => }
    case _ =>
  }

  /** No handler clears the connection's error. */
  lemma {:induction false} ErrSticks(w: World)
    requires Wired(w) && w.c.err
    ensures Receive(w).0.c.err
  {
    WiredInRange(w);
    if !w.c.queueErr && w.choices != [] && Available(w.p, w.choices[0]) {
      HandleKeepsErr(w.c.(handlers := w.c.handlers[1..]), w.c.handlers[0], w.choices[0].msg);
    }
  }

  lemma {:induction false} ErrSticksAll(w: World)
    requires Wired(w) && w.c.err
    ensures ReceiveAll(w).0.c.err
    decreases |w.choices|
  {
    if w.c.handlers != [] {
      ErrSticks(w);
      if Receive(w).1 { ErrSticksAll(Receive(w).0); }
    }
  }

  lemma {:induction false} ErrSticksNext(w: World, s: nat)
    requires Wired(w) && w.c.err && s < |w.c.streams|
    ensures NextRecord(w, s).0.c.err
  {
    var x := w.c.streams[s];
    if x.fifo == [] && !x.err && !x.sum {
      var w1 := PullMore(w, s);
      assert w1.c.err;
      ErrSticks(w1);
    }
  }

  lemma {:induction false} ErrSticksRun(w: World, h: nat, fetchSize: int)
    requires Wired(w) && w.c.err
    ensures RunTx(w, h, fetchSize).0.c.err && RunTx(w, h, fetchSize).1 == Error
  {
    ErrSticksBuffer(w);
    ErrSticksAll(w);
    assert PauseStream(w).c.err;
    assert MakeRoom(w).c.err;
  }

  lemma {:induction false} ErrSticksEnd(w: World, h: nat, commit: bool)
    requires Wired(w) && w.c.err
    ensures EndTx(w, h, commit).0.c.err && EndTx(w, h, commit).1 == Error
  {
    ErrSticksDiscard(w);
    assert DiscardAllStreams(w).c.err;
  }

  /**
   * Once an error is recorded it stays until the connection is reset, and meanwhile no query is run
   * and no transaction is begun or ended.
   */
  lemma {:induction false} ErrorStays(w: World, op: Op)
    requires Wired(w) && w.c.err && !op.OpReset? && !op.OpForceReset?
    ensures Call(w, op).0.c.err
    ensures op.OpRun? || op.OpRunTx? || op.OpTxBegin? || op.OpEndTx? ==> Call(w, op).1 == Error
  {
    if !w.hung {
      match op
      case OpRunTx(h, n) => ErrSticksRun(w, h, n);
      case OpTxBegin(_, _) => ErrSticksBuffer(w);
      case OpNext(s) => if s < |w.c.streams| { ErrSticksNext(w, s); }
      case OpEndTx(h, commit) => ErrSticksEnd(w, h, commit);
      case _ =>
    }
  }

  /** The stream's result is cut short, as Next will say once its buffer is empty. */
  predicate CutShort(w: World, s: nat)
  {
    s < |w.c.streams| && w.c.streams[s].err
  }

  lemma {:induction false} SetErrorEffect(c: Conn, fatal: bool)
    requires InRange(c) && !c.err
    ensures var c' := SetError(c, fatal);
            && c'.err && c'.st == (if fatal then Dead else Failed) && c'.curr == None && |c'.streams| == |c.streams|
            && (forall s :: 0 <= s < |c.streams| && c.streams[s].err ==> c'.streams[s].err)
            && (c.curr.Some? ==> c'.streams[c.curr.value].err && !c'.streams[c.curr.value].sum)
  {
  }

  /**
   * The first failure: a server's leaves the connection failed, or dead if it is fatal, and an I/O
   * error leaves it dead; no stream is current any more; the one that was, and the one the failed
   * request was for, are cut short.
   */
  lemma {:induction false} FailureEffect(w: World)
    requires Wired(w) && !w.c.err && !w.c.queueErr
    requires w.choices == [] || !Available(w.p, w.choices[0]) || (w.choices[0].msg.Failure? && !w.p.inbox[0].Reset?)
    ensures var (v, ok) := Receive(w);
            var io := w.choices == [] || !Available(w.p, w.choices[0]);
            && !ok && v.c.err && v.c.curr == None && v.c.queueErr == io
            && v.c.st == (if io || w.choices[0].msg.fatal then Dead else Failed)
            && (w.c.curr.Some? ==> CutShort(v, w.c.curr.value))
            && (!io && (w.p.inbox[0].Pull? || w.p.inbox[0].Discard?) ==> CutShort(v, w.p.inbox[0].sid))
  {
    WiredInRange(w);
    if w.choices == [] || !Available(w.p, w.choices[0]) {
      ReceiveBreaks(w);
      SetErrorEffect(w.c.(queueErr := true), true);
    } else {
      ReceiveDelivers(w);
      FailureHandled(w.c.(handlers := w.c.handlers[1..]), w.c.handlers[0], w.choices[0].msg.fatal);
    }
  }

  lemma {:induction false} FailureHandled(c: Conn, h: Handler, fatal: bool)
    requires InRange(c) && HandlerInRange(h, |c.streams|) && !c.err && !h.OnReset?
    ensures var (c', ok) := Handle(c, h, Failure(fatal));
            && !ok && c'.err && c'.st == (if fatal then Dead else Failed) && c'.curr == None && |c'.streams| == |c.streams|
            && c'.queueErr == c.queueErr
            && (c.curr.Some? ==> c'.streams[c.curr.value].err)
            && (h.OnPull? || h.OnDiscard? ==> c'.streams[h.sid].err)
  {
    match h
    case OnPull(s) => SetErrorEffect(c.(streams := c.streams[s := c.streams[s].(err := true)]), fatal);
    case OnDiscard(s) => SetErrorEffect(c.(streams := c.streams[s := c.streams[s].(err := true)]), fatal);
    case _ => SetErrorEffect(c, fatal);
  }

  /** A PULL or DISCARD the server ignored, after an earlier failure, cuts its stream short too. */
  lemma {:induction false} IgnoredEffect(w: World)
    requires Wired(w) && !w.c.queueErr && w.choices != [] && Available(w.p, w.choices[0]) && w.choices[0].msg.Ignored?
    requires w.p.inbox[0].Pull? || w.p.inbox[0].Discard?
    ensures Receive(w).1 && CutShort(Receive(w).0, w.p.inbox[0].sid)
  {
    ReceiveDelivers(w);
    assert w.c.handlers[0] == HandlerFor(w.p.inbox[0]);
  }

  // ---------------------------------------------------------------------------------------------
  // Reset
  // ---------------------------------------------------------------------------------------------

  /** What was outstanding is drained without failure and RESET is sent and acknowledged. */
  predicate ResetAcknowledged(w: World)
    requires Wired(w)
  {
    var (w1, ok) := ReceiveAll(w.(c := w.c.(err := false)));
    ok && !w1.c.err && var w2 := Send(Append(w1, Request.Reset)); !w2.c.err && Receive(w2).1
  }

  /** Nothing outstanding, no error, and a peer that is neither failed nor in a transaction. */
  predicate Restored(w: World)
  {
    && w.c.st == Ready && !w.c.err && !w.c.queueErr && w.c.handlers == []
    && w.p.inbox == [] && w.p.unsent == 0 && !w.p.failed && !w.p.inTx && w.p.open == map[]
  }

  lemma {:induction false} ResetAnswered(w: World)
    requires Wired(w) && w.p.inbox == [Request.Reset] && !w.c.err && w.p.unsent == 0 && Receive(w).1
    ensures Restored(Receive(w).0)
  {
    assert w.c.handlers[0] == HandlerFor(w.p.inbox[0]);
    ReceiveDelivers(w);
  }

  /** A RESET that is acknowledged leaves the connection and its peer as good as new. */
  lemma {:induction false} ForceResetRestores(w: World)
    requires Wired(w) && w.c.st != Dead && ResetAcknowledged(w)
    ensures Restored(ForceReset(w))
  {
    var w1 := ReceiveAll(w.(c := w.c.(err := false))).0;
    var w2 := Send(Append(w1, Request.Reset));
    assert w1.p.inbox == [];
    assert w2.p.inbox == [Request.Reset];
    ResetAnswered(w2);
  }

  /**
   * Reset does so unless the connection is ready already, when it sends nothing; either way it
   * forgets the transaction, its error and every open stream.
   */
  lemma {:induction false} ResetRestores(w: World)
    requires Wired(w) && w.c.st != Dead && (w.c.st == Ready || ResetAcknowledged(w))
    ensures var v := ResetConn(w);
            && v.c.st == Ready && !v.c.err && v.c.txId == 0 && v.c.curr == None && v.c.num == 0
            && (if w.c.st == Ready then v.p == w.p && v.c.handlers == w.c.handlers else Restored(v))
  {
    if w.c.st != Ready { ForceResetRestores(w); }
  }
}
