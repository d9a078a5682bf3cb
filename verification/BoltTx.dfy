/**
 * What holds from BEGIN up to the commit or rollback of a transaction in which nothing fails,
 * under every interleaving of its result streams: the count of open streams, who is current, that
 * a PULL or DISCARD reaches the query it was meant for, and that every query's rows arrive whole
 * and in order.
 */
module BoltTx {
  import opened Bytes
  import opened Bolt
  import opened BoltCalls

  predicate Live(x: Stream)
  {
    x.attached && !x.sum && !x.err
  }

  /** The streams of this transaction are those from `base` on; these still have something to come. */
  function LiveSet(c: Conn, base: nat): set<nat>
  {
    set s | base <= s < |c.streams| && Live(c.streams[s])
  }

  predicate Asks(r: Request)
  {
    r.Pull? || r.Discard?
  }

  predicate InFlight(w: World, s: nat)
  {
    exists i :: 0 <= i < |w.p.inbox| && Asks(w.p.inbox[i]) && w.p.inbox[i].sid == s
  }

  // ---------------------------------------------------------------------------------------------
  // The invariant, clause by clause
  // ---------------------------------------------------------------------------------------------

  predicate Healthy(w: World, base: nat)
  {
    && !w.c.err && !w.c.queueErr && !w.hung && !w.p.failed && w.p.honest
    && (w.c.st == Tx || w.c.st == StreamingTx)
    && base <= |w.c.streams|
  }

  /**
   * The request at `i` will reach the stream it is for: either by that stream's own query id, or
   * without one because that stream is the last one opened, or because its RUN goes just before.
   */
  predicate Addressed(w: World, i: nat, q: Option<int>, s: nat)
    requires i < |w.p.inbox| && s < |w.c.streams|
  {
    var x := w.c.streams[s];
    if x.attached then Live(x) && (q == Some(x.qid) || (q == None && x.qid == w.c.lastQid))
    else q == None && i > 0 && w.p.inbox[i - 1] == Run(s)
  }

  predicate RequestOk(w: World, base: nat, i: nat)
    requires i < |w.p.inbox|
  {
    match w.p.inbox[i]
    case Begin => true
    case Other => true
    case Run(s) =>
      && base <= s && s + 1 == |w.c.streams| && !w.c.streams[s].attached
      && i + 2 == |w.p.inbox| && w.p.inbox[i + 1].Pull? && w.p.inbox[i + 1].sid == s
    case Pull(_, q, s) => base <= s < |w.c.streams| && Addressed(w, i, q, s)
    case Discard(n, q, s) => base <= s < |w.c.streams| && Addressed(w, i, q, s) && w.c.streams[s].discarding
    case _ => false
  }

  predicate Requests(w: World, base: nat)
  {
    && (forall i :: 0 <= i < |w.p.inbox| ==> RequestOk(w, base, i))
    && (forall i, j :: 0 <= i < j < |w.p.inbox| && Asks(w.p.inbox[i]) && Asks(w.p.inbox[j]) ==>
          w.p.inbox[i].sid != w.p.inbox[j].sid)
  }

  /**
   * A stream not yet attached waits for its RUN, has neither received nor returned anything, and
   * meanwhile no stream is current, so attaching it will find none.
   */
  predicate Opening(w: World, base: nat)
  {
    forall s :: base <= s < |w.c.streams| && !w.c.streams[s].attached ==>
      && s < |w.hist| && w.hist[s].sent == [] && s + 1 == |w.c.streams|
      && |w.p.inbox| >= 2 && w.p.inbox[|w.p.inbox| - 2] == Run(s)
      && !w.c.streams[s].sum && !w.c.streams[s].err && !w.c.streams[s].endOfBatch && !w.c.streams[s].discarding
      && w.c.curr == None
  }

  /** A live stream is waiting for an answer or has reached the end of a batch. */
  predicate Progressing(w: World, base: nat)
  {
    forall s :: base <= s < |w.c.streams| && Live(w.c.streams[s]) ==>
      w.c.streams[s].key == w.c.key && (InFlight(w, s) || w.c.streams[s].endOfBatch)
  }

  predicate Counted(w: World, base: nat)
  {
    && w.c.num == |LiveSet(w.c, base)|
    && (w.c.curr.Some? ==> w.c.curr.value in LiveSet(w.c, base))
  }

  /** Query ids are distinct, known to the peer, and the last one seen is the peer's latest. */
  predicate Numbered(w: World, base: nat)
  {
    && (forall s :: base <= s < |w.c.streams| && w.c.streams[s].attached ==>
          && w.c.streams[s].qid >= 0 && w.c.streams[s].qid in w.p.used && w.c.streams[s].qid in w.p.open
          && !w.c.streams[s].err
          && w.p.latest == w.c.lastQid && w.p.inTx)
    && (forall s, t :: base <= s < t < |w.c.streams| && w.c.streams[s].attached && w.c.streams[t].attached ==>
          w.c.streams[s].qid != w.c.streams[t].qid)
  }

  /** BEGIN has been answered, or goes before every RUN still to be answered. */
  predicate Begun(w: World)
  {
    if w.p.inTx then forall i :: 0 <= i < |w.p.inbox| ==> w.p.inbox[i] != Begin
    else exists b :: 0 <= b < |w.p.inbox| && w.p.inbox[b] == Begin
           && forall i :: 0 <= i < |w.p.inbox| && i != b ==> w.p.inbox[i] != Begin && (i < b ==> w.p.inbox[i] == Other)
  }

  /** What was sent for a stream and what the peer still has is its query's whole result. */
  predicate RowsKept(w: World, base: nat)
  {
    |w.hist| == |w.c.streams| &&
    forall s :: base <= s < |w.c.streams| && w.c.streams[s].attached && !w.c.streams[s].discarding ==>
      && w.c.streams[s].qid in w.p.open
      && w.hist[s].sent + w.p.open[w.c.streams[s].qid] == w.hist[s].rows
      && (w.c.streams[s].sum ==> w.p.open[w.c.streams[s].qid] == [])
  }

  predicate InTx(w: World, base: nat)
  {
    && Wired(w) && Healthy(w, base) && Requests(w, base) && Opening(w, base) && Progressing(w, base)
    && Counted(w, base) && Numbered(w, base) && Begun(w) && RowsKept(w, base)
  }

  // ---------------------------------------------------------------------------------------------
  // Receiving one message without failure
  // ---------------------------------------------------------------------------------------------

  /** A receive fails exactly when it sets the connection's error; else a record or a SUCCESS came. */
  lemma {:induction false} FailureFreeMessage(w: World, base: nat)
    requires InTx(w, base)
    ensures Receive(w).1 <==> !Receive(w).0.c.err
    ensures Receive(w).1 ==>
              && w.choices != [] && Available(w.p, w.choices[0]) && w.p.inbox != []
              && (w.choices[0].msg.RecordMsg? || w.choices[0].msg.Success?)
              && Receive(w) == Delivered(w.(choices := w.choices[1..]), w.choices[0])
  {
    if w.p.inbox != [] { assert RequestOk(w, base, 0); }
  }

  /** PULL or DISCARD at the front acts on the very query of the stream it was sent for. */
  lemma {:induction false} ReachesItsQuery(w: World, base: nat)
    requires InTx(w, base) && w.p.inbox != [] && Asks(w.p.inbox[0])
    ensures var r := w.p.inbox[0];
            && base <= r.sid < |w.c.streams| && Live(w.c.streams[r.sid])
            && Target(w.p, r) == w.c.streams[r.sid].qid
  {
    assert RequestOk(w, base, 0);
  }

  /** A record: the stream's buffer grows and the peer has one row less for it. */
  lemma {:induction false} RecordForm(w: World, base: nat, ch: Choice)
    requires InTx(w, base) && Available(w.p, ch) && ch.msg.RecordMsg?
    ensures var r := w.p.inbox[0];
            && r.Pull? && base <= r.sid < |w.c.streams|
            && var s := r.sid;
            var x := w.c.streams[s];
            && Live(x) && x.qid in w.p.open && w.p.open[x.qid] != [] && ch.msg.rec == w.p.open[x.qid][0]
            && Delivered(w, ch) ==
               (w.(c := w.c.(streams := w.c.streams[s := x.(fifo := if x.discarding then [] else x.fifo + [ch.msg.rec])]),
                   p := w.p.(open := w.p.open[x.qid := w.p.open[x.qid][1..]]),
                   hist := w.hist[s := w.hist[s].(sent := w.hist[s].sent + [ch.msg.rec])]), true)
  {
    ReachesItsQuery(w, base);
    WiredInRange(w);
    assert [w.c.handlers[0]] + w.c.handlers[1..] == w.c.handlers;
  }

  lemma {:induction false} RecordKeepsRequests(w: World, base: nat, ch: Choice)
    requires InTx(w, base) && Available(w.p, ch) && ch.msg.RecordMsg?
    ensures var v := Delivered(w, ch).0;
            Requests(v, base) && Opening(v, base) && Progressing(v, base) && Counted(v, base) && Numbered(v, base) && Begun(v)
  {
    RecordForm(w, base, ch);
    var v := Delivered(w, ch).0;
    forall i | 0 <= i < |v.p.inbox| ensures RequestOk(v, base, i) {
      assert RequestOk(w, base, i);
    }
    forall s | base <= s < |v.c.streams| && Live(v.c.streams[s])
      ensures v.c.streams[s].key == v.c.key && (InFlight(v, s) || v.c.streams[s].endOfBatch)
    {
      assert InFlight(w, s) ==> InFlight(v, s);
    }
    assert LiveSet(v.c, base) == LiveSet(w.c, base);
  }

  lemma {:induction false} RecordKeepsRows(w: World, base: nat, ch: Choice)
    requires InTx(w, base) && Available(w.p, ch) && ch.msg.RecordMsg?
    ensures RowsKept(Delivered(w, ch).0, base)
  {
    RecordForm(w, base, ch);
    var v := Delivered(w, ch).0;
    var s := w.p.inbox[0].sid;
    var q := w.c.streams[s].qid;
    forall t | base <= t < |v.c.streams| && v.c.streams[t].attached && !v.c.streams[t].discarding
      ensures && v.c.streams[t].qid in v.p.open
              && v.hist[t].sent + v.p.open[v.c.streams[t].qid] == v.hist[t].rows
              && (v.c.streams[t].sum ==> v.p.open[v.c.streams[t].qid] == [])
    {
      if t == s {
        assert w.hist[s].sent + w.p.open[q] == w.hist[s].sent + [ch.msg.rec] + w.p.open[q][1..];
      } else {
        assert w.c.streams[t].qid != q;
      }
    }
  }

  lemma {:induction false} RecordArrives(w: World, base: nat, ch: Choice)
    requires InTx(w, base) && Available(w.p, ch) && ch.msg.RecordMsg?
    ensures InTx(Delivered(w, ch).0, base) && Delivered(w, ch).1
  {
    RecordForm(w, base, ch);
    RecordKeepsRequests(w, base, ch);
    RecordKeepsRows(w, base, ch);
    DeliveredPaired(w, ch);
    DeliveredKeepsAll(w, ch);
  }

  /** Streams other than `s`, and the peer's rows for them, are as they were. */
  predicate OthersSame(w: World, v: World, s: nat)
  {
    && |v.c.streams| == |w.c.streams| && |v.hist| == |w.hist| && s < |w.c.streams|
    && (forall t :: 0 <= t < |w.c.streams| && t != s ==> v.c.streams[t] == w.c.streams[t])
    && v.c.key == w.c.key
  }

  /** An answered PULL or DISCARD leaves the queue; the rest of it stays right. */
  lemma {:induction false} AnsweredRequests(w: World, v: World, base: nat, s: nat)
    requires InTx(w, base) && w.p.inbox != [] && Asks(w.p.inbox[0]) && w.p.inbox[0].sid == s
    requires OthersSame(w, v, s) && v.p.inbox == w.p.inbox[1..] && v.c.lastQid == w.c.lastQid
    requires v.c.streams[s].attached && base <= s && (v.c.curr == None || v.c.curr == w.c.curr)
    requires v.hist == w.hist && v.p.inTx == w.p.inTx
    ensures Requests(v, base) && Opening(v, base) && Begun(v)
  {
    forall i | 0 <= i < |v.p.inbox| ensures RequestOk(v, base, i) {
      assert RequestOk(w, base, i + 1);
      if Asks(v.p.inbox[i]) { assert v.p.inbox[i] == w.p.inbox[i + 1]; assert v.p.inbox[i].sid != s; }
      if v.p.inbox[i].Run? { assert v.p.inbox[i + 1] == w.p.inbox[i + 2]; }
    }
    forall i, j | 0 <= i < j < |v.p.inbox| && Asks(v.p.inbox[i]) && Asks(v.p.inbox[j])
      ensures v.p.inbox[i].sid != v.p.inbox[j].sid
    {
      assert v.p.inbox[i] == w.p.inbox[i + 1] && v.p.inbox[j] == w.p.inbox[j + 1];
    }
    forall t | base <= t < |v.c.streams| && !v.c.streams[t].attached
      ensures |v.p.inbox| >= 2 && v.p.inbox[|v.p.inbox| - 2] == Run(t)
    {
      assert |w.p.inbox| > 2;
    }
  }

  /** After its answer, a stream still in the queue is another one. */
  lemma {:induction false} AnsweredProgress(w: World, v: World, base: nat, s: nat)
    requires InTx(w, base) && w.p.inbox != [] && Asks(w.p.inbox[0]) && w.p.inbox[0].sid == s
    requires OthersSame(w, v, s) && v.p.inbox == w.p.inbox[1..]
    requires (v.c.streams[s].endOfBatch && v.c.streams[s].key == w.c.key) || !Live(v.c.streams[s])
    ensures Progressing(v, base)
  {
    forall t | base <= t < |v.c.streams| && Live(v.c.streams[t])
      ensures v.c.streams[t].key == v.c.key && (InFlight(v, t) || v.c.streams[t].endOfBatch)
    {
      if t != s && InFlight(w, t) {
        var i :| 0 <= i < |w.p.inbox| && Asks(w.p.inbox[i]) && w.p.inbox[i].sid == t;
        assert v.p.inbox[i - 1] == w.p.inbox[i];
      }
    }
  }

  /** SUCCESS with more to come: the batch has ended and the stream waits to be asked again. */
  lemma {:induction false} BatchEnds(w: World, base: nat, ch: Choice)
    requires InTx(w, base) && Available(w.p, ch) && ch.msg.Success? && Asks(w.p.inbox[0]) && ch.msg.hasMore
    ensures InTx(Delivered(w, ch).0, base) && Delivered(w, ch).1
    ensures var v := Delivered(w, ch).0;
            w.p.inbox[0].sid < |v.c.streams| && v.c.num == w.c.num && v.c.st == w.c.st && v.c.curr == w.c.curr
  {
    ReachesItsQuery(w, base);
    WiredInRange(w);
    DeliveredPaired(w, ch);
    DeliveredKeepsAll(w, ch);
    var v := Delivered(w, ch).0;
    var s := w.p.inbox[0].sid;
    assert w.p.inbox[0].Pull?;
    AnsweredRequests(w, v, base, s);
    AnsweredProgress(w, v, base, s);
    assert LiveSet(v.c, base) == LiveSet(w.c, base);
  }

  /** The final SUCCESS: the stream is finished and leaves the open ones. */
  lemma {:induction false} EndForm(w: World, base: nat, ch: Choice)
    requires InTx(w, base) && Available(w.p, ch) && ch.msg.Success? && Asks(w.p.inbox[0]) && !ch.msg.hasMore
    ensures var v := Delivered(w, ch).0;
            var s := w.p.inbox[0].sid;
            && base <= s < |w.c.streams| && Delivered(w, ch).1
            && OthersSame(w, v, s) && v.p.inbox == w.p.inbox[1..] && v.hist == w.hist
            && v.c.streams[s].attached && v.c.streams[s].sum && v.c.streams[s].qid == w.c.streams[s].qid
            && v.c.streams[s].discarding == w.c.streams[s].discarding
            && v.c.num == w.c.num - 1 && v.c.curr == (if w.c.curr == Some(s) then None else w.c.curr)
            && v.c.lastQid == w.c.lastQid && v.c.st == (if w.c.num <= 1 then Tx else w.c.st)
            && v.c.err == w.c.err && v.c.queueErr == w.c.queueErr && v.hung == w.hung
            && v.p == w.p.(inbox := w.p.inbox[1..],
                           open := if w.p.inbox[0].Pull? then w.p.open else w.p.open[w.c.streams[s].qid := []])
            && (w.p.inbox[0].Pull? ==> w.p.open[w.c.streams[s].qid] == [])
            && (w.p.inbox[0].Discard? ==> w.c.streams[s].discarding && v.c.streams[s].fifo == w.c.streams[s].fifo)
            && (w.p.inbox[0].Pull? && w.c.streams[s].discarding ==> v.c.streams[s].fifo == [])
  {
    ReachesItsQuery(w, base);
    WiredInRange(w);
    assert RequestOk(w, base, 0);
  }

  lemma {:induction false} EndKeepsRows(w: World, base: nat, ch: Choice)
    requires InTx(w, base) && Available(w.p, ch) && ch.msg.Success? && Asks(w.p.inbox[0]) && !ch.msg.hasMore
    ensures RowsKept(Delivered(w, ch).0, base) && Numbered(Delivered(w, ch).0, base)
  {
    EndForm(w, base, ch);
    var v := Delivered(w, ch).0;
    var s := w.p.inbox[0].sid;
    ReachesItsQuery(w, base);
    forall t | base <= t < |v.c.streams| && v.c.streams[t].attached && !v.c.streams[t].discarding
      ensures && v.c.streams[t].qid in v.p.open
              && v.hist[t].sent + v.p.open[v.c.streams[t].qid] == v.hist[t].rows
              && (v.c.streams[t].sum ==> v.p.open[v.c.streams[t].qid] == [])
    {
      assert t != s ==> w.c.streams[t].qid != w.c.streams[s].qid;
    }
  }

  lemma {:induction false} EndKeepsCount(w: World, base: nat, ch: Choice)
    requires InTx(w, base) && Available(w.p, ch) && ch.msg.Success? && Asks(w.p.inbox[0]) && !ch.msg.hasMore
    ensures Counted(Delivered(w, ch).0, base)
  {
    EndForm(w, base, ch);
    ReachesItsQuery(w, base);
    var v := Delivered(w, ch).0;
    var s := w.p.inbox[0].sid;
    assert s in LiveSet(w.c, base);
    assert LiveSet(v.c, base) == LiveSet(w.c, base) - {s};
  }

  lemma {:induction false} StreamEnds(w: World, base: nat, ch: Choice)
    requires InTx(w, base) && Available(w.p, ch) && ch.msg.Success? && Asks(w.p.inbox[0]) && !ch.msg.hasMore
    ensures InTx(Delivered(w, ch).0, base) && Delivered(w, ch).1
  {
    EndForm(w, base, ch);
    EndKeepsRows(w, base, ch);
    EndKeepsCount(w, base, ch);
    DeliveredPaired(w, ch);
    DeliveredKeepsAll(w, ch);
    var v := Delivered(w, ch).0;
    var s := w.p.inbox[0].sid;
    AnsweredRequests(w, v, base, s);
    AnsweredProgress(w, v, base, s);
  }

  /** BEGIN, or another request that only needs acknowledging, is answered. */
  lemma {:induction false} PlainAnswered(w: World, base: nat, ch: Choice)
    requires InTx(w, base) && Available(w.p, ch) && ch.msg.Success? && (w.p.inbox[0] == Begin || w.p.inbox[0] == Other)
    ensures InTx(Delivered(w, ch).0, base) && Delivered(w, ch).1
    ensures var v := Delivered(w, ch).0;
            v.c == w.c.(handlers := w.c.handlers[1..]) && v.p.inbox == w.p.inbox[1..]
  {
    WiredInRange(w);
    DeliveredPaired(w, ch);
    DeliveredKeepsAll(w, ch);
    var v := Delivered(w, ch).0;
    PlainRequests(w, v, base);
    forall t | base <= t < |v.c.streams| && Live(v.c.streams[t])
      ensures InFlight(v, t) || v.c.streams[t].endOfBatch
    {
      if InFlight(w, t) {
        var i :| 0 <= i < |w.p.inbox| && Asks(w.p.inbox[i]) && w.p.inbox[i].sid == t;
        assert v.p.inbox[i - 1] == w.p.inbox[i];
      }
    }
    assert LiveSet(v.c, base) == LiveSet(w.c, base);
  }

  lemma {:induction false} PlainRequests(w: World, v: World, base: nat)
    requires InTx(w, base) && w.p.inbox != [] && (w.p.inbox[0] == Begin || w.p.inbox[0] == Other)
    requires v.c == w.c.(handlers := w.c.handlers[1..]) && v.p.inbox == w.p.inbox[1..] && v.hist == w.hist
    requires v.p.inTx == (w.p.inTx || w.p.inbox[0] == Begin)
    ensures Requests(v, base) && Opening(v, base) && Begun(v)
  {
    forall i | 0 <= i < |v.p.inbox| ensures RequestOk(v, base, i) {
      assert RequestOk(w, base, i + 1);
      if v.p.inbox[i].Run? { assert v.p.inbox[i + 1] == w.p.inbox[i + 2]; }
    }
    forall i, j | 0 <= i < j < |v.p.inbox| && Asks(v.p.inbox[i]) && Asks(v.p.inbox[j])
      ensures v.p.inbox[i].sid != v.p.inbox[j].sid
    {
      assert v.p.inbox[i] == w.p.inbox[i + 1] && v.p.inbox[j] == w.p.inbox[j + 1];
    }
    forall t | base <= t < |v.c.streams| && !v.c.streams[t].attached
      ensures |v.p.inbox| >= 2 && v.p.inbox[|v.p.inbox| - 2] == Run(t)
    {
      assert |w.p.inbox| > 2;
    }
    if !w.p.inTx {
      var b :| 0 <= b < |w.p.inbox| && w.p.inbox[b] == Begin
           && forall i :: 0 <= i < |w.p.inbox| && i != b ==> w.p.inbox[i] != Begin && (i < b ==> w.p.inbox[i] == Other);
      if w.p.inbox[0] == Begin {
        assert b == 0;
      } else {
        assert v.p.inbox[b - 1] == Begin;
      }
    }
  }

  /** RUN is answered: the stream is attached, counted and made current, and its query is the latest. */
  lemma {:induction false} RunForm(w: World, base: nat, ch: Choice)
    requires InTx(w, base) && Available(w.p, ch) && ch.msg.Success? && w.p.inbox[0].Run?
    ensures var s := w.p.inbox[0].sid;
            var q := ch.msg.qid;
            && base <= s && s + 1 == |w.c.streams| && |w.p.inbox| == 2 && w.p.inbox[1].Pull? && w.p.inbox[1].sid == s
            && w.p.inTx && q >= 0 && q !in w.p.used && w.c.curr == None && w.hist[s].sent == []
            && w.p.inbox[1].qid == None
            && !w.c.streams[s].attached && !w.c.streams[s].sum && !w.c.streams[s].err && !w.c.streams[s].endOfBatch
            && Delivered(w, ch) ==
               (w.(c := w.c.(streams := w.c.streams[s := w.c.streams[s].(attached := true, qid := q, key := w.c.key)],
                             lastQid := q, num := w.c.num + 1, curr := Some(s), handlers := w.c.handlers[1..]),
                   p := w.p.(inbox := w.p.inbox[1..], latest := q, used := w.p.used + {q}, open := w.p.open[q := ch.rows]),
                   hist := w.hist[s := w.hist[s].(rows := ch.rows)]), true)
  {
    WiredInRange(w);
    assert RequestOk(w, base, 0);
    assert RequestOk(w, base, 1);
    var s, q := w.p.inbox[0].sid, ch.msg.qid;
    assert w.p.inTx;
    var x := w.c.streams[s].(attached := true, qid := q);
    assert w.c.streams[s := x][s := x.(key := w.c.key)] == w.c.streams[s := x.(key := w.c.key)];
  }

  lemma {:induction false} RunKeepsProgress(w: World, base: nat, ch: Choice)
    requires InTx(w, base) && Available(w.p, ch) && ch.msg.Success? && w.p.inbox[0].Run?
    ensures Progressing(Delivered(w, ch).0, base)
  {
    RunForm(w, base, ch);
    var v := Delivered(w, ch).0;
    var s := w.p.inbox[0].sid;
    assert v.p.inbox == [w.p.inbox[1]];
    forall t | base <= t < |v.c.streams| && Live(v.c.streams[t])
      ensures v.c.streams[t].key == v.c.key && (InFlight(v, t) || v.c.streams[t].endOfBatch)
    {
      if t == s {
        assert Asks(v.p.inbox[0]) && v.p.inbox[0].sid == s;
      } else {
        assert !InFlight(w, t);
      }
    }
  }

  lemma {:induction false} RunKeepsRequests(w: World, base: nat, ch: Choice)
    requires InTx(w, base) && Available(w.p, ch) && ch.msg.Success? && w.p.inbox[0].Run?
    ensures var v := Delivered(w, ch).0; Requests(v, base) && Opening(v, base) && Begun(v)
  {
    RunForm(w, base, ch);
    var v := Delivered(w, ch).0;
    assert v.p.inbox == [w.p.inbox[1]];
    assert Live(v.c.streams[w.p.inbox[1].sid]);
    assert RequestOk(v, base, 0);
  }

  lemma {:induction false} RunKeepsCount(w: World, base: nat, ch: Choice)
    requires InTx(w, base) && Available(w.p, ch) && ch.msg.Success? && w.p.inbox[0].Run?
    ensures Counted(Delivered(w, ch).0, base)
  {
    RunForm(w, base, ch);
    LiveJoins(w.c, Delivered(w, ch).0.c, base, w.p.inbox[0].sid);
  }

  lemma {:induction false} LiveJoins(c: Conn, d: Conn, base: nat, s: nat)
    requires base <= s < |c.streams| == |d.streams| && !Live(c.streams[s]) && Live(d.streams[s])
    requires forall t :: 0 <= t < |c.streams| && t != s ==> d.streams[t] == c.streams[t]
    ensures LiveSet(d, base) == LiveSet(c, base) + {s} && |LiveSet(d, base)| == |LiveSet(c, base)| + 1
  {
    assert s !in LiveSet(c, base);
    assert LiveSet(d, base) == LiveSet(c, base) + {s};
  }

  lemma {:induction false} RunAnswered(w: World, base: nat, ch: Choice)
    requires InTx(w, base) && Available(w.p, ch) && ch.msg.Success? && w.p.inbox[0].Run?
    ensures InTx(Delivered(w, ch).0, base) && Delivered(w, ch).1
  {
    RunForm(w, base, ch);
    DeliveredPaired(w, ch);
    DeliveredKeepsAll(w, ch);
    RunKeepsRows(w, base, ch);
    RunKeepsProgress(w, base, ch);
    RunKeepsRequests(w, base, ch);
    RunKeepsCount(w, base, ch);
  }

  lemma {:induction false} RunKeepsRows(w: World, base: nat, ch: Choice)
    requires InTx(w, base) && Available(w.p, ch) && ch.msg.Success? && w.p.inbox[0].Run?
    ensures RowsKept(Delivered(w, ch).0, base) && Numbered(Delivered(w, ch).0, base)
  {
    RunForm(w, base, ch);
    var v := Delivered(w, ch).0;
    var s := w.p.inbox[0].sid;
    forall t | base <= t < |v.c.streams| && v.c.streams[t].attached && !v.c.streams[t].discarding
      ensures && v.c.streams[t].qid in v.p.open
              && v.hist[t].sent + v.p.open[v.c.streams[t].qid] == v.hist[t].rows
              && (v.c.streams[t].sum ==> v.p.open[v.c.streams[t].qid] == [])
    {
      if t == s {
        assert v.hist[s].sent + ch.rows == [] + ch.rows == ch.rows;
        assert !w.c.streams[s].sum;
      } else {
        assert w.c.streams[t].qid in w.p.used;
      }
    }
  }

  // ---------------------------------------------------------------------------------------------
  // Between calls
  // ---------------------------------------------------------------------------------------------

  /** A stream with an answer to come is not also marked as waiting to be asked; `busy` is exempt. */
  predicate Settled(w: World, base: nat, busy: int)
  {
    forall s :: base <= s < |w.c.streams| && s != busy && Live(w.c.streams[s]) && InFlight(w, s) ==>
      !w.c.streams[s].endOfBatch
  }

  predicate Agrees(w: World)
  {
    w.c.st == StreamingTx <==> w.c.num > 0
  }

  predicate AllAttached(w: World, base: nat)
  {
    forall s :: base <= s < |w.c.streams| ==> w.c.streams[s].attached
  }

  /** What a receive leaves alone. */
  predicate Frame(w: World, v: World)
  {
    && |v.c.streams| == |w.c.streams| && v.c.key == w.c.key && v.c.txId == w.c.txId && v.hung == w.hung
    && (v.c.curr == None || v.c.curr == w.c.curr)
    && (forall s :: 0 <= s < |w.c.streams| ==> v.c.streams[s].discarding == w.c.streams[s].discarding)
    && (forall s :: 0 <= s < |w.c.streams| ==> v.c.streams[s].attached == w.c.streams[s].attached)
    && (forall s :: 0 <= s < |w.c.streams| && !InFlight(w, s) && w.c.streams[s].attached ==>
          v.c.streams[s] == w.c.streams[s] && !InFlight(v, s))
  }

  lemma {:induction false} FrameTrans(u: World, w: World, v: World)
    requires Frame(u, w) && Frame(w, v)
    ensures Frame(u, v)
  {
  }

  /** A suffix of the queue asks for no stream the whole did not ask for. */
  lemma {:induction false} SuffixInFlight(w: World, v: World, s: nat)
    requires v.p.inbox == w.p.inbox || (w.p.inbox != [] && v.p.inbox == w.p.inbox[1..])
    ensures InFlight(v, s) ==> InFlight(w, s)
  {
    if i :| 0 <= i < |v.p.inbox| && Asks(v.p.inbox[i]) && v.p.inbox[i].sid == s {
      var j := if v.p.inbox == w.p.inbox then i else i + 1;
      assert w.p.inbox[j] == v.p.inbox[i];
    }
  }

  lemma {:induction false} DeliveredInTx(w: World, base: nat, ch: Choice)
    requires InTx(w, base) && Available(w.p, ch) && (ch.msg.RecordMsg? || ch.msg.Success?)
    ensures InTx(Delivered(w, ch).0, base) && Delivered(w, ch).1
  {
    assert RequestOk(w, base, 0);
    if ch.msg.RecordMsg? { RecordArrives(w, base, ch); }
    else if Asks(w.p.inbox[0]) {
      if ch.msg.hasMore { BatchEnds(w, base, ch); } else { StreamEnds(w, base, ch); }
    }
    else if w.p.inbox[0].Run? { RunAnswered(w, base, ch); }
    else { PlainAnswered(w, base, ch); }
  }

  /** What an answer does to the streams, besides keeping the invariant. */
  lemma {:induction false} DeliveredEffect(w: World, base: nat, ch: Choice)
    requires InTx(w, base) && Available(w.p, ch) && (ch.msg.RecordMsg? || ch.msg.Success?)
    ensures var v := Delivered(w, ch).0;
            var r := w.p.inbox[0];
            && |v.c.streams| == |w.c.streams| && v.c.key == w.c.key && v.c.txId == w.c.txId && v.hung == w.hung
            && v.p.inbox == (if ch.msg.RecordMsg? then w.p.inbox else w.p.inbox[1..])
            && (!Asks(r) && !r.Run? ==> v.c == w.c.(handlers := w.c.handlers[1..]))
            && (Asks(r) ==> (v.c.curr == None || v.c.curr == w.c.curr))
            && (Asks(r) ==> v.c.st == (if v.c.num != w.c.num && w.c.num <= 1 then Tx else w.c.st))
            && (Asks(r) ==> v.c.num <= w.c.num)
            && (Asks(r) ==> r.sid < |w.c.streams| && v.c.streams[r.sid].attached == w.c.streams[r.sid].attached)
            && (Asks(r) ==> r.sid < |w.c.streams| && v.c.streams[r.sid].discarding == w.c.streams[r.sid].discarding)
            && (ch.msg.RecordMsg? ==> r.sid < |w.c.streams| && v.c.streams[r.sid].endOfBatch == w.c.streams[r.sid].endOfBatch)
            && (Asks(r) ==> forall s :: 0 <= s < |w.c.streams| && s != r.sid ==> v.c.streams[s] == w.c.streams[s])
  {
    assert RequestOk(w, base, 0);
    WiredInRange(w);
    if ch.msg.RecordMsg? { RecordForm(w, base, ch); }
    else if Asks(w.p.inbox[0]) && !ch.msg.hasMore { EndForm(w, base, ch); }
    else if w.p.inbox[0].Run? { RunForm(w, base, ch); }
  }

  lemma {:induction false} DeliveredFrame(w: World, base: nat, ch: Choice)
    requires InTx(w, base) && Available(w.p, ch) && (ch.msg.RecordMsg? || ch.msg.Success?) && !w.p.inbox[0].Run?
    ensures Frame(w, Delivered(w, ch).0)
  {
    DeliveredEffect(w, base, ch);
    var v := Delivered(w, ch).0;
    assert RequestOk(w, base, 0);
    forall s | 0 <= s < |w.c.streams| && !InFlight(w, s) && w.c.streams[s].attached
      ensures v.c.streams[s] == w.c.streams[s] && !InFlight(v, s)
    {
      SuffixInFlight(w, v, s);
      if Asks(w.p.inbox[0]) { assert w.p.inbox[0].sid != s; }
    }
  }

  lemma {:induction false} DeliveredSettled(w: World, base: nat, ch: Choice, busy: int)
    requires InTx(w, base) && Available(w.p, ch) && (ch.msg.RecordMsg? || ch.msg.Success?)
    requires Settled(w, base, busy)
    ensures Settled(Delivered(w, ch).0, base, busy)
  {
    DeliveredInTx(w, base, ch);
    DeliveredEffect(w, base, ch);
    var v := Delivered(w, ch).0;
    var r := w.p.inbox[0];
    if r.Run? { RunForm(w, base, ch); }
    forall s | base <= s < |v.c.streams| && s != busy && Live(v.c.streams[s]) && InFlight(v, s)
      ensures !v.c.streams[s].endOfBatch
    {
      SuffixInFlight(w, v, s);
      assert !(ch.msg.Success? && Asks(r) && r.sid == s);
    }
  }

  /** One receive without failure, while no RUN is being answered. */
  lemma {:induction false} ReceiveInTx(w: World, base: nat, busy: int)
    requires InTx(w, base) && Settled(w, base, busy) && Receive(w).1
    ensures var v := Receive(w).0;
            && InTx(v, base) && Settled(v, base, busy) && w.p.inbox != []
            && (!w.p.inbox[0].Run? && Agrees(w) ==> Agrees(v))
            && (!w.p.inbox[0].Run? ==> Frame(w, v))
            && (w.p.inbox[0].Run? ==> |v.c.streams| == |w.c.streams| == w.p.inbox[0].sid + 1 && v.c.txId == w.c.txId
                                      && v.c.streams[|w.c.streams| - 1].attached && v.c.num > 0)
  {
    FailureFreeMessage(w, base);
    var u := w.(choices := w.choices[1..]);
    assert InTx(u, base) by { SameButChoices(w, u, base); }
    assert Settled(u, base, busy) by { assert forall s :: InFlight(u, s) == InFlight(w, s); }
    var ch := w.choices[0];
    DeliveredInTx(u, base, ch);
    DeliveredEffect(u, base, ch);
    DeliveredSettled(u, base, ch, busy);
    if w.p.inbox[0].Run? {
      RunForm(u, base, ch);
    } else {
      DeliveredFrame(u, base, ch);
      assert forall s :: InFlight(u, s) == InFlight(w, s);
    }
  }

  lemma {:induction false} SameButChoices(w: World, u: World, base: nat)
    requires InTx(w, base) && u == w.(choices := u.choices)
    ensures InTx(u, base)
  {
    assert forall i :: 0 <= i < |u.p.inbox| ==> RequestOk(w, base, i) ==> RequestOk(u, base, i);
    assert forall s :: InFlight(u, s) == InFlight(w, s);
  }

  lemma {:induction false} NoRunWhenAttached(w: World, base: nat)
    requires InTx(w, base) && AllAttached(w, base)
    ensures forall i :: 0 <= i < |w.p.inbox| ==> !w.p.inbox[i].Run?
  {
    forall i | 0 <= i < |w.p.inbox| ensures !w.p.inbox[i].Run? { assert RequestOk(w, base, i); }
  }

  lemma {:induction false} ReceiveAllInTx(w: World, base: nat, busy: int)
    requires InTx(w, base) && Settled(w, base, busy) && Agrees(w) && AllAttached(w, base)
    requires !ReceiveAll(w).0.c.err
    ensures var v := ReceiveAll(w).0;
            && ReceiveAll(w).1 && InTx(v, base) && Settled(v, base, busy) && Agrees(v) && AllAttached(v, base)
            && v.p.inbox == [] && Frame(w, v)
    decreases |w.choices|
  {
    if w.c.handlers == [] {
    } else {
      FailureFreeMessage(w, base);
      NoRunWhenAttached(w, base);
      ReceiveInTx(w, base, busy);
      var w1 := Receive(w).0;
      ReceiveAllInTx(w1, base, busy);
      FrameTrans(w, w1, ReceiveAll(w).0);
    }
  }

  /** With nothing left to answer, a live stream has reached the end of a batch. */
  lemma {:induction false} QuietMeansEndOfBatch(w: World, base: nat, s: nat)
    requires InTx(w, base) && w.p.inbox == [] && base <= s < |w.c.streams| && Live(w.c.streams[s])
    ensures w.c.streams[s].endOfBatch && !InFlight(w, s)
  {
  }

  // ---------------------------------------------------------------------------------------------
  // Asking for more
  // ---------------------------------------------------------------------------------------------

  /** A live stream that may be asked: nothing of it is in flight, and no RUN is. */
  predicate MayAsk(w: World, base: nat, s: nat)
  {
    && InTx(w, base) && Agrees(w) && AllAttached(w, base)
    && base <= s < |w.c.streams| && Live(w.c.streams[s]) && !InFlight(w, s)
  }

  lemma {:induction false} LiveMeansStreaming(w: World, base: nat, s: nat)
    requires InTx(w, base) && Agrees(w) && base <= s < |w.c.streams| && Live(w.c.streams[s])
    ensures w.c.st == StreamingTx && w.c.num > 0
  {
    assert s in LiveSet(w.c, base);
  }

  lemma {:induction false} AskKeepsRequests(w: World, base: nat, r: Request, s: nat)
    requires MayAsk(w, base, s) && Asks(r) && r.sid == s && r.qid == WireQid(w.c, s)
    requires r.Discard? ==> w.c.streams[s].discarding
    ensures var v := Append(w, r); Requests(v, base) && Opening(v, base) && Begun(v)
  {
    LiveMeansStreaming(w, base, s);
    NoRunWhenAttached(w, base);
    var v := Append(w, r);
    forall i | 0 <= i < |v.p.inbox| ensures RequestOk(v, base, i) {
      if i < |w.p.inbox| { assert RequestOk(w, base, i); }
    }
  }

  lemma {:induction false} AskAppended(w: World, base: nat, r: Request, s: nat)
    requires MayAsk(w, base, s) && Asks(r) && r.sid == s && r.qid == WireQid(w.c, s)
    requires r.Discard? ==> w.c.streams[s].discarding
    ensures var v := Append(w, r);
            && InTx(v, base) && Agrees(v) && AllAttached(v, base) && InFlight(v, s)
            && (forall t :: t != s ==> InFlight(v, t) == InFlight(w, t))
  {
    AskKeepsRequests(w, base, r, s);
    var v := Append(w, r);
    assert v.p.inbox[|w.p.inbox|] == r;
    forall t | t != s ensures InFlight(v, t) == InFlight(w, t) {
      if InFlight(w, t) {
        var i :| 0 <= i < |w.p.inbox| && Asks(w.p.inbox[i]) && w.p.inbox[i].sid == t;
        assert v.p.inbox[i] == w.p.inbox[i];
      }
    }
    assert LiveSet(v.c, base) == LiveSet(w.c, base);
  }

  /** Changes to a stream that none of the clauses look at. */
  predicate Retuned(x: Stream, y: Stream)
  {
    y == x.(fetchSize := y.fetchSize, discarding := y.discarding) && (x.discarding ==> y.discarding)
  }

  lemma {:induction false} RetunedInTx(w: World, base: nat, s: nat, y: Stream)
    requires InTx(w, base) && base <= s < |w.c.streams| && w.c.streams[s].attached && Retuned(w.c.streams[s], y)
    ensures InTx(SetStream(w, s, y), base)
    ensures forall t :: InFlight(SetStream(w, s, y), t) == InFlight(w, t)
  {
    var v := SetStream(w, s, y);
    forall i | 0 <= i < |v.p.inbox| ensures RequestOk(v, base, i) { assert RequestOk(w, base, i); }
    assert forall t :: InFlight(v, t) == InFlight(w, t);
    assert LiveSet(v.c, base) == LiveSet(w.c, base);
  }

  lemma {:induction false} SentInTx(w: World, base: nat)
    requires InTx(w, base) && !Send(w).c.err
    ensures Send(w) == w.(p := w.p.(unsent := 0)) && InTx(Send(w), base)
    ensures forall t :: InFlight(Send(w), t) == InFlight(w, t)
  {
    var v := Send(w);
    forall i | 0 <= i < |v.p.inbox| ensures RequestOk(v, base, i) { assert RequestOk(w, base, i); }
    assert forall t :: InFlight(v, t) == InFlight(w, t);
  }

  /** Between two calls of a transaction. */
  predicate Boundary(w: World, base: nat)
  {
    InTx(w, base) && Settled(w, base, -1) && Agrees(w) && AllAttached(w, base)
  }

  /** Retune stream `s`, then ask for it and send: the shape shared by every PULL and DISCARD. */
  lemma {:induction false} AskSent(w: World, base: nat, s: nat, y: Stream, r: Request)
    requires MayAsk(w, base, s) && Settled(w, base, -1) && Retuned(w.c.streams[s], y)
    requires Asks(r) && r.sid == s && r.qid == WireQid(w.c, s) && (r.Discard? ==> y.discarding)
    requires !Send(Append(SetStream(w, s, y), r)).c.err
    ensures var v := Send(Append(SetStream(w, s, y), r));
            && InTx(v, base) && Settled(v, base, s) && Agrees(v) && AllAttached(v, base) && Live(v.c.streams[s])
            && InFlight(v, s) && v.p.inbox == w.p.inbox + [r] && v.c == w.c.(handlers := v.c.handlers, streams := v.c.streams)
            && v.c.streams == w.c.streams[s := y] && v.hung == w.hung && v.hist == w.hist
            && (forall t :: t != s ==> InFlight(v, t) == InFlight(w, t))
  {
    RetunedInTx(w, base, s, y);
    var u := SetStream(w, s, y);
    assert WireQid(u.c, s) == WireQid(w.c, s);
    AskAppended(u, base, r, s);
    SentInTx(Append(u, r), base);
    var v := Send(Append(u, r));
    assert forall t :: t != s ==> InFlight(v, t) == InFlight(w, t);
  }

  lemma {:induction false} PullSent(w: World, base: nat, s: nat, y: Stream)
    requires MayAsk(w, base, s) && Settled(w, base, -1) && Retuned(w.c.streams[s], y)
    requires !Send(AppendPull(SetStream(w, s, y), s)).c.err
    ensures var v := Send(AppendPull(SetStream(w, s, y), s));
            && InTx(v, base) && Settled(v, base, s) && Agrees(v) && AllAttached(v, base) && Live(v.c.streams[s])
            && InFlight(v, s) && v.c.handlers != [] && v.c.streams == w.c.streams[s := y]
            && v.c == w.c.(handlers := v.c.handlers, streams := v.c.streams) && v.hung == w.hung && v.hist == w.hist
            && (forall t :: t != s ==> InFlight(v, t) == InFlight(w, t))
  {
    LiveMeansStreaming(w, base, s);
    var u := SetStream(w, s, y);
    var r := Pull(y.fetchSize, WireQid(u.c, s), s);
    assert AppendPull(u, s) == Append(u, r);
    AskSent(w, base, s, y, r);
  }

  // ---------------------------------------------------------------------------------------------
  // The calls
  // ---------------------------------------------------------------------------------------------

  lemma {:induction false} PauseInTx(w: World, base: nat)
    requires Boundary(w, base) && !PauseStream(w).c.err
    ensures var v := PauseStream(w);
            Boundary(v, base) && v.c.curr == None && Frame(w, v)
  {
    if w.c.curr.Some? {
      ReceiveAllInTx(w, base, -1);
      var w1 := ReceiveAll(w).0;
      var s := w.c.curr.value;
      if Live(w1.c.streams[s]) {
        QuietMeansEndOfBatch(w1, base, s);
      }
      var v := PauseStream(w);
      assert v.c.curr == None;
      assert v == w1.(c := w1.c.(curr := None));
      UncurrentInTx(w1, base);
    }
  }

  lemma {:induction false} UncurrentInTx(w: World, base: nat)
    requires InTx(w, base) && AllAttached(w, base)
    ensures var v := w.(c := w.c.(curr := None)); InTx(v, base) && forall t :: InFlight(v, t) == InFlight(w, t)
  {
    var v := w.(c := w.c.(curr := None));
    forall i | 0 <= i < |v.p.inbox| ensures RequestOk(v, base, i) { assert RequestOk(w, base, i); }
    assert forall t :: InFlight(v, t) == InFlight(w, t);
    assert LiveSet(v.c, base) == LiveSet(w.c, base);
  }

  /** Buffering the rest of a stream ends with its summary and never spins. */
  lemma {:induction false} BufferLoopInTx(w: World, base: nat, s: nat)
    requires InTx(w, base) && Settled(w, base, s) && Agrees(w) && AllAttached(w, base)
    requires base <= s < |w.c.streams| && !BufferLoop(w, s).c.err
    ensures var v := BufferLoop(w, s);
            Boundary(v, base) && v.c.streams[s].sum && |v.c.streams| == |w.c.streams| && v.c.txId == w.c.txId
    decreases |w.choices|, if w.c.handlers == [] then 1 else 0
  {
    ReceiveAllInTx(w, base, s);
    var w1 := ReceiveAll(w).0;
    var x := w1.c.streams[s];
    if Live(x) {
      QuietMeansEndOfBatch(w1, base, s);
      LiveMeansStreaming(w1, base, s);
      assert Settled(w1, base, -1);
      var y := x.(fetchSize := -1);
      PullSent(w1, base, s, y);
      var w2 := Send(AppendPull(SetStream(w1, s, y), s));
      assert BufferLoop(w, s) == BufferLoop(w2, s);
      BufferLoopInTx(w2, base, s);
    }
  }

  /** A lone DISCARD is answered by the end of its stream. */
  lemma {:induction false} LoneDiscardEnds(w: World, base: nat, s: nat)
    requires InTx(w, base) && Settled(w, base, s) && Agrees(w) && AllAttached(w, base)
    requires |w.p.inbox| == 1 && w.p.inbox[0].Discard? && w.p.inbox[0].sid == s && !ReceiveAll(w).0.c.err
    ensures s < |ReceiveAll(w).0.c.streams| && ReceiveAll(w).0.c.streams[s].sum
  {
    FailureFreeMessage(w, base);
    var u := w.(choices := w.choices[1..]);
    SameButChoices(w, u, base);
    EndForm(u, base, w.choices[0]);
    var w1 := Receive(w).0;
    assert w1.c.handlers == [];
    assert ReceiveAll(w) == ReceiveAll(w1) == (w1, true);
  }

  lemma {:induction false} DiscardSent(w: World, base: nat, s: nat)
    requires MayAsk(w, base, s) && Settled(w, base, s) && w.p.inbox == [] && w.c.streams[s].discarding
    requires !DiscardAsked(w, s).c.err
    ensures var v := DiscardAsked(w, s);
            && InTx(v, base) && Settled(v, base, s) && Agrees(v) && AllAttached(v, base)
            && |v.c.streams| == |w.c.streams| && v.c.streams[s].discarding && v.c.txId == w.c.txId && v.c.handlers != []
            && |v.p.inbox| == 1 && v.p.inbox[0].Discard? && v.p.inbox[0].sid == s
  {
    AskSent(w, base, s, w.c.streams[s].(fetchSize := -1), Discard(-1, WireQid(w.c, s), s));
  }

  lemma {:induction false} DiscardLoopInTx(w: World, base: nat, s: nat, discarded: bool)
    requires InTx(w, base) && Settled(w, base, s) && Agrees(w) && AllAttached(w, base)
    requires base <= s < |w.c.streams| && w.c.streams[s].discarding
    requires discarded ==> |w.p.inbox| == 1 && w.p.inbox[0].Discard? && w.p.inbox[0].sid == s
    requires !DiscardLoop(w, s, discarded).c.err
    ensures var v := DiscardLoop(w, s, discarded);
            Boundary(v, base) && v.c.streams[s].sum && |v.c.streams| == |w.c.streams| && v.c.txId == w.c.txId
    decreases |w.choices|, if discarded then 0 else 1
  {
    ReceiveAllInTx(w, base, s);
    var w1 := ReceiveAll(w).0;
    var x := w1.c.streams[s];
    if discarded { LoneDiscardEnds(w, base, s); }
    if Live(x) {
      QuietMeansEndOfBatch(w1, base, s);
      var w2 := DiscardAsked(w1, s);
      assert DiscardLoop(w, s, discarded) == DiscardLoop(w2, s, true);
      DiscardSent(w1, base, s);
      DiscardLoopInTx(w2, base, s, true);
    }
  }

  /** Switching to a stream with nothing in flight makes it current, with one PULL outstanding. */
  lemma {:induction false} SwitchInTx(w: World, base: nat, s: nat)
    requires Boundary(w, base) && base <= s < |w.c.streams| && Live(w.c.streams[s])
    requires (w.c.curr == Some(s) || !InFlight(w, s)) && SwitchTo(w, s).1 && !SwitchTo(w, s).0.c.err
    ensures var v := SwitchTo(w, s).0;
            && InTx(v, base) && Settled(v, base, s) && Agrees(v) && AllAttached(v, base)
            && |v.c.streams| == |w.c.streams| && v.c.curr == Some(s) && Live(v.c.streams[s]) && v.c.txId == w.c.txId
            && (w.c.curr != Some(s) ==> InFlight(v, s))
  {
    if w.c.curr != Some(s) {
      PauseInTx(w, base);
      var w1 := PauseStream(w);
      assert w1.c.streams[s] == w.c.streams[s] && !InFlight(w1, s);
      var w2 := w1.(c := w1.c.(curr := Some(s)));
      CurrentInTx(w1, base, s);
      assert SetStream(w2, s, w2.c.streams[s]) == w2;
      PullSent(w2, base, s, w2.c.streams[s]);
    }
  }

  lemma {:induction false} CurrentInTx(w: World, base: nat, s: nat)
    requires InTx(w, base) && AllAttached(w, base) && base <= s < |w.c.streams| && Live(w.c.streams[s])
    ensures var v := w.(c := w.c.(curr := Some(s))); InTx(v, base) && forall t :: InFlight(v, t) == InFlight(w, t)
  {
    var v := w.(c := w.c.(curr := Some(s)));
    forall i | 0 <= i < |v.p.inbox| ensures RequestOk(v, base, i) { assert RequestOk(w, base, i); }
    assert forall t :: InFlight(v, t) == InFlight(w, t);
    assert LiveSet(v.c, base) == LiveSet(w.c, base);
  }

  lemma {:induction false} DiscardInTx(w: World, base: nat, s: nat)
    requires InTx(w, base) && Settled(w, base, s) && Agrees(w) && AllAttached(w, base)
    requires base <= s < |w.c.streams| && w.c.curr == Some(s) && Live(w.c.streams[s]) && !DiscardStream(w).c.err
    ensures var v := DiscardStream(w);
            Boundary(v, base) && v.c.streams[s].sum && |v.c.streams| == |w.c.streams| && v.c.txId == w.c.txId
  {
    LiveMeansStreaming(w, base, s);
    var y := w.c.streams[s].(discarding := true);
    RetunedInTx(w, base, s, y);
    var u := SetStream(w, s, y);
    assert DiscardStream(w) == DiscardLoop(u, s, false);
    DiscardLoopInTx(u, base, s, false);
  }

  /** `Consume` on a stream that is current or has nothing in flight ends with its summary. */
  lemma {:induction false} ConsumeInTx(w: World, base: nat, s: nat)
    requires Boundary(w, base) && base <= s < |w.c.streams| && (w.c.curr == Some(s) || !InFlight(w, s))
    requires !Consume(w, s).0.c.err
    ensures Boundary(Consume(w, s).0, base) && Consume(w, s).1 == Summary && Consume(w, s).0.c.txId == w.c.txId
    ensures |Consume(w, s).0.c.streams| == |w.c.streams|
  {
    if Live(w.c.streams[s]) {
      LiveMeansStreaming(w, base, s);
      var w1 := SwitchTo(w, s).0;
      if w1.c.err { ErrSticksDiscard(w1); }
      SwitchInTx(w, base, s);
      DiscardInTx(w1, base, s);
    }
  }

  /** `Buffer` likewise, with every record left in the stream's buffer. */
  lemma {:induction false} BufferInTx(w: World, base: nat, s: nat)
    requires Boundary(w, base) && base <= s < |w.c.streams| && (w.c.curr == Some(s) || !InFlight(w, s))
    requires !Buffer(w, s).0.c.err
    ensures Boundary(Buffer(w, s).0, base) && Buffer(w, s).1 == Done && Buffer(w, s).0.c.txId == w.c.txId
    ensures |Buffer(w, s).0.c.streams| == |w.c.streams| && Buffer(w, s).0.c.streams[s].sum
    ensures var v := Buffer(w, s).0;
            !w.c.streams[s].discarding ==>
              !v.c.streams[s].discarding && w.hist[s].got + v.c.streams[s].fifo == v.hist[s].rows
  {
    if Live(w.c.streams[s]) {
      LiveMeansStreaming(w, base, s);
      var w1 := SwitchTo(w, s).0;
      if w1.c.err { ErrSticksBuffer(w1); }
      SwitchInTx(w, base, s);
      BufferLoopInTx(w1, base, s);
    }
    var v := Buffer(w, s).0;
    BufferCallQuiet(w, s);
    assert Got(v, s) == Got(w, s) && Discarding(v, s) == Discarding(w, s);
    if !w.c.streams[s].discarding { AllArrived(v, base, s); }
  }

  /** Of a finished stream the records returned and those buffered are all there are. */
  lemma {:induction false} AllArrived(w: World, base: nat, s: nat)
    requires InTx(w, base) && AllAttached(w, base) && base <= s < |w.c.streams|
    requires !w.c.streams[s].discarding && w.c.streams[s].sum
    ensures w.hist[s].got + w.c.streams[s].fifo == w.hist[s].rows
  {
    assert w.hist[s].sent + [] == w.hist[s].sent;
  }

  lemma {:induction false} TakenInTx(w: World, base: nat, s: nat)
    requires Boundary(w, base) && base <= s < |w.c.streams| && w.c.streams[s].fifo != []
    ensures Boundary(TakeRecord(w, s), base)
  {
    var v := TakeRecord(w, s);
    forall i | 0 <= i < |v.p.inbox| ensures RequestOk(v, base, i) { assert RequestOk(w, base, i); }
    assert forall t :: InFlight(v, t) == InFlight(w, t);
    assert LiveSet(v.c, base) == LiveSet(w.c, base);
  }

  lemma {:induction false} ClearedInTx(w: World, base: nat, s: nat)
    requires InTx(w, base) && Settled(w, base, s) && Agrees(w) && AllAttached(w, base)
    requires base <= s < |w.c.streams| && InFlight(w, s)
    ensures Boundary(SetStream(w, s, w.c.streams[s].(endOfBatch := false)), base)
  {
    var v := SetStream(w, s, w.c.streams[s].(endOfBatch := false));
    forall i | 0 <= i < |v.p.inbox| ensures RequestOk(v, base, i) { assert RequestOk(w, base, i); }
    assert forall t :: InFlight(v, t) == InFlight(w, t);
    assert LiveSet(v.c, base) == LiveSet(w.c, base);
  }

  /** Asking again and clearing the end-of-batch mark. */
  lemma {:induction false} PulledMoreInTx(w: World, base: nat, s: nat)
    requires Boundary(w, base) && base <= s < |w.c.streams| && Live(w.c.streams[s]) && !PullMore(w, s).c.err
    ensures var v := PullMore(w, s);
            Boundary(v, base) && v.c.handlers != [] && |v.c.streams| == |w.c.streams| && v.c.txId == w.c.txId && v.hist == w.hist
  {
    if w.c.streams[s].endOfBatch {
      assert SetStream(w, s, w.c.streams[s]) == w;
      PullSent(w, base, s, w.c.streams[s]);
      ClearedInTx(Send(AppendPull(w, s)), base, s);
    } else {
      assert InFlight(w, s);
    }
  }

  /**
   * `Next` on any stream of the transaction returns a record or the summary; it never finds that
   * there should have been more results to pull. The record it returns is the next one given out.
   */
  lemma {:induction false} NextInTx(w: World, base: nat, s: nat)
    requires Boundary(w, base) && base <= s < |w.c.streams| && !NextRecord(w, s).0.c.err
    ensures var (v, out) := NextRecord(w, s);
            && Boundary(v, base) && |v.c.streams| == |w.c.streams| && v.c.txId == w.c.txId
            && (out.Rec? || out == Summary)
            && (out == Summary ==> v.c.streams[s].sum && v.c.streams[s].fifo == [])
            && v.hist[s].got == w.hist[s].got + (if out.Rec? then [out.rec] else [])
    decreases |w.choices|
  {
    NextGives(w, s);
    assert Got(w, s) == w.hist[s].got;
    var x := w.c.streams[s];
    if x.fifo != [] {
      TakenInTx(w, base, s);
    } else if Live(x) {
      var w1 := PullMore(w, s);
      if !x.endOfBatch { assert w1 == w; }
      PulledMoreInTx(w, base, s);
      FailureFreeMessage(w1, base);
      NoRunWhenAttached(w1, base);
      ReceiveInTx(w1, base, -1);
      NextInTx(Receive(w1).0, base, s);
    }
  }

  lemma {:induction false} OpenedRequests(w: World, base: nat, fetchSize: int)
    requires Boundary(w, base) && w.c.curr == None && !Open(w, fetchSize).c.err
    ensures OpenedFrom(w, Open(w, fetchSize), fetchSize) && Requests(Open(w, fetchSize), base) && Begun(Open(w, fetchSize))
  {
    OpenedShape(w, base, fetchSize);
    OpenedRequestsOk(w, Open(w, fetchSize), base, fetchSize);
    OpenedBegun(w, Open(w, fetchSize), fetchSize);
  }

  /** What opening a stream adds, before anything is answered. */
  ghost predicate OpenedFrom(w: World, v: World, fetchSize: int)
  {
    && v.p.inbox == w.p.inbox + [Run(|w.c.streams|), Pull(fetchSize, None, |w.c.streams|)]
    && v.c.streams == w.c.streams + [NewStream(fetchSize)] && v.hist == w.hist + [History([], [], [])]
    && v.p == w.p.(inbox := v.p.inbox, unsent := 0)
    && v.c == w.c.(handlers := v.c.handlers, streams := v.c.streams) && v.hung == w.hung
  }

  lemma {:induction false} OpenedShape(w: World, base: nat, fetchSize: int)
    requires Boundary(w, base) && w.c.curr == None && !Open(w, fetchSize).c.err
    ensures OpenedFrom(w, Open(w, fetchSize), fetchSize)
  {
    assert Open(w, fetchSize).p.inbox == w.p.inbox + [Run(|w.c.streams|), Pull(fetchSize, None, |w.c.streams|)];
  }

  lemma {:induction false} OpenedRequestsOk(w: World, v: World, base: nat, fetchSize: int)
    requires Boundary(w, base) && w.c.curr == None && OpenedFrom(w, v, fetchSize)
    ensures Requests(v, base)
  {
    NoRunWhenAttached(w, base);
    var n := |w.p.inbox|;
    forall i | 0 <= i < |v.p.inbox| ensures RequestOk(v, base, i) {
      if i < n { assert RequestOk(w, base, i); assert v.p.inbox[i] == w.p.inbox[i]; }
    }
    forall i, j | 0 <= i < j < |v.p.inbox| && Asks(v.p.inbox[i]) && Asks(v.p.inbox[j])
      ensures v.p.inbox[i].sid != v.p.inbox[j].sid
    {
      assert RequestOk(w, base, i);
    }
  }

  lemma {:induction false} OpenedBegun(w: World, v: World, fetchSize: int)
    requires Begun(w) && OpenedFrom(w, v, fetchSize)
    ensures Begun(v)
  {
    if !w.p.inTx {
      var b :| 0 <= b < |w.p.inbox| && w.p.inbox[b] == Begin
           && forall i :: 0 <= i < |w.p.inbox| && i != b ==> w.p.inbox[i] != Begin && (i < b ==> w.p.inbox[i] == Other);
      assert v.p.inbox[b] == Begin;
    }
  }

  lemma {:induction false} OpenedInFlight(w: World, v: World, base: nat, t: nat)
    requires Boundary(w, base) && t < |w.c.streams| && |v.p.inbox| == |w.p.inbox| + 2
    requires v.p.inbox[..|w.p.inbox|] == w.p.inbox && v.p.inbox[|w.p.inbox|].Run?
    requires v.p.inbox[|w.p.inbox| + 1].Pull? && v.p.inbox[|w.p.inbox| + 1].sid == |w.c.streams|
    ensures InFlight(v, t) == InFlight(w, t)
  {
    if InFlight(w, t) {
      var i :| 0 <= i < |w.p.inbox| && Asks(w.p.inbox[i]) && w.p.inbox[i].sid == t;
      assert v.p.inbox[i] == w.p.inbox[i];
    }
    if InFlight(v, t) {
      var i :| 0 <= i < |v.p.inbox| && Asks(v.p.inbox[i]) && v.p.inbox[i].sid == t;
      assert w.p.inbox[i] == v.p.inbox[i];
    }
  }

  /** The new stream changes nothing for the others. */
  lemma {:induction false} OpenedOthers(w: World, base: nat, fetchSize: int)
    requires Boundary(w, base) && w.c.curr == None && !Open(w, fetchSize).c.err
    ensures var v := Open(w, fetchSize);
            Progressing(v, base) && Settled(v, base, -1) && Numbered(v, base) && Counted(v, base)
  {
    OpenedRequests(w, base, fetchSize);
    var v := Open(w, fetchSize);
    forall t | 0 <= t < |w.c.streams| ensures InFlight(v, t) == InFlight(w, t) {
      OpenedInFlight(w, v, base, t);
    }
    assert LiveSet(v.c, base) == LiveSet(w.c, base);
  }

  lemma {:induction false} OpenedInTx(w: World, base: nat, fetchSize: int)
    requires Boundary(w, base) && w.c.curr == None && !Open(w, fetchSize).c.err
    ensures var v := Open(w, fetchSize); InTx(v, base) && Settled(v, base, -1) && Agrees(v)
  {
    OpenedRequests(w, base, fetchSize);
    OpenedOthers(w, base, fetchSize);
  }

  /** Answers to earlier PULLs may come first; when RUN's comes, the new stream is attached. */
  lemma {:induction false} AwaitInTx(w: World, base: nat, s: nat)
    requires InTx(w, base) && Settled(w, base, -1) && s + 1 == |w.c.streams| && base <= s
    requires if w.c.streams[s].attached then w.c.num > 0 && AllAttached(w, base) else Agrees(w)
    requires !AwaitAttached(w, s).0.c.err
    ensures var (v, ok) := AwaitAttached(w, s);
            && ok && InTx(v, base) && Settled(v, base, -1) && AllAttached(v, base) && v.c.num > 0
            && |v.c.streams| == |w.c.streams| && v.c.txId == w.c.txId
    decreases |w.choices|
  {
    if !w.c.streams[s].attached {
      FailureFreeMessage(w, base);
      ReceiveInTx(w, base, -1);
      var w1 := Receive(w).0;
      assert w1.c.streams[s].attached ==> AllAttached(w1, base);
      AwaitInTx(w1, base, s);
    }
  }

  lemma {:induction false} PausedInTx(w: World, base: nat)
    requires Boundary(w, base) && !MakeRoom(w).c.err
    ensures var v := MakeRoom(w);
            Boundary(v, base) && v.c.curr == None && |v.c.streams| == |w.c.streams| && v.c.txId == w.c.txId
  {
    if w.c.st == StreamingTx {
      PauseInTx(w, base);
    }
  }

  lemma {:induction false} OpenedAndAwaited(w: World, base: nat, n: int)
    requires Boundary(w, base) && w.c.curr == None
    requires !Open(w, n).c.err && !AwaitAttached(Open(w, n), |w.c.streams|).0.c.err
    ensures var (v, ok) := AwaitAttached(Open(w, n), |w.c.streams|);
            && ok && Boundary(v.(c := v.c.(st := StreamingTx)), base) && (v.c.st == Tx || v.c.st == StreamingTx)
            && |v.c.streams| == |w.c.streams| + 1 && v.c.txId == w.c.txId
  {
    OpenedInTx(w, base, n);
    OpenedRequests(w, base, n);
    AwaitInTx(Open(w, n), base, |w.c.streams|);
    StreamingInTx(AwaitAttached(Open(w, n), |w.c.streams|).0, base);
  }

  /** Opening another stream pauses the current one; attaching finds none current. */
  lemma {:induction false} RunInTx(w: World, base: nat, fetchSize: int)
    requires Boundary(w, base) && !RunQuery(w, fetchSize).0.c.err
    ensures var (v, out) := RunQuery(w, fetchSize);
            && Boundary(v, base) && out == Done && |v.c.streams| == |w.c.streams| + 1 && v.c.txId == w.c.txId
  {
    PausedInTx(w, base);
    OpenedAndAwaited(MakeRoom(w), base, NormalizeFetchSize(fetchSize));
    var v := AwaitAttached(Open(MakeRoom(w), NormalizeFetchSize(fetchSize)), |w.c.streams|).0;
    if v.c.st == StreamingTx { assert v.(c := v.c.(st := StreamingTx)) == v; }
  }

  lemma {:induction false} StreamingInTx(w: World, base: nat)
    requires InTx(w, base) && Settled(w, base, -1) && AllAttached(w, base) && w.c.num > 0
    ensures Boundary(w.(c := w.c.(st := StreamingTx)), base)
  {
    var v := w.(c := w.c.(st := StreamingTx));
    forall i | 0 <= i < |v.p.inbox| ensures RequestOk(v, base, i) { assert RequestOk(w, base, i); }
    assert forall t :: InFlight(v, t) == InFlight(w, t);
    assert LiveSet(v.c, base) == LiveSet(w.c, base);
  }

  // ---------------------------------------------------------------------------------------------
  // Beginning and ending
  // ---------------------------------------------------------------------------------------------

  /** Ready for use: not in a transaction, and nothing but acknowledgements outstanding. */
  predicate Fresh(w: World)
  {
    && Wired(w) && w.c.st == Ready && !w.c.err && !w.c.queueErr && !w.hung
    && w.p.honest && !w.p.failed && !w.p.inTx
    && forall i :: 0 <= i < |w.p.inbox| ==> w.p.inbox[i] == Other
  }

  lemma {:induction false} HandleErr(c: Conn, h: Handler, m: Msg)
    requires InRange(c) && HandlerInRange(h, |c.streams|) && !c.err && !h.OnReset?
    ensures Handle(c, h, m).0.err == m.Failure? && Handle(c, h, m).0.queueErr == c.queueErr
    ensures Handle(c, h, m).1 == ((m.RecordMsg? && h.OnPull?) || m.Success? || m.Ignored?)
  {
    match m
    case Success(_, _) => match h { case _ => }
    case Failure(_) => match h { case _ => }
    case Ignored => match h { case _ => }
    case _ =>
  }

  lemma {:induction false} NoFailureSeen(w: World)
    requires Wired(w) && !w.c.err && !w.c.queueErr && !w.p.failed
    requires forall i :: 0 <= i < |w.p.inbox| ==> !w.p.inbox[i].Reset?
    ensures Receive(w).1 <==> !Receive(w).0.c.err
    ensures Receive(w).1 ==>
              && w.choices != [] && Available(w.p, w.choices[0]) && w.p.inbox != []
              && (w.choices[0].msg.RecordMsg? || w.choices[0].msg.Success?)
              && Receive(w) == Delivered(w.(choices := w.choices[1..]), w.choices[0])
              && !Receive(w).0.c.queueErr && !Receive(w).0.p.failed
  {
    WiredInRange(w);
    if w.choices != [] && Available(w.p, w.choices[0]) {
      HandleErr(w.c.(handlers := w.c.handlers[1..]), w.c.handlers[0], w.choices[0].msg);
    }
  }

  lemma {:induction false} PlainDrained(w: World)
    requires Wired(w) && !w.c.err && !w.c.queueErr && !w.p.failed && !ReceiveAll(w).0.c.err
    requires forall i :: 0 <= i < |w.p.inbox| ==> w.p.inbox[i] == Other || w.p.inbox[i] == Begin
    ensures var v := ReceiveAll(w).0;
            && v.c == w.c.(handlers := []) && v.hist == w.hist && v.p.inbox == [] && v.hung == w.hung
            && !v.p.failed && v.p.honest == w.p.honest && v.p.inTx == (w.p.inTx || Begin in w.p.inbox)
            && ReceiveAll(w).1
    decreases |w.choices|
  {
    if w.c.handlers == [] {
    } else {
      NoFailureSeen(w);
      WiredInRange(w);
      var w1 := Receive(w).0;
      assert w.c.handlers[0] == OnPlain;
      assert w1.c == w.c.(handlers := w.c.handlers[1..]) && w1.p.inbox == w.p.inbox[1..];
      assert w1.p.inTx == (w.p.inTx || w.p.inbox[0] == Begin);
      assert w.p.inbox == [w.p.inbox[0]] + w1.p.inbox;
      PlainDrained(w1);
    }
  }

  /** With no stream of its own yet, a transaction starts within the invariant. */
  lemma {:induction false} EmptyTx(w: World)
    requires Wired(w) && w.c.st == Tx && !w.c.err && !w.c.queueErr && !w.hung && w.p.honest && !w.p.failed
    requires w.c.num == 0 && w.c.curr == None && Begun(w)
    requires forall i :: 0 <= i < |w.p.inbox| ==> w.p.inbox[i] == Other || w.p.inbox[i] == Begin
    ensures Boundary(w, |w.c.streams|)
  {
    var base := |w.c.streams|;
    forall i | 0 <= i < |w.p.inbox| ensures RequestOk(w, base, i) {}
    assert LiveSet(w.c, base) == {};
  }

  /** BEGIN, awaited or pipelined, starts a transaction with no stream open. */
  lemma {:induction false} BeginInTx(w: World, id: nat, sync: bool)
    requires Fresh(w) && !TxBegin(w, id, sync).0.c.err
    ensures var (v, out) := TxBegin(w, id, sync);
            && out == Done && Boundary(v, |w.c.streams|) && |v.c.streams| == |w.c.streams| && v.c.txId == id
            && v.p.ended == w.p.ended && v.c.streams == w.c.streams && v.hist == w.hist
  {
    BeginQuiet(w, id, sync);
    var w3 := Append(w.(c := ResetStreams(w.c)), Begin);
    var v := TxBegin(w, id, sync).0;
    assert w3.p.inbox[|w.p.inbox|] == Begin;
    if sync {
      PlainDrained(Send(w3));
      assert v.p.inbox == [];
    } else {
      assert v.p.inbox == w.p.inbox + [Begin];
      assert forall i :: 0 <= i < |v.p.inbox| && i != |w.p.inbox| ==> v.p.inbox[i] == Other;
    }
    EmptyTx(v);
  }

  lemma {:induction false} AnsweredInbox(p: Peer, ch: Choice)
    requires Available(p, ch) && (ch.msg.RecordMsg? || ch.msg.Success?)
    ensures var q := Answered(p, ch);
            && q.inbox == (if ch.msg.RecordMsg? then p.inbox else p.inbox[1..]) && q.honest == p.honest
            && q.ended == (if ch.msg.Success? && Ends(p.inbox[0]) then p.ended + [p.inbox[0]] else p.ended)
            && (ch.msg.Success? && Ends(p.inbox[0]) ==> !q.inTx)
  {
  }

  /** No stream is current and none counts as open. */
  predicate NoneOpen(c: Conn)
  {
    c.curr == None && c.num <= 0
  }

  lemma {:induction false} NoneOpened(w: World)
    requires Wired(w) && !w.c.err && !w.c.queueErr && !w.p.failed && Receive(w).1 && NoneOpen(w.c)
    requires forall i :: 0 <= i < |w.p.inbox| ==> !w.p.inbox[i].Reset? && !w.p.inbox[i].Run?
    ensures NoneOpen(Receive(w).0.c)
  {
    NoFailureSeen(w);
    WiredInRange(w);
    ReceiveDelivers(w);
    assert !w.c.handlers[0].OnRun?;
  }

  /** Only the last of the outstanding requests ends the transaction. */
  predicate EndsLast(inbox: seq<Request>)
  {
    && inbox != [] && Ends(inbox[|inbox| - 1])
    && forall i :: 0 <= i < |inbox| - 1 ==> !Ends(inbox[i]) && !inbox[i].Reset? && !inbox[i].Run?
  }

  /** One more answer: either the end is still to come, or this was it. */
  lemma {:induction false} EndStep(w: World)
    requires Wired(w) && !w.c.err && !w.c.queueErr && !w.p.failed && Receive(w).1 && EndsLast(w.p.inbox) && NoneOpen(w.c)
    ensures var v := Receive(w).0; var k := w.p.inbox[|w.p.inbox| - 1];
            && !v.c.err && !v.c.queueErr && !v.p.failed && v.p.honest == w.p.honest && NoneOpen(v.c)
            && (if v.p.inbox == [] then v.p.ended == w.p.ended + [k] && !v.p.inTx
                else EndsLast(v.p.inbox) && v.p.inbox[|v.p.inbox| - 1] == k && v.p.ended == w.p.ended)
  {
    NoFailureSeen(w);
    NoneOpened(w);
    AnsweredInbox(w.p, w.choices[0]);
  }

  lemma {:induction false} EndDrained(w: World)
    requires Wired(w) && !w.c.err && !w.c.queueErr && !w.p.failed && !ReceiveAll(w).0.c.err
    requires EndsLast(w.p.inbox) && NoneOpen(w.c)
    ensures var v := ReceiveAll(w).0;
            && v.p.inbox == [] && !v.p.inTx && !v.p.failed && !v.c.queueErr && v.hung == w.hung && v.p.honest == w.p.honest
            && ReceiveAll(w).1 && NoneOpen(v.c)
    ensures ReceiveAll(w).0.p.ended == w.p.ended + [w.p.inbox[|w.p.inbox| - 1]]
    decreases |w.choices|
  {
    NoFailureSeen(w);
    EndStep(w);
    var w1 := Receive(w).0;
    if w1.p.inbox == [] {
      assert w1.c.handlers == [];
    } else {
      EndDrained(w1);
    }
  }

  lemma {:induction false} NoEndsInTx(w: World, base: nat)
    requires InTx(w, base)
    ensures NoEnds(w)
  {
    forall i | 0 <= i < |w.p.inbox| ensures !Ends(w.p.inbox[i]) { assert RequestOk(w, base, i); }
  }

  lemma {:induction false} DiscardAllInTx(w: World, base: nat)
    requires Boundary(w, base) && !DiscardAllStreams(w).c.err
    ensures var v := DiscardAllStreams(w);
            && Wired(v) && v.c.st == Tx && !v.c.queueErr && !v.p.failed && !v.hung && v.p.honest && NoneOpen(v.c)
            && v.p.ended == w.p.ended
            && forall i :: 0 <= i < |v.p.inbox| ==> !v.p.inbox[i].Reset? && !v.p.inbox[i].Run? && !Ends(v.p.inbox[i])
  {
    var w1 := if w.c.st == StreamingTx then DiscardStream(w) else w;
    if w.c.st == StreamingTx && w.c.curr.Some? {
      DiscardInTx(w, base, w.c.curr.value);
    }
    NoRunWhenAttached(w1, base);
    NoEndsInTx(w, base);
    NoEndsInTx(w1, base);
    DiscardQuiet(w);
    forall i | 0 <= i < |w1.p.inbox| ensures !w1.p.inbox[i].Reset? { assert RequestOk(w1, base, i); }
  }

  /**
   * COMMIT and ROLLBACK leave the connection ready, with every answer consumed and no stream open;
   * the peer has committed the transaction once if that was asked for, and else rolled it back once.
   */
  lemma {:induction false} EndInTx(w: World, base: nat, commit: bool)
    requires Boundary(w, base) && !EndTx(w, w.c.txId, commit).0.c.err
    ensures EndTx(w, w.c.txId, commit).1 == Done && Fresh(EndTx(w, w.c.txId, commit).0)
    ensures EndTx(w, w.c.txId, commit).0.p.inbox == [] && NoneOpen(EndTx(w, w.c.txId, commit).0.c)
    ensures EndTx(w, w.c.txId, commit).0.p.ended == w.p.ended + [if commit then Commit else Rollback]
  {
    DiscardAllInTx(w, base);
    var w1 := DiscardAllStreams(w);
    var w2 := Send(Append(w1, if commit then Commit else Rollback));
    assert w2.p.inbox == w1.p.inbox + [if commit then Commit else Rollback];
    EndDrained(w2);
  }

  // ---------------------------------------------------------------------------------------------
  // Whole transactions
  // ---------------------------------------------------------------------------------------------

  /**
   * The calls the claims are about: RunTx, Next on any stream of the transaction, and Consume or
   * Buffer on one that is current or has nothing in flight.
   */
  predicate Allowed(w: World, base: nat, op: Op)
  {
    match op
    case OpRunTx(h, _) => h == w.c.txId
    case OpNext(s) => base <= s < |w.c.streams|
    case OpConsume(s) => base <= s < |w.c.streams| && (w.c.curr == Some(s) || !InFlight(w, s))
    case OpBuffer(s) => base <= s < |w.c.streams| && (w.c.curr == Some(s) || !InFlight(w, s))
    case _ => false
  }

  /** Every call allowed, and none of them failing. */
  predicate Smooth(w: World, base: nat, ops: seq<Op>)
    requires Wired(w)
    decreases |ops|
  {
    ops == [] || (Allowed(w, base, ops[0]) && !Call(w, ops[0]).0.c.err && Smooth(Call(w, ops[0]).0, base, ops[1..]))
  }

  predicate Good(op: Op, out: Outcome)
  {
    match op
    case OpNext(_) => out.Rec? || out == Summary
    case OpConsume(_) => out == Summary
    case _ => out == Done
  }

  lemma {:induction false} CallInTx(w: World, base: nat, op: Op)
    requires Boundary(w, base) && Allowed(w, base, op) && !Call(w, op).0.c.err
    ensures Boundary(Call(w, op).0, base) && Good(op, Call(w, op).1) && Call(w, op).0.c.txId == w.c.txId
    ensures Call(w, op).0.p.ended == w.p.ended
  {
    NoEndsInTx(w, base);
    CallEnds(w, op);
    match op
    case OpRunTx(_, n) => RunInTx(w, base, n);
    case OpNext(s) => NextInTx(w, base, s);
    case OpConsume(s) => ConsumeInTx(w, base, s);
    case OpBuffer(s) => BufferInTx(w, base, s);
  }

  /**
   * Every state of every failure-free transaction: `num` counts exactly the unfinished streams, the
   * connection is StreamingTx exactly while there are some, every request will reach its query, no
   * call spins or finds the queue empty, and the transaction is neither committed nor rolled back.
   * `k` picks the state after the first `k` calls.
   */
  lemma {:induction false} TransactionRuns(w: World, base: nat, ops: seq<Op>, k: nat)
    requires Boundary(w, base) && Smooth(w, base, ops) && k <= |ops|
    ensures Boundary(Calls(w, ops[..k]), base) && Calls(w, ops[..k]).c.txId == w.c.txId
    ensures Calls(w, ops[..k]).p.ended == w.p.ended
    ensures k < |ops| ==> Good(ops[k], Call(Calls(w, ops[..k]), ops[k]).1)
    decreases |ops|
  {
    if k == 0 {
      assert ops[..0] == [];
      if ops != [] { CallInTx(w, base, ops[0]); }
    } else {
      CallInTx(w, base, ops[0]);
      assert ops[..k][0] == ops[0] && ops[..k][1..] == ops[1..][..k - 1];
      TransactionRuns(Call(w, ops[0]).0, base, ops[1..], k - 1);
    }
  }

  /**
   * A whole transaction returns the connection to the state the next one starts from; it has been
   * committed once and not rolled back, or rolled back once and not committed, as was asked for.
   */
  lemma {:induction false} WholeTransaction(w: World, id: nat, sync: bool, ops: seq<Op>, commit: bool)
    requires Fresh(w) && !TxBegin(w, id, sync).0.c.err
    requires Smooth(TxBegin(w, id, sync).0, |w.c.streams|, ops)
    requires !EndTx(Calls(TxBegin(w, id, sync).0, ops), id, commit).0.c.err
    ensures EndTx(Calls(TxBegin(w, id, sync).0, ops), id, commit).1 == Done
    ensures Fresh(EndTx(Calls(TxBegin(w, id, sync).0, ops), id, commit).0)
    ensures EndTx(Calls(TxBegin(w, id, sync).0, ops), id, commit).0.p.ended == w.p.ended + [if commit then Commit else Rollback]
  {
    BeginInTx(w, id, sync);
    var b := TxBegin(w, id, sync).0;
    TransactionRuns(b, |w.c.streams|, ops, |ops|);
    assert ops[..|ops|] == ops;
    EndInTx(Calls(b, ops), |w.c.streams|, commit);
  }

  /**
   * What the caller sees of a query it did not consume: the records returned so far, then those
   * buffered, then those the server has left, are the query's result; and once `Next` has given the
   * summary they have all been returned.
   */
  lemma {:induction false} ResultArrivesWhole(w: World, base: nat, s: nat)
    requires Boundary(w, base) && base <= s < |w.c.streams| && !w.c.streams[s].discarding
    ensures w.c.streams[s].qid in w.p.open
    ensures w.hist[s].got + w.c.streams[s].fifo + w.p.open[w.c.streams[s].qid] == w.hist[s].rows
    ensures w.c.streams[s].sum && w.c.streams[s].fifo == [] ==> w.hist[s].got == w.hist[s].rows
  {
    assert w.hist[s].got + w.c.streams[s].fifo == w.hist[s].sent;
    if w.c.streams[s].sum && w.c.streams[s].fifo == [] {
      assert w.hist[s].got + [] + [] == w.hist[s].got;
    }
  }

  // ---------------------------------------------------------------------------------------------
  // A transaction there is
  // ---------------------------------------------------------------------------------------------

  /** What a server answers to a pipelined BEGIN, to a first query with these rows, and then `rest`. */
  function Script(rows: seq<Record>, rest: seq<Choice>): seq<Choice>
  {
    [Reply(Success(false, 0), []), Reply(Success(false, 0), rows)] + rest
  }

  function BeganConnection(id: nat, rows: seq<Record>, rest: seq<Choice>): World
  {
    TxBegin(NewConnection(true, Script(rows, rest)), id, false).0
  }

  lemma {:induction false} PipelinedBegin(id: nat, rows: seq<Record>, rest: seq<Choice>)
    ensures Boundary(BeganConnection(id, rows, rest), 0)
    ensures BeganConnection(id, rows, rest) ==
              World(Conn(Tx, false, false, None, 0, 2, -1, id, [OnPlain], []),
                    Peer(true, [Begin], 1, false, false, -1, {}, map[], []), Script(rows, rest), [], false, {})
  {
    var n := NewConnection(true, Script(rows, rest));
    assert [] + [HandlerFor(Begin)] == [OnPlain] && [] + [Begin] == [Begin];
    BeginInTx(n, id, false);
  }

  /** The first query is on its way, with `handlers` to come, the peer `p` and its remaining answers. */
  function AskedWorld(id: nat, n: int, p: Peer, handlers: seq<Handler>, choices: seq<Choice>): World
  {
    World(Conn(Tx, false, false, None, 0, 2, -1, id, handlers, [NewStream(n)]), p, choices, [History([], [], [])], false, {})
  }

  function PeerBefore(n: int): Peer
  {
    Peer(true, [Begin, Run(0), Pull(n, None, 0)], 0, false, false, -1, {}, map[], [])
  }

  function PeerBegun(n: int): Peer
  {
    Peer(true, [Run(0), Pull(n, None, 0)], 0, false, true, -1, {}, map[], [])
  }

  /** The state the first query leaves: its PULL in flight and all its rows with the server. */
  function ServingWorld(id: nat, n: int, rows: seq<Record>, rest: seq<Choice>, st: State): World
  {
    World(Conn(st, false, false, Some(0), 1, 2, 0, id, [OnPull(0)], [Stream(true, [], false, false, 0, n, 2, false, false)]),
          Peer(true, [Pull(n, None, 0)], 0, false, true, 0, {0}, map[0 := rows], []), rest, [History(rows, [], [])], false, {})
  }

  lemma {:induction false} AskedFirst(id: nat, n: int, rows: seq<Record>, rest: seq<Choice>)
    ensures Wired(BeganConnection(id, rows, rest))
    ensures Open(BeganConnection(id, rows, rest), n) ==
              AskedWorld(id, n, PeerBefore(n), [OnPlain, OnRun(0), OnPull(0)], Script(rows, rest))
  {
    PipelinedBegin(id, rows, rest);
    var v := Open(BeganConnection(id, rows, rest), n);
    assert v.p.inbox == [Begin, Run(0), Pull(n, None, 0)];
    assert v.c.handlers == [OnPlain, OnRun(0), OnPull(0)];
  }

  lemma {:induction false} BeginAcknowledged(v: World, id: nat, n: int, rows: seq<Record>, rest: seq<Choice>)
    requires Wired(v) && v == AskedWorld(id, n, PeerBefore(n), [OnPlain, OnRun(0), OnPull(0)], Script(rows, rest))
    ensures Receive(v) == (AskedWorld(id, n, PeerBegun(n), [OnRun(0), OnPull(0)], Script(rows, rest)[1..]), true)
  {
    ReceiveDelivers(v);
    assert [OnPlain, OnRun(0), OnPull(0)][1..] == [OnRun(0), OnPull(0)];
    assert [Begin, Run(0), Pull(n, None, 0)][1..] == [Run(0), Pull(n, None, 0)];
  }

  lemma {:induction false} RunAcknowledged(v: World, id: nat, n: int, rows: seq<Record>, rest: seq<Choice>)
    requires Wired(v) && v == AskedWorld(id, n, PeerBegun(n), [OnRun(0), OnPull(0)], Script(rows, rest)[1..])
    ensures Receive(v) == (ServingWorld(id, n, rows, rest, Tx), true)
  {
    ReceiveDelivers(v);
    assert v.choices[1..] == rest;
    var u := Receive(v).0;
    assert u.p.inbox == [Pull(n, None, 0)] && u.c.handlers == [OnPull(0)];
    assert u.p.open == map[0 := rows] && u.p.used == {0};
    assert u.hist == [History(rows, [], [])];
    assert u.c.streams == [Stream(true, [], false, false, 0, n, 2, false, false)];
  }

  lemma {:induction false} FirstAttached(v: World, id: nat, n: int, rows: seq<Record>, rest: seq<Choice>)
    requires Wired(v) && v == AskedWorld(id, n, PeerBefore(n), [OnPlain, OnRun(0), OnPull(0)], Script(rows, rest))
    ensures AwaitAttached(v, 0) == (ServingWorld(id, n, rows, rest, Tx), true)
  {
    BeginAcknowledged(v, id, n, rows, rest);
    var u := Receive(v).0;
    RunAcknowledged(u, id, n, rows, rest);
    assert AwaitAttached(v, 0) == AwaitAttached(u, 0) == AwaitAttached(Receive(u).0, 0);
  }

  lemma {:induction false} FirstQueryRuns(id: nat, fetchSize: int, rows: seq<Record>, rest: seq<Choice>)
    ensures Wired(BeganConnection(id, rows, rest))
    ensures RunQuery(BeganConnection(id, rows, rest), fetchSize) ==
              (ServingWorld(id, NormalizeFetchSize(fetchSize), rows, rest, StreamingTx), Done)
  {
    PipelinedBegin(id, rows, rest);
    AskedFirst(id, NormalizeFetchSize(fetchSize), rows, rest);
    var w := BeganConnection(id, rows, rest);
    FirstAttached(Open(w, NormalizeFetchSize(fetchSize)), id, NormalizeFetchSize(fetchSize), rows, rest);
  }

  /** The transaction's first query opens a stream, and every claim above is about what follows. */
  lemma {:induction false} FirstQuery(id: nat, fetchSize: int, rows: seq<Record>, rest: seq<Choice>)
    ensures var w := BeganConnection(id, rows, rest);
            && Boundary(w, 0) && Smooth(w, 0, [OpRunTx(id, fetchSize)])
            && var v := Call(w, OpRunTx(id, fetchSize)).0; Boundary(v, 0) && v.hist == [History(rows, [], [])] && v.choices == rest
  {
    PipelinedBegin(id, rows, rest);
    FirstQueryRuns(id, fetchSize, rows, rest);
    var w := BeganConnection(id, rows, rest);
    CallInTx(w, 0, OpRunTx(id, fetchSize));
    assert [OpRunTx(id, fetchSize)][1..] == [];
  }
}
