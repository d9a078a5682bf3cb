/**
 * The Bolt 5 connection as an object whose methods change its fields in place. Each method is
 * proved to do to the fields exactly what the function of the same name in `Bolt` does to a
 * `World`, so everything proved there about runs is about these methods.
 */
module BoltConnection {
  import opened Bytes
  import opened Bolt
  import opened BoltCalls

  class Connection {
    var st: State
    var err: bool
    var queueErr: bool
    var curr: Option<nat>
    var num: int
    var key: nat
    var lastQid: int
    var txId: nat
    var handlers: seq<Handler>
    var streams: seq<Stream>
    /** The socket: the peer at its other end, and what happens on it. */
    var peer: Peer
    var choices: seq<Choice>
    /** Set where the driver's code would go round a loop forever without reading. */
    var hung: bool
    ghost var hist: seq<History>
    ghost var complete: set<nat>

    ghost function Abs(): World
      reads this
    {
      World(Conn(st, err, queueErr, curr, num, key, lastQid, txId, handlers, streams), peer, choices, hist, hung, complete)
    }

    ghost predicate Valid()
      reads this
    {
      Wired(Abs())
    }

    constructor (honest: bool, choices: seq<Choice>)
      ensures Valid()
      ensures st == Ready && !err && !queueErr && !hung && handlers == [] && streams == []
      ensures peer == Peer(honest, [], 0, false, false, -1, {}, map[], []) && this.choices == choices
    {
      st, err, queueErr, curr, num, key, lastQid, txId := Ready, false, false, None, 0, 1, -1, 0;
      handlers, streams, hung, hist, complete := [], [], false, [], {};
      peer, this.choices := Peer(honest, [], 0, false, false, -1, {}, map[], []), choices;
    }

    // --- stream.go and error bookkeeping ---------------------------------------------------------

    method RemoveStream(s: nat)
      requires s < |streams|
      modifies this`num, this`streams, this`curr
      ensures Abs() == old(Abs()).(c := Bolt.RemoveStream(old(Abs()).c, s))
    {
      num := num - 1;
      streams := streams[s := streams[s].(key := 0)];
      if curr == Some(s) { curr := None; }
    }

    method AttachStream(s: nat)
      requires s < |streams|
      modifies this`num, this`streams, this`curr
      ensures Abs() == old(Abs()).(c := Bolt.Attach(old(Abs()).c, s))
    {
      if curr.Some? { return; }
      num := num + 1;
      curr := Some(s);
      streams := streams[s := streams[s].(key := key)];
    }

    method ResetStreams()
      modifies this`num, this`curr, this`key
      ensures Abs() == old(Abs()).(c := Bolt.ResetStreams(old(Abs()).c))
    {
      num, curr, key := 0, None, key + 1;
    }

    method CheckStreams()
      modifies this`st
      ensures Abs() == old(Abs()).(c := Bolt.CheckStreams(old(Abs()).c))
    {
      if num <= 0 {
        match st
        case StreamingTx => st := Tx;
        case Streaming => st := Ready;
        case _ =>
      }
    }

    method SetError(fatal: bool)
      requires InRange(Abs().c)
      modifies this`st, this`err, this`num, this`streams, this`curr
      ensures Abs() == old(Abs()).(c := Bolt.SetError(old(Abs()).c, fatal))
    {
      if !err { err, st := true, Failed; }
      if fatal { st := Dead; }
      if curr.Some? {
        var s := curr.value;
        streams := streams[s := streams[s].(sum := false, err := true)];
        RemoveStream(s);
        CheckStreams();
      }
    }

    method FinishStream(s: nat, x: Stream)
      requires s < |streams|
      modifies this`st, this`num, this`streams, this`curr
      ensures Abs() == old(Abs()).(c := Finish(old(Abs()).c, s, x))
    {
      streams := streams[s := x];
      RemoveStream(s);
      CheckStreams();
    }

    // --- response handlers -----------------------------------------------------------------------

    method OnSuccess(h: Handler, hasMore: bool, qid: int)
      requires InRange(Abs().c) && HandlerInRange(h, |streams|)
      modifies this`st, this`num, this`streams, this`curr, this`lastQid
      ensures Abs() == old(Abs()).(c := HandleSuccess(old(Abs()).c, h, hasMore, qid))
    {
      match h
      case OnPlain =>
      case OnReset => st := Ready;
      case OnRun(s) =>
        streams := streams[s := streams[s].(attached := true, qid := qid)];
        if qid > -1 { lastQid := qid; }
        AttachStream(s);
      case OnPull(s) =>
        var x := streams[s];
        if x.discarding { x := x.(fifo := []); }
        if hasMore {
          streams := streams[s := x.(endOfBatch := true)];
        } else {
          FinishStream(s, x.(sum := true));
        }
      case OnDiscard(s) =>
        if hasMore {
          streams := streams[s := streams[s].(endOfBatch := true)];
        } else {
          FinishStream(s, streams[s].(sum := true));
        }
    }

    method OnFailure(h: Handler, fatal: bool)
      requires InRange(Abs().c) && HandlerInRange(h, |streams|)
      modifies this`st, this`err, this`num, this`streams, this`curr
      ensures Abs() == old(Abs()).(c := Handle(old(Abs()).c, h, Failure(fatal)).0)
    {
      match h
      case OnReset => st := Dead;
      case OnPull(s) =>
        streams := streams[s := streams[s].(err := true)];
        SetError(fatal);
      case OnDiscard(s) =>
        streams := streams[s := streams[s].(err := true)];
        SetError(fatal);
      case OnRun(_) => SetError(fatal);
      case OnPlain => SetError(fatal);
    }

    method OnMessage(h: Handler, m: Msg) returns (ok: bool)
      requires InRange(Abs().c) && HandlerInRange(h, |streams|)
      modifies this`st, this`err, this`num, this`streams, this`curr, this`lastQid, this`handlers
      ensures Abs() == old(Abs()).(c := Handle(old(Abs()).c, h, m).0) && ok == Handle(old(Abs()).c, h, m).1
    {
      match m
      case RecordMsg(rec) =>
        if !h.OnPull? { return false; }
        var x := streams[h.sid];
        if x.discarding { x := x.(fifo := []); } else { x := x.(fifo := x.fifo + [rec]); }
        streams := streams[h.sid := x];
        handlers := [h] + handlers;
        return true;
      case Success(hasMore, qid) =>
        OnSuccess(h, hasMore, qid);
        return true;
      case Failure(fatal) =>
        OnFailure(h, fatal);
        return false;
      case Ignored =>
        match h {
          case OnReset => return false;
          case OnPull(s) => FinishStream(s, streams[s].(err := true));
          case OnDiscard(s) => FinishStream(s, streams[s].(err := true));
          case OnRun(_) =>
          case OnPlain =>
        }
        return true;
    }

    /** Pops the front handler and runs it. */
    method Dispatch(m: Msg) returns (ok: bool)
      requires handlers != [] && InRange(Abs().c)
      modifies this`st, this`err, this`num, this`streams, this`curr, this`lastQid, this`handlers
      ensures var c := old(Abs()).c;
              && Abs() == old(Abs()).(c := Handle(c.(handlers := c.handlers[1..]), c.handlers[0], m).0)
              && ok == Handle(c.(handlers := c.handlers[1..]), c.handlers[0], m).1
    {
      var h := handlers[0];
      handlers := handlers[1..];
      ok := OnMessage(h, m);
    }

    // --- message_queue.go ------------------------------------------------------------------------

    method AppendRequest(r: Request)
      requires Valid() && RequestInRange(r, |streams|)
      modifies this`peer, this`handlers
      ensures Valid() && Abs() == Append(old(Abs()), r)
    {
      peer := peer.(inbox := peer.inbox + [r], unsent := peer.unsent + 1);
      handlers := handlers + [HandlerFor(r)];
    }

    method Send()
      requires Valid()
      modifies this`st, this`err, this`num, this`streams, this`curr, this`choices, this`peer
      ensures Valid() && Abs() == Bolt.Send(old(Abs()))
    {
      if choices != [] && choices[0].Drop? {
        choices := choices[1..];
        WiredInRange(Abs());
        SetError(true);
      } else {
        peer := peer.(unsent := 0);
      }
    }

    /** Reads one message; None is an I/O error. */
    method ReadMessage() returns (m: Option<Msg>)
      requires Valid() && !queueErr
      modifies this`choices, this`peer, this`hist, this`complete
      ensures old(choices) == [] ==> m == None && Abs() == old(Abs())
      ensures old(choices) != [] && !Available(old(peer), old(choices)[0]) ==>
                m == None && Abs() == old(Abs()).(choices := old(choices)[1..])
      ensures old(choices) != [] && Available(old(peer), old(choices)[0]) ==>
                && m == Some(old(choices)[0].msg)
                && Abs() == old(Abs()).(choices := old(choices)[1..], p := Answered(old(peer), old(choices)[0]),
                                        hist := Noted(old(hist), old(peer).inbox[0], old(choices)[0]),
                                        complete := Completed(old(complete), old(peer).inbox[0], old(choices)[0].msg))
    {
      if choices == [] { return None; }
      var ch := choices[0];
      choices := choices[1..];
      if !Available(peer, ch) { return None; }
      hist := Noted(hist, peer.inbox[0], ch);
      complete := Completed(complete, peer.inbox[0], ch.msg);
      peer := Answered(peer, ch);
      return Some(ch.msg);
    }

    method Receive() returns (ok: bool)
      requires Valid()
      modifies this
      ensures (Abs(), ok) == Bolt.Receive(old(Abs()))
      ensures Valid()
    {
      if queueErr { return false; }
      ghost var w := Abs();
      WiredInRange(w);
      if choices != [] && Available(peer, choices[0]) { ReceiveDelivers(w); } else { ReceiveBreaks(w); }
      var m := ReadMessage();
      if m.None? {
        queueErr := true;
        SetError(true);
        return false;
      }
      ok := Dispatch(m.value);
    }

    method ReceiveAll() returns (ok: bool)
      requires Valid()
      modifies this
      ensures Valid() && (Abs(), ok) == Bolt.ReceiveAll(old(Abs()))
    {
      while handlers != []
        invariant Valid() && Bolt.ReceiveAll(Abs()) == Bolt.ReceiveAll(old(Abs()))
        decreases |choices|
      {
        ok := Receive();
        if !ok { return; }
      }
      ok := true;
    }

    // --- bolt5.go --------------------------------------------------------------------------------

    method AppendPullN(s: nat)
      requires Valid() && s < |streams|
      modifies this`peer, this`handlers
      ensures Valid() && Abs() == AppendPull(old(Abs()), s)
    {
      if st == Streaming {
        AppendRequest(Pull(streams[s].fetchSize, None, s));
      } else if st == StreamingTx {
        if streams[s].qid == lastQid {
          AppendRequest(Pull(streams[s].fetchSize, None, s));
        } else {
          AppendRequest(Pull(streams[s].fetchSize, Some(streams[s].qid), s));
        }
      }
    }

    method BufferStream()
      requires Valid()
      modifies this
      ensures Valid() && Abs() == Bolt.BufferStream(old(Abs()))
    {
      if curr.None? { return; }
      var s := curr.value;
      while true
        invariant Valid() && s < |streams| && BufferLoop(Abs(), s) == BufferLoop(old(Abs()), s)
        decreases |choices|, if handlers == [] then 1 else 0
      {
        var ok := ReceiveAll();
        if !ok || err { return; }
        if streams[s].sum || streams[s].err { return; }
        if !streams[s].endOfBatch { hung := true; return; }
        streams := streams[s := streams[s].(fetchSize := -1)];
        AppendPullN(s);
        Send();
        if err { return; }
        if handlers == [] { hung := true; return; }
      }
    }

    method PauseStream()
      requires Valid()
      modifies this
      ensures Valid() && Abs() == Bolt.PauseStream(old(Abs()))
    {
      if curr.None? { return; }
      var s := curr.value;
      var ok := ReceiveAll();
      if !ok || err { return; }
      if streams[s].sum || streams[s].err { return; }
      if streams[s].endOfBatch { curr := None; }
    }

    method ResumeStream(s: nat)
      requires Valid() && s < |streams|
      modifies this
      ensures Valid() && Abs() == Bolt.ResumeStream(old(Abs()), s)
    {
      if curr.None? { curr := Some(s); }
      AppendPullN(s);
      Send();
    }

    method AskDiscard(s: nat)
      requires Valid() && s < |streams|
      modifies this
      ensures Valid() && Abs() == DiscardAsked(old(Abs()), s)
    {
      streams := streams[s := streams[s].(fetchSize := -1)];
      if st == StreamingTx && streams[s].qid != lastQid {
        AppendRequest(Discard(-1, Some(streams[s].qid), s));
      } else {
        AppendRequest(Discard(-1, None, s));
      }
      Send();
    }

    method DiscardStream()
      requires Valid()
      modifies this
      ensures Valid() && Abs() == Bolt.DiscardStream(old(Abs()))
    {
      if st != Streaming && st != StreamingTx { return; }
      if curr.None? { return; }
      var s := curr.value;
      streams := streams[s := streams[s].(discarding := true)];
      var discarded := false;
      ghost var w0 := Abs();
      while true
        invariant Valid() && s < |streams| && (discarded ==> handlers != [])
        invariant DiscardLoop(Abs(), s, discarded) == DiscardLoop(w0, s, false)
        decreases |choices|, if discarded then 0 else 1
      {
        var more := DiscardRound(s, discarded);
        if !more { return; }
        discarded := true;
      }
    }

    /** One turn of that loop; `more` says whether there is another. */
    method DiscardRound(s: nat, discarded: bool) returns (more: bool)
      requires Valid() && s < |streams| && (discarded ==> handlers != [])
      modifies this
      ensures Valid() && s < |streams| && (more ==> handlers != [])
      ensures more ==> DiscardLoop(Abs(), s, true) == DiscardLoop(old(Abs()), s, discarded)
      ensures !more ==> Abs() == DiscardLoop(old(Abs()), s, discarded)
      ensures |choices| <= old(|choices|) && (more && discarded ==> |choices| < old(|choices|))
    {
      var ok := ReceiveAll();
      if !ok || err { return false; }
      if streams[s].sum || streams[s].err { return false; }
      if streams[s].endOfBatch && discarded {
        RemoveStream(s);
        CheckStreams();
        return false;
      }
      AskDiscard(s);
      more := !err;
    }

    method DiscardAllStreams()
      requires Valid()
      modifies this
      ensures Valid() && Abs() == Bolt.DiscardAllStreams(old(Abs()))
    {
      if st != Streaming && st != StreamingTx { return; }
      DiscardStream();
      ResetStreams();
      CheckStreams();
    }

    method OpenStream(fetchSize: int)
      requires Valid()
      modifies this
      ensures Valid() && Abs() == Open(old(Abs()), fetchSize)
    {
      var s := |streams|;
      streams, hist := streams + [NewStream(fetchSize)], hist + [History([], [], [])];
      AppendRequest(Run(s));
      AppendRequest(Pull(fetchSize, None, s));
      Send();
    }

    /** Only RUN's answer is wanted, but those to earlier requests come first. */
    method AwaitRun(s: nat) returns (ok: bool)
      requires Valid() && s < |streams|
      modifies this
      ensures Valid() && (Abs(), ok) == AwaitAttached(old(Abs()), s)
    {
      while !streams[s].attached
        invariant Valid() && s < |streams| && AwaitAttached(Abs(), s) == AwaitAttached(old(Abs()), s)
        decreases |choices|
      {
        ok := Receive();
        if !ok || err { return false; }
      }
      ok := true;
    }

    method MakeRoom()
      requires Valid()
      modifies this
      ensures Valid() && Abs() == Bolt.MakeRoom(old(Abs()))
    {
      if st == Streaming {
        BufferStream();
      } else if st == StreamingTx {
        PauseStream();
      }
    }

    method OpenAndAttach(fetchSize: int) returns (out: Outcome)
      requires Valid()
      modifies this
      ensures Valid() && (Abs(), out) == Bolt.OpenAndAttach(old(Abs()), fetchSize)
    {
      var s := |streams|;
      OpenStream(fetchSize);
      if err { return Error; }
      var ok := AwaitRun(s);
      if !ok { return Error; }
      if st == Ready {
        st := Streaming;
      } else if st == Tx {
        st := StreamingTx;
      }
      return Done;
    }

    method RunQuery(rawFetchSize: int) returns (out: Outcome)
      requires Valid()
      modifies this
      ensures Valid() && (Abs(), out) == Bolt.RunQuery(old(Abs()), rawFetchSize)
    {
      MakeRoom();
      if hung || err || st !in {Tx, Ready, StreamingTx} { return Error; }
      out := OpenAndAttach(NormalizeFetchSize(rawFetchSize));
    }

    /** The next record, the summary, or why there is neither; that record is the one given out. */
    method Next(s: nat) returns (out: Outcome)
      requires Valid() && s < |streams|
      modifies this
      ensures Valid() && (Abs(), out) == NextRecord(old(Abs()), s)
      ensures Gave(old(Abs()), Abs(), s, if out.Rec? then [out.rec] else [])
    {
      NextGives(Abs(), s);
      out := NextLoop(s);
    }

    method NextLoop(s: nat) returns (out: Outcome)
      requires Valid() && s < |streams|
      modifies this
      ensures Valid() && (Abs(), out) == NextRecord(old(Abs()), s)
    {
      while true
        invariant Valid() && s < |streams| && NextRecord(Abs(), s) == NextRecord(old(Abs()), s)
        decreases |choices|
      {
        var x := streams[s];
        if x.fifo != [] {
          ghost var w := Abs();
          streams := streams[s := x.(fifo := x.fifo[1..])];
          hist := hist[s := hist[s].(got := hist[s].got + [x.fifo[0]])];
          assert Abs() == TakeRecord(w, s);
          return Rec(x.fifo[0]);
        }
        if x.err { return Error; }
        if x.sum { return Summary; }
        if x.endOfBatch {
          AppendPullN(s);
          Send();
          if err { return Error; }
          streams := streams[s := streams[s].(endOfBatch := false)];
        }
        if handlers == [] { return NoMoreResults; }
        var ok := Receive();
        if !ok || err { return Error; }
      }
    }

    method SwitchTo(s: nat) returns (ok: bool)
      requires Valid() && s < |streams|
      modifies this
      ensures Valid() && (Abs(), ok) == Bolt.SwitchTo(old(Abs()), s)
    {
      if curr != Some(s) {
        PauseStream();
        if err { return false; }
        ResumeStream(s);
      }
      ok := true;
    }

    method Consume(s: nat) returns (out: Outcome)
      requires Valid() && s < |streams|
      modifies this
      ensures Valid() && (Abs(), out) == Bolt.Consume(old(Abs()), s)
    {
      if streams[s].err { return Error; }
      if streams[s].sum { return Summary; }
      if streams[s].key != key { return Error; }
      if err || (st != Streaming && st != StreamingTx) { return Error; }
      var ok := SwitchTo(s);
      if !ok { return Error; }
      DiscardStream();
      out := if streams[s].err then Error else if streams[s].sum then Summary else Done;
    }

    /** Receives the whole result; no stream loses a record by it. */
    method Buffer(s: nat) returns (out: Outcome)
      requires Valid() && s < |streams|
      modifies this
      ensures Valid() && (Abs(), out) == Bolt.Buffer(old(Abs()), s)
      ensures Quiet(old(Abs()), Abs(), -1)
    {
      BufferCallQuiet(Abs(), s);
      if !streams[s].sum && !streams[s].err {
        if streams[s].key != key { return Error; }
        if err || (st != Streaming && st != StreamingTx) { return Error; }
        var ok := SwitchTo(s);
        if !ok { return Error; }
        BufferStream();
      }
      out := if streams[s].err && streams[s].fifo == [] then Error else Done;
    }

    method Exchange(r: Request, sync: bool) returns (ok: bool)
      requires Valid() && RequestInRange(r, |streams|)
      modifies this
      ensures Valid() && (Abs(), ok) == Bolt.Exchange(old(Abs()), r, sync)
    {
      AppendRequest(r);
      if !sync { return true; }
      Send();
      if err { return false; }
      ok := ReceiveAll();
    }

    method TxBegin(id: nat, sync: bool) returns (out: Outcome)
      requires Valid()
      modifies this
      ensures Valid() && (Abs(), out) == Bolt.TxBegin(old(Abs()), id, sync)
    {
      if st == Streaming {
        BufferStream();
        if hung || err { return Error; }
      }
      if hung { return Error; }
      ResetStreams();
      if err || st != Ready { return Error; }
      var ok := Exchange(Begin, sync);
      if !ok || err { return Error; }
      st, txId := Tx, id;
      return Done;
    }

    /** COMMIT or ROLLBACK; asks the peer for that one and not for the other. */
    method EndTx(h: nat, commit: bool) returns (out: Outcome)
      requires Valid()
      modifies this
      ensures Valid() && (Abs(), out) == Bolt.EndTx(old(Abs()), h, commit)
      ensures OneMore(old(Abs()), Abs(), commit)
    {
      EndTxAsks(Abs(), h, commit);
      if h != txId { return Error; }
      DiscardAllStreams();
      if err || st != Tx { return Error; }
      var ok := Exchange(if commit then Commit else Rollback, true);
      if !ok || err { return Error; }
      st := Ready;
      return Done;
    }

    method ForceReset()
      requires Valid()
      modifies this
      ensures Valid() && Abs() == Bolt.ForceReset(old(Abs()))
    {
      if st == Dead { return; }
      err := false;
      var ok := ReceiveAll();
      if !ok || err { return; }
      AppendRequest(Request.Reset);
      Send();
      if err { return; }
      ok := Receive();
    }

    method Reset()
      requires Valid()
      modifies this
      ensures Valid() && Abs() == ResetConn(old(Abs()))
    {
      if st != Ready { ForceReset(); }
      txId, err, lastQid := 0, false, -1;
      ResetStreams();
    }
  }
}
