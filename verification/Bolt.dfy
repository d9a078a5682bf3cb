/**
 * The Bolt 5 connection: pipelined requests, a FIFO of response handlers, and several result
 * streams open at once in a transaction, talking to a peer that answers requests in order.
 *
 * The socket is the script `choices`: one entry per thing that happens on it. A reply that the
 * peer could not send at that moment, a `Drop`, and an exhausted script all read as an I/O error,
 * so every script describes some run of the connection and no run is left out.
 */
module Bolt {
  import opened Bytes

  datatype Record = Record(values: seq<int>)

  // ---------------------------------------------------------------------------------------------
  // The connection's own state
  // ---------------------------------------------------------------------------------------------

  datatype State = Ready | Streaming | Tx | StreamingTx | Failed | Dead

  /** A result stream. The summary and the error are modelled by whether they are set. */
  datatype Stream = Stream(
    attached: bool, fifo: seq<Record>, sum: bool, err: bool, qid: int, fetchSize: int, key: nat,
    endOfBatch: bool, discarding: bool)

  /** What is called when the answer to a request arrives. Streams are named by their index. */
  datatype Handler = OnPlain | OnReset | OnRun(sid: nat) | OnPull(sid: nat) | OnDiscard(sid: nat)

  datatype Conn = Conn(
    st: State,
    err: bool,               // the last fatal or recoverable error is set
    queueErr: bool,          // the message queue has seen an I/O error
    curr: Option<nat>,       // the current stream
    num: int,                // how many streams count as open
    key: nat,                // identifies the present generation of streams
    lastQid: int,
    txId: nat,
    handlers: seq<Handler>,
    streams: seq<Stream>)    // every stream ever made on this connection

  /** Messages from the server. */
  datatype Msg = RecordMsg(rec: Record) | Success(hasMore: bool, qid: int) | Failure(fatal: bool) | Ignored

  // ---------------------------------------------------------------------------------------------
  // The peer
  // ---------------------------------------------------------------------------------------------

  /**
   * Requests as they stand on the wire. `sid` is a note of the stream the client sent it for; the
   * peer does not look at it.
   */
  datatype Request =
    | Begin | Commit | Rollback | Other | Reset
    | Run(sid: nat)
    | Pull(n: int, qid: Option<int>, sid: nat)
    | Discard(n: int, qid: Option<int>, sid: nat)

  /**
   * `inbox` holds the requests not yet finally answered, of which the last `unsent` are still in
   * the client's output buffer. `open` maps each query id to the rows left to send.
   * An honest peer serves each query's rows; a peer that is not is held to the framing alone.
   * `ended` lists the COMMITs and ROLLBACKs it has carried out.
   */
  datatype Peer = Peer(
    honest: bool, inbox: seq<Request>, unsent: nat, failed: bool, inTx: bool,
    latest: int, used: set<int>, open: map<int, seq<Record>>, ended: seq<Request>)

  datatype Choice = Drop | Reply(msg: Msg, rows: seq<Record>)

  /** The query a PULL or DISCARD acts on: the one it names, or the latest RUN's. */
  function Target(p: Peer, r: Request): int
    requires r.Pull? || r.Discard?
  {
    match r.qid
    case None => p.latest
    case Some(q) => q
  }

  /** Records and then one final answer per request; after a failure all is ignored until RESET. */
  predicate Framed(p: Peer, m: Msg)
    requires p.inbox != []
  {
    var r := p.inbox[0];
    match m
    case RecordMsg(_) => r.Pull? && !p.failed
    case Success(_, _) => !p.failed || r.Reset?
    case Failure(_) => !p.failed || r.Reset?
    case Ignored => p.failed && !r.Reset?
  }

  /** An honest peer numbers queries afresh in a transaction and serves each one's rows in order. */
  predicate Serves(p: Peer, m: Msg)
    requires p.inbox != []
  {
    var r := p.inbox[0];
    match m
    case RecordMsg(rec) =>
      r.Pull? && Target(p, r) in p.open && p.open[Target(p, r)] != [] && rec == p.open[Target(p, r)][0]
    case Success(hasMore, qid) =>
      && (r.Run? ==> if p.inTx then qid >= 0 && qid !in p.used else qid == -1)
      && (r.Pull? ==> Target(p, r) in p.open && hasMore == (p.open[Target(p, r)] != []) && (r.n == -1 ==> !hasMore))
      && (r.Discard? ==> Target(p, r) in p.open && !hasMore)
    case Failure(_) => true
    case Ignored => true
  }

  predicate Available(p: Peer, ch: Choice)
  {
    ch.Reply? && p.unsent < |p.inbox| && Framed(p, ch.msg) && (p.honest ==> Serves(p, ch.msg))
  }

  /** The peer once it has given that answer. */
  function Answered(p: Peer, ch: Choice): Peer
    requires Available(p, ch)
  {
    var r := p.inbox[0];
    var q := p.(inbox := p.inbox[1..]);
    match ch.msg
    case RecordMsg(_) =>
      var t := Target(p, r);
      if t in p.open && p.open[t] != [] then p.(open := p.open[t := p.open[t][1..]]) else p
    case Ignored => q
    case Failure(_) => q.(failed := true)
    case Success(_, qid) =>
      match r
      case Begin => q.(inTx := true, latest := -1, used := {}, open := map[])
      case Commit => q.(inTx := false, open := map[], ended := p.ended + [Commit])
      case Rollback => q.(inTx := false, open := map[], ended := p.ended + [Rollback])
      case Other => q
      case Reset => q.(failed := false, inTx := false, open := map[])
      case Run(_) => q.(latest := qid, used := p.used + {qid}, open := p.open[qid := ch.rows])
      case Pull(_, _, _) => q
      case Discard(_, _, _) =>
        var t := Target(p, r);
        if t in p.open then q.(open := p.open[t := []]) else q
  }

  // ---------------------------------------------------------------------------------------------
  // Connection, peer and history together
  // ---------------------------------------------------------------------------------------------

  /** Of one stream: its query's whole result, the records sent for its PULLs, those `Next` returned. */
  datatype History = History(rows: seq<Record>, sent: seq<Record>, got: seq<Record>)

  /**
   * `hung` is set when a call would spin without reading or returning; `complete` are the streams of
   * which the peer has said that there is no more.
   */
  datatype World = World(
    c: Conn, p: Peer, choices: seq<Choice>, hist: seq<History>, hung: bool, complete: set<nat>)

  datatype Outcome = Done | Rec(rec: Record) | Summary | Error | NoMoreResults

  // --- stream.go -----------------------------------------------------------------------------

  function RemoveStream(c: Conn, s: nat): Conn
    requires s < |c.streams|
  {
    c.(num := c.num - 1,
       streams := c.streams[s := c.streams[s].(key := 0)],
       curr := if c.curr == Some(s) then None else c.curr)
  }

  function Attach(c: Conn, s: nat): Conn
    requires s < |c.streams|
  {
    if c.curr.Some? then c
    else c.(num := c.num + 1, curr := Some(s), streams := c.streams[s := c.streams[s].(key := c.key)])
  }

  /** All streams of the present generation become unsafe to use; keys are never reused. */
  function ResetStreams(c: Conn): Conn
  {
    c.(num := 0, curr := None, key := c.key + 1)
  }

  // --- bolt5.go --------------------------------------------------------------------------------

  function CheckStreams(c: Conn): Conn
  {
    if c.num <= 0 && c.st == StreamingTx then c.(st := Tx)
    else if c.num <= 0 && c.st == Streaming then c.(st := Ready)
    else c
  }

  predicate InRange(c: Conn)
  {
    && (c.curr.Some? ==> c.curr.value < |c.streams|)
    && forall i :: 0 <= i < |c.handlers| ==> HandlerInRange(c.handlers[i], |c.streams|)
  }

  predicate HandlerInRange(h: Handler, n: nat)
  {
    match h
    case OnRun(s) => s < n
    case OnPull(s) => s < n
    case OnDiscard(s) => s < n
    case _ => true
  }

  function SetError(c: Conn, fatal: bool): Conn
    requires InRange(c)
  {
    var st := if fatal then Dead else if c.err then c.st else Failed;
    var c1 := c.(err := true, st := st);
    match c.curr
    case None => c1
    case Some(s) =>
      CheckStreams(RemoveStream(c1.(streams := c1.streams[s := c1.streams[s].(sum := false, err := true)]), s))
  }

  /** Runs the popped handler `h` on the message; the second result is whether `receive` succeeds. */
  function Handle(c: Conn, h: Handler, m: Msg): (Conn, bool)
    requires InRange(c) && HandlerInRange(h, |c.streams|)
  {
    match m
    case RecordMsg(rec) =>
      if !h.OnPull? then (c, false) else
      var x := c.streams[h.sid];
      var x' := x.(fifo := if x.discarding then [] else x.fifo + [rec]);
      (c.(streams := c.streams[h.sid := x'], handlers := [h] + c.handlers), true)
    case Success(hasMore, qid) => (HandleSuccess(c, h, hasMore, qid), true)
    case Failure(fatal) =>
      (match h
       case OnReset => c.(st := Dead)
       case OnPull(s) => SetError(c.(streams := c.streams[s := c.streams[s].(err := true)]), fatal)
       case OnDiscard(s) => SetError(c.(streams := c.streams[s := c.streams[s].(err := true)]), fatal)
       case _ => SetError(c, fatal), false)
    case Ignored =>
      match h
      case OnReset => (c, false)
      case OnPull(s) => (Finish(c, s, c.streams[s].(err := true)), true)
      case OnDiscard(s) => (Finish(c, s, c.streams[s].(err := true)), true)
      case _ => (c, true)
  }

  /** Stores the finished stream and takes it out of the open ones. */
  function Finish(c: Conn, s: nat, x: Stream): Conn
    requires s < |c.streams|
  {
    CheckStreams(RemoveStream(c.(streams := c.streams[s := x]), s))
  }

  function HandleSuccess(c: Conn, h: Handler, hasMore: bool, qid: int): Conn
    requires InRange(c) && HandlerInRange(h, |c.streams|)
  {
    match h
    case OnPlain => c
    case OnReset => c.(st := Ready)
    case OnRun(s) =>
      Attach(c.(streams := c.streams[s := c.streams[s].(attached := true, qid := qid)],
                lastQid := if qid > -1 then qid else c.lastQid), s)
    case OnPull(s) =>
      var x := c.streams[s];
      var x' := x.(fifo := if x.discarding then [] else x.fifo);
      if hasMore then c.(streams := c.streams[s := x'.(endOfBatch := true)])
      else Finish(c, s, x'.(sum := true))
    case OnDiscard(s) =>
      var x := c.streams[s];
      if hasMore then c.(streams := c.streams[s := x.(endOfBatch := true)])
      else Finish(c, s, x.(sum := true))
  }

  // --- message_queue.go ----------------------------------------------------------------------------

  predicate RequestInRange(r: Request, n: nat)
  {
    match r
    case Run(s) => s < n
    case Pull(_, _, s) => s < n
    case Discard(_, _, s) => s < n
    case _ => true
  }

  /** The handler that answers to a request belong to. */
  function HandlerFor(r: Request): Handler
  {
    match r
    case Run(s) => OnRun(s)
    case Pull(_, _, s) => OnPull(s)
    case Discard(_, _, s) => OnDiscard(s)
    case Reset => OnReset
    case _ => OnPlain
  }

  /** The handler list is the list of requests not yet finally answered, in order. */
  predicate Paired(w: World)
  {
    && |w.c.handlers| == |w.p.inbox| && w.p.unsent <= |w.p.inbox|
    && forall i :: 0 <= i < |w.p.inbox| ==>
         w.c.handlers[i] == HandlerFor(w.p.inbox[i]) && RequestInRange(w.p.inbox[i], |w.c.streams|)
  }

  /** Of a stream nobody discards, what `Next` returned and what is buffered is all that was sent for it. */
  predicate NothingLost(w: World)
  {
    && |w.hist| == |w.c.streams|
    && forall s :: 0 <= s < |w.c.streams| && !w.c.streams[s].discarding ==>
         w.hist[s].got + w.c.streams[s].fifo == w.hist[s].sent
  }

  /** What holds in every state of every run, whatever fails. */
  predicate Wired(w: World)
  {
    Paired(w) && NothingLost(w) && (w.c.curr.Some? ==> w.c.curr.value < |w.c.streams|)
  }

  /** Packs a request and queues its handler; nothing is written yet. */
  function Append(w: World, r: Request): (v: World)
    requires Wired(w) && RequestInRange(r, |w.c.streams|)
    ensures Wired(v)
  {
    w.(c := w.c.(handlers := w.c.handlers + [HandlerFor(r)]),
       p := w.p.(inbox := w.p.inbox + [r], unsent := w.p.unsent + 1))
  }

  lemma {:induction false} WiredInRange(w: World)
    requires Wired(w)
    ensures InRange(w.c)
  {
    forall i | 0 <= i < |w.c.handlers| ensures HandlerInRange(w.c.handlers[i], |w.c.streams|) {
      assert w.c.handlers[i] == HandlerFor(w.p.inbox[i]);
    }
  }

  /** An I/O error is fatal to the connection and is forwarded to its current stream. */
  function IoError(w: World): (v: World)
    requires Wired(w)
    ensures Wired(v) && v.choices == w.choices && v.c.err && v.c.handlers == w.c.handlers && v.hung == w.hung
  {
    WiredInRange(w);
    w.(c := SetError(w.c, true))
  }

  function Send(w: World): (v: World)
    requires Wired(w)
    ensures Wired(v) && |v.choices| <= |w.choices| && v.c.handlers == w.c.handlers && v.hung == w.hung
  {
    if w.choices != [] && w.choices[0].Drop? then IoError(w.(choices := w.choices[1..]))
    else w.(p := w.p.(unsent := 0))
  }

  /** What the answer adds to the history of the stream the request was sent for. */
  function Noted(hist: seq<History>, r: Request, ch: Choice): (h: seq<History>)
    requires ch.Reply? && RequestInRange(r, |hist|)
    ensures |h| == |hist|
  {
    match ch.msg
    case RecordMsg(rec) => if r.Pull? then hist[r.sid := hist[r.sid].(sent := hist[r.sid].sent + [rec])] else hist
    case Success(_, _) => if r.Run? then hist[r.sid := hist[r.sid].(rows := ch.rows)] else hist
    case _ => hist
  }

  function Completed(complete: set<nat>, r: Request, m: Msg): set<nat>
  {
    if m.Success? && !m.hasMore && (r.Pull? || r.Discard?) then complete + {r.sid} else complete
  }

  /** An answer reaching the front handler: the peer's side, the handler's side and the history. */
  function Delivered(w: World, ch: Choice): (World, bool)
    requires Wired(w) && Available(w.p, ch)
  {
    WiredInRange(w);
    var (c', ok) := Handle(w.c.(handlers := w.c.handlers[1..]), w.c.handlers[0], ch.msg);
    (w.(c := c', p := Answered(w.p, ch), hist := Noted(w.hist, w.p.inbox[0], ch),
        complete := Completed(w.complete, w.p.inbox[0], ch.msg)), ok)
  }

  /** Two stream tables with the same buffers. */
  predicate SameBuffers(a: Conn, b: Conn)
  {
    && a.handlers == b.handlers && |a.streams| == |b.streams|
    && forall s :: 0 <= s < |a.streams| ==>
         a.streams[s].fifo == b.streams[s].fifo && a.streams[s].discarding == b.streams[s].discarding
  }

  predicate CurrInRange(c: Conn)
  {
    c.curr.Some? ==> c.curr.value < |c.streams|
  }

  lemma {:induction false} SetErrorBuffers(c: Conn, fatal: bool)
    requires InRange(c)
    ensures SameBuffers(SetError(c, fatal), c) && CurrInRange(SetError(c, fatal))
  {
  }

  lemma {:induction false} FinishBuffers(c: Conn, s: nat, x: Stream)
    requires InRange(c) && s < |c.streams|
    ensures SameBuffers(Finish(c, s, x), c.(streams := c.streams[s := x])) && CurrInRange(Finish(c, s, x))
  {
  }

  lemma {:induction false} FailureBuffers(c: Conn, h: Handler, fatal: bool)
    requires InRange(c) && HandlerInRange(h, |c.streams|)
    ensures SameBuffers(Handle(c, h, Failure(fatal)).0, c) && CurrInRange(Handle(c, h, Failure(fatal)).0)
  {
    match h
    case OnReset =>
    case OnPull(s) => SetErrorBuffers(c.(streams := c.streams[s := c.streams[s].(err := true)]), fatal);
    case OnDiscard(s) => SetErrorBuffers(c.(streams := c.streams[s := c.streams[s].(err := true)]), fatal);
    case OnPlain => SetErrorBuffers(c, fatal);
    case OnRun(_) => SetErrorBuffers(c, fatal);
  }

  lemma {:induction false} IgnoredBuffers(c: Conn, h: Handler)
    requires InRange(c) && HandlerInRange(h, |c.streams|)
    ensures SameBuffers(Handle(c, h, Ignored).0, c) && CurrInRange(Handle(c, h, Ignored).0)
  {
    match h
    case OnPull(s) => FinishBuffers(c, s, c.streams[s].(err := true));
    case OnDiscard(s) => FinishBuffers(c, s, c.streams[s].(err := true));
    case _ =>
  }

  /** A SUCCESS changes no buffer, except that a discarded stream's is emptied. */
  lemma {:induction false} SuccessBuffers(c: Conn, h: Handler, hasMore: bool, qid: int)
    requires InRange(c) && HandlerInRange(h, |c.streams|)
    ensures var c' := HandleSuccess(c, h, hasMore, qid);
            && c'.handlers == c.handlers && |c'.streams| == |c.streams| && CurrInRange(c')
            && forall s :: 0 <= s < |c.streams| ==>
                 && c'.streams[s].discarding == c.streams[s].discarding
                 && (!c.streams[s].discarding ==> c'.streams[s].fifo == c.streams[s].fifo)
  {
    match h
    case OnPull(s) =>
      var x := c.streams[s];
      FinishBuffers(c, s, x.(fifo := if x.discarding then [] else x.fifo, sum := true));
    case OnDiscard(s) => FinishBuffers(c, s, c.streams[s].(sum := true));
    case _ =>
  }

  /** Handling an answer touches no stream's buffer but that of the stream it belongs to. */
  lemma {:induction false} HandledBuffers(c: Conn, h: Handler, m: Msg)
    requires InRange(c) && HandlerInRange(h, |c.streams|)
    ensures var c' := Handle(c, h, m).0;
            && c'.handlers == (if m.RecordMsg? && h.OnPull? then [h] + c.handlers else c.handlers)
            && |c'.streams| == |c.streams| && CurrInRange(c')
            && forall s :: 0 <= s < |c.streams| ==>
                 && c'.streams[s].discarding == c.streams[s].discarding
                 && (!c.streams[s].discarding ==>
                       c'.streams[s].fifo == if m.RecordMsg? && h == OnPull(s) then c.streams[s].fifo + [m.rec] else c.streams[s].fifo)
  {
    match m
    case RecordMsg(_) =>
    case Success(hasMore, qid) => SuccessBuffers(c, h, hasMore, qid);
    case Failure(fatal) => FailureBuffers(c, h, fatal);
    case Ignored => IgnoredBuffers(c, h);
  }

  lemma {:induction false} DeliveredPaired(w: World, ch: Choice)
    requires Wired(w) && Available(w.p, ch)
    ensures Paired(Delivered(w, ch).0)
  {
    WiredInRange(w);
    var v := Delivered(w, ch).0;
    HandledBuffers(w.c.(handlers := w.c.handlers[1..]), w.c.handlers[0], ch.msg);
    if ch.msg.RecordMsg? {
      assert v.c.handlers == w.c.handlers;
    } else {
      assert v.c.handlers == w.c.handlers[1..] && v.p.inbox == w.p.inbox[1..];
    }
  }

  lemma {:induction false} DeliveredKeepsAll(w: World, ch: Choice)
    requires Wired(w) && Available(w.p, ch)
    ensures NothingLost(Delivered(w, ch).0)
  {
    WiredInRange(w);
    var c := w.c.(handlers := w.c.handlers[1..]);
    var v := Delivered(w, ch).0;
    HandledBuffers(c, w.c.handlers[0], ch.msg);
    forall s | 0 <= s < |v.c.streams| && !v.c.streams[s].discarding
      ensures v.hist[s].got + v.c.streams[s].fifo == v.hist[s].sent
    {
      var r := w.p.inbox[0];
      if ch.msg.RecordMsg? && r.Pull? && r.sid == s {
        assert v.hist[s].sent == w.hist[s].got + w.c.streams[s].fifo + [ch.msg.rec];
        assert v.c.streams[s].fifo == w.c.streams[s].fifo + [ch.msg.rec];
      }
    }
  }

  /** Receives one message and runs the front handler on it; the flag says whether that succeeded. */
  function Receive(w: World): (r: (World, bool))
    requires Wired(w)
    ensures Wired(r.0) && |r.0.choices| <= |w.choices| && |r.0.c.streams| == |w.c.streams| && r.0.hung == w.hung
    ensures r.1 ==> |r.0.choices| < |w.choices|
  {
    if w.c.queueErr then (w, false)
    else if w.choices == [] then (IoError(w.(c := w.c.(queueErr := true))), false)
    else
      var w1 := w.(choices := w.choices[1..]);
      if !Available(w.p, w.choices[0]) then (IoError(w1.(c := w.c.(queueErr := true))), false)
      else
        WiredInRange(w1);
        DeliveredPaired(w1, w.choices[0]);
        DeliveredKeepsAll(w1, w.choices[0]);
        HandledBuffers(w.c.(handlers := w.c.handlers[1..]), w.c.handlers[0], w.choices[0].msg);
        Delivered(w1, w.choices[0])
  }

  lemma {:induction false} ReceiveDelivers(w: World)
    requires Wired(w) && !w.c.queueErr && w.choices != [] && Available(w.p, w.choices[0])
    ensures var c := w.c.(handlers := w.c.handlers[1..]);
            && InRange(c) && HandlerInRange(w.c.handlers[0], |c.streams|)
            && Receive(w) == (World(Handle(c, w.c.handlers[0], w.choices[0].msg).0, Answered(w.p, w.choices[0]),
                                    w.choices[1..], Noted(w.hist, w.p.inbox[0], w.choices[0]), w.hung,
                                    Completed(w.complete, w.p.inbox[0], w.choices[0].msg)),
                              Handle(c, w.c.handlers[0], w.choices[0].msg).1)
  {
    WiredInRange(w);
  }

  lemma {:induction false} ReceiveBreaks(w: World)
    requires Wired(w) && !w.c.queueErr && (w.choices == [] || !Available(w.p, w.choices[0]))
    ensures InRange(w.c)
    ensures Receive(w) == (w.(c := SetError(w.c.(queueErr := true), true),
                              choices := if w.choices == [] then [] else w.choices[1..]), false)
  {
    WiredInRange(w);
  }

  /** Receives until every request is answered or a receive fails. */
  function ReceiveAll(w: World): (r: (World, bool))
    requires Wired(w)
    ensures Wired(r.0) && |r.0.choices| <= |w.choices| && |r.0.c.streams| == |w.c.streams| && r.0.hung == w.hung
    ensures r.1 ==> r.0.c.handlers == [] && (w.c.handlers != [] ==> |r.0.choices| < |w.choices|)
    decreases |w.choices|
  {
    if w.c.handlers == [] then (w, true) else
    var (w1, ok) := Receive(w);
    if !ok then (w1, false) else ReceiveAll(w1)
  }

  // --- bolt5.go: moving streams about ---------------------------------------------------------------

  /** `x` stored as stream `s`, which must keep its buffer. */
  function SetStream(w: World, s: nat, x: Stream): (v: World)
    requires Wired(w) && s < |w.c.streams|
    requires x.fifo == w.c.streams[s].fifo && (w.c.streams[s].discarding ==> x.discarding)
    ensures Wired(v) && v.choices == w.choices && v.c.handlers == w.c.handlers && |v.c.streams| == |w.c.streams|
  {
    w.(c := w.c.(streams := w.c.streams[s := x]))
  }

  /** The qid to put on a PULL or DISCARD: none when the stream is the one last opened. */
  function WireQid(c: Conn, s: nat): Option<int>
    requires s < |c.streams|
  {
    if c.st == StreamingTx && c.streams[s].qid != c.lastQid then Some(c.streams[s].qid) else None
  }

  function AppendPull(w: World, s: nat): (v: World)
    requires Wired(w) && s < |w.c.streams|
    ensures Wired(v) && v.choices == w.choices && |v.c.streams| == |w.c.streams|
  {
    if w.c.st == Streaming || w.c.st == StreamingTx
    then Append(w, Pull(w.c.streams[s].fetchSize, WireQid(w.c, s), s))
    else w
  }

  function BufferStream(w: World): (v: World)
    requires Wired(w)
    ensures Wired(v) && |v.c.streams| == |w.c.streams|
  {
    if w.c.curr.None? then w else BufferLoop(w, w.c.curr.value)
  }

  function BufferLoop(w: World, s: nat): (v: World)
    requires Wired(w) && s < |w.c.streams|
    ensures Wired(v) && |v.c.streams| == |w.c.streams|
    decreases |w.choices|, if w.c.handlers == [] then 1 else 0
  {
    var (w1, ok) := ReceiveAll(w);
    if !ok || w1.c.err then w1 else
    var x := w1.c.streams[s];
    if x.sum || x.err then w1
    else if !x.endOfBatch then w1.(hung := true)
    else
      var w2 := Send(AppendPull(SetStream(w1, s, x.(fetchSize := -1)), s));
      if w2.c.err then w2
      else if w2.c.handlers == [] then w2.(hung := true)
      else BufferLoop(w2, s)
  }

  function PauseStream(w: World): (v: World)
    requires Wired(w)
    ensures Wired(v) && |v.c.streams| == |w.c.streams|
  {
    if w.c.curr.None? then w else
    var (w1, ok) := ReceiveAll(w);
    if !ok || w1.c.err then w1 else
    var x := w1.c.streams[w.c.curr.value];
    if x.sum || x.err || !x.endOfBatch then w1 else w1.(c := w1.c.(curr := None))
  }

  function ResumeStream(w: World, s: nat): (v: World)
    requires Wired(w) && s < |w.c.streams|
    ensures Wired(v) && |v.c.streams| == |w.c.streams|
  {
    Send(AppendPull(if w.c.curr.Some? then w else w.(c := w.c.(curr := Some(s))), s))
  }

  function DiscardStream(w: World): (v: World)
    requires Wired(w)
    ensures Wired(v) && |v.c.streams| == |w.c.streams|
  {
    if (w.c.st != Streaming && w.c.st != StreamingTx) || w.c.curr.None? then w
    else
      var s := w.c.curr.value;
      DiscardLoop(SetStream(w, s, w.c.streams[s].(discarding := true)), s, false)
  }

  /** Asks for all the rest to be discarded. */
  function DiscardAsked(w: World, s: nat): (v: World)
    requires Wired(w) && s < |w.c.streams|
    ensures Wired(v) && |v.choices| <= |w.choices| && |v.c.streams| == |w.c.streams| && v.c.handlers != []
  {
    Send(Append(SetStream(w, s, w.c.streams[s].(fetchSize := -1)), Discard(-1, WireQid(w.c, s), s)))
  }

  /** Takes the stream out of the open ones, finished or not. */
  function Dropped(w: World, s: nat): (v: World)
    requires Wired(w) && s < |w.c.streams|
    ensures Wired(v) && |v.c.streams| == |w.c.streams|
  {
    w.(c := CheckStreams(RemoveStream(w.c, s)))
  }

  function DiscardLoop(w: World, s: nat, discarded: bool): (v: World)
    requires Wired(w) && s < |w.c.streams| && (discarded ==> w.c.handlers != [])
    ensures Wired(v) && |v.c.streams| == |w.c.streams|
    decreases |w.choices|, if discarded then 0 else 1
  {
    var (w1, ok) := ReceiveAll(w);
    if !ok || w1.c.err then w1 else
    var x := w1.c.streams[s];
    if x.sum || x.err then w1
    else if x.endOfBatch && discarded then Dropped(w1, s)
    else
      var w2 := DiscardAsked(w1, s);
      if w2.c.err then w2 else DiscardLoop(w2, s, true)
  }

  function DiscardAllStreams(w: World): (v: World)
    requires Wired(w)
    ensures Wired(v)
  {
    if w.c.st != Streaming && w.c.st != StreamingTx then w else
    var w1 := DiscardStream(w);
    w1.(c := CheckStreams(ResetStreams(w1.c)))
  }

  // --- bolt5.go: the public calls -------------------------------------------------------------------

  const FETCH_SIZE := 1000

  function NormalizeFetchSize(n: int): int
  {
    if n < 0 then -1 else if n == 0 then FETCH_SIZE else n
  }

  function NewStream(fetchSize: int): Stream
  {
    Stream(false, [], false, false, 0, fetchSize, 0, false, false)
  }

  /** Writes RUN and PULL for a new stream. */
  function Open(w: World, fetchSize: int): (v: World)
    requires Wired(w)
    ensures Wired(v) && |v.c.streams| == |w.c.streams| + 1
  {
    var s := |w.c.streams|;
    var w1 := w.(c := w.c.(streams := w.c.streams + [NewStream(fetchSize)]), hist := w.hist + [History([], [], [])]);
    Send(Append(Append(w1, Run(s)), Pull(fetchSize, None, s)))
  }

  /** Reads answers until RUN's has arrived; those to earlier PULLs come first. */
  function AwaitAttached(w: World, s: nat): (r: (World, bool))
    requires Wired(w) && s < |w.c.streams|
    ensures Wired(r.0) && |r.0.c.streams| == |w.c.streams|
    decreases |w.choices|
  {
    if w.c.streams[s].attached then (w, true) else
    var (w1, ok) := Receive(w);
    if !ok || w1.c.err then (w1, false) else AwaitAttached(w1, s)
  }

  /** Before a new query: buffer the auto-commit stream, or pause the transaction's current one. */
  function MakeRoom(w: World): (v: World)
    requires Wired(w)
    ensures Wired(v) && |v.c.streams| == |w.c.streams|
  {
    if w.c.st == Streaming then BufferStream(w) else if w.c.st == StreamingTx then PauseStream(w) else w
  }

  /** Awaits RUN's answer; from then on the connection is streaming. */
  function StartStreaming(w: World, s: nat): (r: (World, Outcome))
    requires Wired(w) && s < |w.c.streams|
    ensures Wired(r.0)
  {
    var (w3, ok) := AwaitAttached(w, s);
    if !ok then (w3, Error)
    else if w3.c.st == Ready then (w3.(c := w3.c.(st := Streaming)), Done)
    else if w3.c.st == Tx then (w3.(c := w3.c.(st := StreamingTx)), Done)
    else (w3, Done)
  }

  function OpenAndAttach(w: World, fetchSize: int): (r: (World, Outcome))
    requires Wired(w)
    ensures Wired(r.0)
  {
    var w2 := Open(w, fetchSize);
    if w2.c.err then (w2, Error) else StartStreaming(w2, |w.c.streams|)
  }

  function RunQuery(w: World, rawFetchSize: int): (r: (World, Outcome))
    requires Wired(w)
    ensures Wired(r.0)
  {
    var w1 := MakeRoom(w);
    if w1.hung || w1.c.err || w1.c.st !in {Tx, Ready, StreamingTx} then (w1, Error)
    else OpenAndAttach(w1, NormalizeFetchSize(rawFetchSize))
  }

  function AutoCommitRun(w: World, rawFetchSize: int): (r: (World, Outcome))
    requires Wired(w)
    ensures Wired(r.0)
  {
    if w.c.err || w.c.st !in {Streaming, Ready} then (w, Error) else RunQuery(w, rawFetchSize)
  }

  function RunTx(w: World, h: nat, rawFetchSize: int): (r: (World, Outcome))
    requires Wired(w)
    ensures Wired(r.0)
  {
    if h != w.c.txId then (w, Error) else RunQuery(w, rawFetchSize)
  }

  /** Takes the front record out of the stream's buffer and hands it to the caller. */
  function TakeRecord(w: World, s: nat): (v: World)
    requires Wired(w) && s < |w.c.streams| && w.c.streams[s].fifo != []
    ensures Wired(v)
  {
    var x := w.c.streams[s];
    var h := w.hist[s];
    assert h.got + x.fifo == (h.got + [x.fifo[0]]) + x.fifo[1..];
    w.(c := w.c.(streams := w.c.streams[s := x.(fifo := x.fifo[1..])]),
       hist := w.hist[s := h.(got := h.got + [x.fifo[0]])])
  }

  /** Asks for the next batch when the last one has ended. */
  function PullMore(w: World, s: nat): (v: World)
    requires Wired(w) && s < |w.c.streams|
    ensures Wired(v) && |v.choices| <= |w.choices| && |v.c.streams| == |w.c.streams|
  {
    if !w.c.streams[s].endOfBatch then w else
    var w1 := Send(AppendPull(w, s));
    if w1.c.err then w1 else SetStream(w1, s, w1.c.streams[s].(endOfBatch := false))
  }

  function NextRecord(w: World, s: nat): (r: (World, Outcome))
    requires Wired(w) && s < |w.c.streams|
    ensures Wired(r.0)
    decreases |w.choices|
  {
    var x := w.c.streams[s];
    if x.fifo != [] then (TakeRecord(w, s), Rec(x.fifo[0]))
    else if x.err then (w, Error)
    else if x.sum then (w, Summary)
    else
      var w1 := PullMore(w, s);
      if x.endOfBatch && w1.c.err then (w1, Error)
      else if w1.c.handlers == [] then (w1, NoMoreResults)
      else
        var (w2, ok) := Receive(w1);
        if !ok || w2.c.err then (w2, Error) else NextRecord(w2, s)
  }

  /** Makes `s` current, pausing the stream that is; false when pausing failed. */
  function SwitchTo(w: World, s: nat): (r: (World, bool))
    requires Wired(w) && s < |w.c.streams|
    ensures Wired(r.0) && |r.0.c.streams| == |w.c.streams|
  {
    if w.c.curr == Some(s) then (w, true) else
    var w1 := PauseStream(w);
    if w1.c.err then (w1, false) else (ResumeStream(w1, s), true)
  }

  predicate MayDrain(w: World, s: nat)
    requires s < |w.c.streams|
  {
    w.c.streams[s].key == w.c.key && !w.c.err && (w.c.st == Streaming || w.c.st == StreamingTx)
  }

  function Consume(w: World, s: nat): (r: (World, Outcome))
    requires Wired(w) && s < |w.c.streams|
    ensures Wired(r.0)
  {
    var x := w.c.streams[s];
    if x.err then (w, Error)
    else if x.sum then (w, Summary)
    else if !MayDrain(w, s) then (w, Error)
    else
      var (w1, ok) := SwitchTo(w, s);
      if !ok then (w1, Error) else
      var w2 := DiscardStream(w1);
      var y := w2.c.streams[s];
      (w2, if y.err then Error else if y.sum then Summary else Done)
  }

  function Buffer(w: World, s: nat): (r: (World, Outcome))
    requires Wired(w) && s < |w.c.streams|
    ensures Wired(r.0)
  {
    var x := w.c.streams[s];
    if x.sum || x.err then (w, if x.err && x.fifo == [] then Error else Done)
    else if !MayDrain(w, s) then (w, Error)
    else
      var (w1, ok) := SwitchTo(w, s);
      if !ok then (w1, Error) else
      var w2 := BufferStream(w1);
      var y := w2.c.streams[s];
      (w2, if y.err && y.fifo == [] then Error else Done)
  }

  /** Queues a request and, if `sync`, sends it and awaits every answer. */
  function Exchange(w: World, r: Request, sync: bool): (e: (World, bool))
    requires Wired(w) && RequestInRange(r, |w.c.streams|)
    ensures Wired(e.0) && e.0.hung == w.hung
  {
    var w1 := Append(w, r);
    if !sync then (w1, true) else
    var w2 := Send(w1);
    if w2.c.err then (w2, false) else ReceiveAll(w2)
  }

  /** Makes all outstanding streams unsafe to use and begins a transaction. */
  function BeginNow(w: World, id: nat, sync: bool): (r: (World, Outcome))
    requires Wired(w)
    ensures Wired(r.0)
  {
    var w2 := w.(c := ResetStreams(w.c));
    if w2.c.err || w2.c.st != Ready then (w2, Error) else
    var (w3, ok) := Exchange(w2, Begin, sync);
    if !ok || w3.c.err then (w3, Error)
    else (w3.(c := w3.c.(st := Tx, txId := id)), Done)
  }

  function TxBegin(w: World, id: nat, sync: bool): (r: (World, Outcome))
    requires Wired(w)
    ensures Wired(r.0)
  {
    var w1 := if w.c.st == Streaming then BufferStream(w) else w;
    if w1.hung || (w.c.st == Streaming && w1.c.err) then (w1, Error) else BeginNow(w1, id, sync)
  }

  /** COMMIT or ROLLBACK, after discarding what is still streaming. */
  function EndTx(w: World, h: nat, commit: bool): (r: (World, Outcome))
    requires Wired(w)
    ensures Wired(r.0)
  {
    if h != w.c.txId then (w, Error) else
    var w1 := DiscardAllStreams(w);
    if w1.c.err || w1.c.st != Tx then (w1, Error) else
    var (w3, ok) := Exchange(w1, if commit then Commit else Rollback, true);
    if !ok || w3.c.err then (w3, Error)
    else (w3.(c := w3.c.(st := Ready)), Done)
  }

  function ForceReset(w: World): (v: World)
    requires Wired(w)
    ensures Wired(v)
  {
    if w.c.st == Dead then w else
    var (w1, ok) := ReceiveAll(w.(c := w.c.(err := false)));
    if !ok || w1.c.err then w1 else
    var w2 := Send(Append(w1, Request.Reset));
    if w2.c.err then w2 else Receive(w2).0
  }

  function ResetConn(w: World): (v: World)
    requires Wired(w)
    ensures Wired(v)
  {
    var w1 := if w.c.st == Ready then w else ForceReset(w);
    w1.(c := ResetStreams(w1.c.(txId := 0, err := false, lastQid := -1)))
  }

  datatype Op =
    | OpTelemetry
    | OpRun(fetchSize: int)
    | OpTxBegin(id: nat, sync: bool)
    | OpRunTx(h: nat, fetchSize: int)
    | OpNext(s: nat)
    | OpConsume(s: nat)
    | OpBuffer(s: nat)
    | OpEndTx(h: nat, commit: bool)
    | OpReset
    | OpForceReset

  /** One call on the connection. A call that hangs never returns, so none follows it. */
  function Call(w: World, op: Op): (r: (World, Outcome))
    requires Wired(w)
    ensures Wired(r.0)
  {
    if w.hung then (w, Error) else
    match op
    case OpTelemetry => (Append(w, Other), Done)
    case OpRun(n) => AutoCommitRun(w, n)
    case OpTxBegin(id, sync) => TxBegin(w, id, sync)
    case OpRunTx(h, n) => RunTx(w, h, n)
    case OpNext(s) => if s < |w.c.streams| then NextRecord(w, s) else (w, Error)
    case OpConsume(s) => if s < |w.c.streams| then Consume(w, s) else (w, Error)
    case OpBuffer(s) => if s < |w.c.streams| then Buffer(w, s) else (w, Error)
    case OpEndTx(h, commit) => EndTx(w, h, commit)
    case OpReset => (ResetConn(w), Done)
    case OpForceReset => (ForceReset(w), Done)
  }

  function Calls(w: World, ops: seq<Op>): (v: World)
    requires Wired(w)
    ensures Wired(v)
    decreases |ops|
  {
    if ops == [] then w else Calls(Call(w, ops[0]).0, ops[1..])
  }

  /** A connection as it is once set up; `choices` is what will happen on its socket. */
  function NewConnection(honest: bool, choices: seq<Choice>): (w: World)
    ensures Wired(w)
  {
    World(Conn(Ready, false, false, None, 0, 1, -1, 0, [], []), Peer(honest, [], 0, false, false, -1, {}, map[], []), choices, [], false, {})
  }

  /**
   * In every state of every connection, whatever its peer answers and whatever fails: the handlers
   * are those of the requests not finally answered, in order; and of every stream not being
   * discarded, what Next returned and what is buffered is what the peer sent for that stream.
   */
  lemma {:induction false} EveryRun(honest: bool, choices: seq<Choice>, ops: seq<Op>)
    ensures var w := Calls(NewConnection(honest, choices), ops);
            && |w.c.handlers| == |w.p.inbox| && |w.hist| == |w.c.streams|
            && (forall i :: 0 <= i < |w.p.inbox| ==> w.c.handlers[i] == HandlerFor(w.p.inbox[i]))
            && (forall s :: 0 <= s < |w.c.streams| && !w.c.streams[s].discarding ==>
                  w.hist[s].got + w.c.streams[s].fifo == w.hist[s].sent)
  {
  }
}
