/**
 * The connection pool. Borrow, Return, CleanUp and deactivate run concurrently; each critical
 * section of theirs is one atomic step here, and a thread's program counter says which one is next
 * and what the thread has in hand.
 */
module Pool {
  import opened Bytes

  type Name = string

  // ---------------------------------------------------------------------------------------------
  // server.go
  // ---------------------------------------------------------------------------------------------

  /** `failedAt` is when a connect last failed; connections are named by the order they were made in. */
  datatype Server = Server(idle: seq<nat>, busy: seq<nat>, reservations: int, closing: bool, failedAt: Option<int>)

  const REMEMBER_FAILED_CONNECT := 180_000_000_000

  function Size(s: Server): int
  {
    |s.busy| + |s.idle| + s.reservations
  }

  predicate HasFailedConnect(s: Server, now: int)
  {
    s.failedAt.Some? && now - s.failedAt.value < REMEMBER_FAILED_CONNECT
  }

  /** The list without the connections that are too old. */
  function Fresh(l: seq<nat>, stale: set<nat>): seq<nat>
  {
    if l == [] then [] else (if l[0] in stale then [] else [l[0]]) + Fresh(l[1..], stale)
  }

  function UnregisterBusy(s: Server, c: nat): Server
  {
    s.(busy := Without(s.busy, c))
  }

  // ---------------------------------------------------------------------------------------------
  // Pool state
  // ---------------------------------------------------------------------------------------------

  /** What is known of a connection: its server, whether it supports routing, how often it was closed. */
  datatype Info = Info(name: Name, ssr: bool, closes: nat)

  /**
   * Where a thread is. `todo[0]` is the server it is trying, `retry` that a wake-up sent it there,
   * and `inside` that it never left tryBorrow, which looks whether the pool is closed only once.
   */
  datatype Pc =
    | Try(todo: seq<Name>, names: seq<Name>, err: bool, retry: bool, inside: bool)
    | Check(todo: seq<Name>, names: seq<Name>, c: nat)
    | DropConn(todo: seq<Name>, names: seq<Name>, c: nat, err: bool)
    | Connect(todo: seq<Name>, names: seq<Name>, srv: nat)
    | Full(names: seq<Name>)
    | Locked(names: seq<Name>)
    | Wait(names: seq<Name>, woken: bool)
    | TimedOut(names: seq<Name>, woken: bool)
    | Sweep(c: nat)
    | PutBack(c: nat)
    | Notify

  /**
   * `heap` holds every server record ever made and `servers` maps names to those in use, so that a
   * thread can keep a record across an unlock as the driver does. `held` are the connections lent
   * out. `threads` has an entry for each thread inside the pool. `queue` lists waiting threads and
   * `queueMut` the thread holding the queue's lock, when it is held across steps.
   */
  datatype State = State(
    max: nat, heap: seq<Server>, servers: map<Name, nat>, conns: seq<Info>, ssrOn: int, ssrOff: int,
    held: set<nat>, threads: map<nat, Pc>, queue: seq<nat>, queueMut: Option<nat>, closed: bool)

  function Init(max: nat): State
  {
    State(max, [], map[], [], 0, 0, {}, map[], [], None, false)
  }

  function SetServer(p: State, i: nat, s: Server): State
    requires i < |p.heap|
  {
    p.(heap := p.heap[i := s])
  }

  function SetThread(p: State, t: nat, pc: Pc): State
  {
    p.(threads := p.threads[t := pc])
  }

  function Leave(p: State, t: nat): State
  {
    p.(threads := p.threads - {t})
  }

  /** ssr_tracker.go and closeConnection: count the connection out and close it. */
  function CloseConn(p: State, c: nat): State
    requires c < |p.conns|
  {
    p.(conns := p.conns[c := p.conns[c].(closes := p.conns[c].closes + 1)],
       ssrOn := if p.conns[c].ssr then p.ssrOn - 1 else p.ssrOn,
       ssrOff := if p.conns[c].ssr then p.ssrOff else p.ssrOff - 1)
  }

  function CloseAll(p: State, l: seq<nat>): (q: State)
    requires forall i :: 0 <= i < |l| ==> l[i] < |p.conns|
    ensures |q.conns| == |p.conns| && q == p.(conns := q.conns, ssrOn := q.ssrOn, ssrOff := q.ssrOff)
    decreases |l|
  {
    if l == [] then p else CloseAll(CloseConn(p, l[0]), l[1..])
  }

  // ---------------------------------------------------------------------------------------------
  // The invariant
  // ---------------------------------------------------------------------------------------------

  function PcConn(pc: Pc): Option<nat>
  {
    match pc
    case Check(_, _, c) => Some(c)
    case DropConn(_, _, c, _) => Some(c)
    case Sweep(c) => Some(c)
    case PutBack(c) => Some(c)
    case _ => None
  }

  /** The connection is in somebody's hands: lent out, or with a thread inside the pool. */
  predicate Owned(p: State, c: nat)
  {
    c in p.held || exists t :: t in p.threads && PcConn(p.threads[t]) == Some(c)
  }

  function OwnedOf(p: State, n: Name): set<nat>
  {
    set c | 0 <= c < |p.conns| && p.conns[c].name == n && Owned(p, c)
  }

  function OpenOf(conns: seq<Info>, n: Name): set<nat>
  {
    set c | 0 <= c < |conns| && conns[c].closes == 0 && conns[c].name == n
  }

  function Connecting(threads: map<nat, Pc>, i: nat): set<nat>
  {
    set t | t in threads && threads[t].Connect? && threads[t].srv == i
  }

  /** Distinct names have distinct records; a record no longer in use is empty. */
  predicate Mapped(p: State)
  {
    && (forall n :: n in p.servers ==> p.servers[n] < |p.heap|)
    && (forall m, n :: m in p.servers && n in p.servers && p.servers[m] == p.servers[n] ==> m == n)
    && (forall i :: 0 <= i < |p.heap| && i !in p.servers.Values ==>
          p.heap[i].idle == [] && p.heap[i].busy == [] && p.heap[i].reservations == 0)
  }

  /**
   * Every open connection stands in exactly one list of exactly one record, the one mapped under
   * its name, and exactly once; it stands in busy precisely when somebody has it.
   */
  predicate Placed(p: State)
  {
    && (forall n :: n in p.servers && p.servers[n] < |p.heap| ==>
          && multiset(p.heap[p.servers[n]].idle) + multiset(p.heap[p.servers[n]].busy) == multiset(OpenOf(p.conns, n))
          && multiset(p.heap[p.servers[n]].busy) == multiset(OwnedOf(p, n)))
    && (forall c :: 0 <= c < |p.conns| ==> p.conns[c].closes <= 1 && (p.conns[c].closes == 0 ==> p.conns[c].name in p.servers))
  }

  /** Nobody has a connection another has, and all that is had is open. */
  ghost predicate OwnedOnce(p: State)
  {
    && (forall c: nat :: Owned(p, c) ==> c < |p.conns| && p.conns[c].closes == 0)
    && (forall t :: t in p.threads && PcConn(p.threads[t]).Some? ==> PcConn(p.threads[t]).value !in p.held)
    && (forall t, u :: t in p.threads && u in p.threads && t != u && PcConn(p.threads[t]).Some? ==>
          PcConn(p.threads[t]) != PcConn(p.threads[u]))
  }

  /** A reservation is a thread connecting, and it holds the record in use under the server's name. */
  predicate Reserved(p: State)
  {
    && (forall i :: 0 <= i < |p.heap| ==> p.heap[i].reservations == |Connecting(p.threads, i)|)
    && (forall t :: t in p.threads && p.threads[t].Connect? ==>
          p.threads[t].todo != [] && p.threads[t].todo[0] in p.servers && p.threads[t].srv == p.servers[p.threads[t].todo[0]])
    && (forall t :: t in p.threads && (p.threads[t].Check? || p.threads[t].DropConn?) ==>
          p.threads[t].todo != [] && p.threads[t].c < |p.conns| && p.conns[p.threads[t].c].name == p.threads[t].todo[0])
  }

  predicate Bounded(p: State)
  {
    p.max >= 1 && forall i :: 0 <= i < |p.heap| ==> Size(p.heap[i]) <= p.max
  }

  function OpenSsr(conns: seq<Info>, ssr: bool): set<nat>
  {
    set c | 0 <= c < |conns| && conns[c].closes == 0 && conns[c].ssr == ssr
  }

  /** The two counters count the open connections with and without server-side routing. */
  predicate Tracked(p: State)
  {
    p.ssrOn == |OpenSsr(p.conns, true)| && p.ssrOff == |OpenSsr(p.conns, false)|
  }

  ghost predicate Inv(p: State)
  {
    Mapped(p) && Placed(p) && OwnedOnce(p) && Reserved(p) && Bounded(p) && Tracked(p)
  }

  lemma {:induction false} IdleInRange(p: State, n: Name)
    requires Mapped(p) && Placed(p) && n in p.servers
    ensures forall c :: c in p.heap[p.servers[n]].idle ==> c < |p.conns| && c in OpenOf(p.conns, n)
    ensures forall c :: c in p.heap[p.servers[n]].busy ==> c < |p.conns| && c in OpenOf(p.conns, n)
  {
    var s := p.heap[p.servers[n]];
    forall c | c in s.idle || c in s.busy ensures c in OpenOf(p.conns, n) {
      assert c in multiset(s.idle) + multiset(s.busy);
      assert c in multiset(OpenOf(p.conns, n));
    }
  }

  /** What the steps need in order to be defined. */
  predicate Ranges(p: State)
  {
    && (forall n :: n in p.servers ==> p.servers[n] < |p.heap|)
    && (forall i, k :: 0 <= i < |p.heap| && 0 <= k < |p.heap[i].idle| ==> p.heap[i].idle[k] < |p.conns|)
    && (forall t :: t in p.threads ==> PcInRange(p, p.threads[t]))
  }

  predicate PcInRange(p: State, pc: Pc)
  {
    match pc
    case Connect(todo, _, srv) => todo != [] && srv < |p.heap|
    case Check(todo, _, c) => todo != [] && c < |p.conns|
    case DropConn(todo, _, c, _) => todo != [] && c < |p.conns|
    case Sweep(c) => c < |p.conns|
    case PutBack(c) => c < |p.conns|
    case _ => true
  }

  lemma {:induction false} InvRanges(p: State)
    requires Inv(p)
    ensures Ranges(p)
  {
    forall i, k | 0 <= i < |p.heap| && 0 <= k < |p.heap[i].idle| ensures p.heap[i].idle[k] < |p.conns| {
      assert i in p.servers.Values;
      var n :| n in p.servers && p.servers[n] == i;
      IdleInRange(p, n);
      assert p.heap[i].idle[k] in p.heap[i].idle;
    }
    forall t | t in p.threads ensures PcInRange(p, p.threads[t]) {
      if PcConn(p.threads[t]).Some? { assert Owned(p, PcConn(p.threads[t]).value); }
    }
  }

  // ---------------------------------------------------------------------------------------------
  // The steps
  // ---------------------------------------------------------------------------------------------

  datatype Step =
    | Start(t: nat, names: seq<Name>, todo: seq<Name>)
    | TryServer(t: nat)
    | Healthy(t: nat)
    | Unhealthy(t: nat, err: bool)
    | DiscardConn(t: nat, now: int, fatal: bool)
    | Connected(t: nat, ssr: bool)
    | ConnectFailed(t: nat, now: int, penalize: bool, fatal: bool)
    | Lock(t: nat, names: seq<Name>, todo: seq<Name>)
    | GiveUp(t: nat)
    | Enqueue(t: nat)
    | WakeUp(t: nat, names: seq<Name>, todo: seq<Name>)
    | Timeout(t: nat)
    | Abandon(t: nat, names: seq<Name>, todo: seq<Name>)
    | Return(t: nat, c: nat)
    | SweepIdle(t: nat, stale: set<nat>)
    | ReturnAlive(t: nat)
    | ReturnDead(t: nat, now: int)
    | WakeFront(t: nat)
    | CleanUp(n: Name, stale: set<nat>, now: int)
    | Penalties(n: Name, stale: set<nat>)
    | Deactivate(n: Name)
    | MarkClosed
    | WakeOnClose

  /** The order in which to try the servers is some order of the names given, by penalty. */
  predicate Reordered(todo: seq<Name>, names: seq<Name>)
  {
    multiset(todo) == multiset(names)
  }

  /** The top of Borrow's loop: with the names the router gives this time, unless there are none. */
  function Round(p: State, t: nat, names: seq<Name>, todo: seq<Name>, retry: bool): (q: State)
    ensures q.max == p.max
  {
    if p.closed || names == [] then Leave(p, t) else SetThread(p, t, Try(todo, names, false, retry, false))
  }

  /** Some named server has an idle connection or room for another; a server not in the map has none. */
  predicate AnyHasCapacity(p: State, names: seq<Name>)
    requires Ranges(p)
  {
    exists n :: n in names && n in p.servers
      && (p.heap[p.servers[n]].idle != [] || Size(p.heap[p.servers[n]]) < p.max)
  }

  predicate Enabled(p: State, a: Step)
  {
    match a
    case Start(t, names, todo) => t !in p.threads && Reordered(todo, names)
    case TryServer(t) => t in p.threads && p.threads[t].Try?
    case Healthy(t) => t in p.threads && p.threads[t].Check?
    case Unhealthy(t, _) => t in p.threads && p.threads[t].Check?
    case DiscardConn(t, _, _) => t in p.threads && p.threads[t].DropConn?
    case Connected(t, _) => t in p.threads && p.threads[t].Connect?
    case ConnectFailed(t, _, _, _) => t in p.threads && p.threads[t].Connect?
    case Lock(t, names, todo) => t in p.threads && p.threads[t].Full? && p.queueMut == None && Reordered(todo, names)
    case GiveUp(t) => t in p.threads && p.threads[t].Full?
    case Enqueue(t) => t in p.threads && p.threads[t].Locked?
    case WakeUp(t, names, todo) => t in p.threads && p.threads[t].Wait? && p.threads[t].woken && Reordered(todo, names)
    case Timeout(t) => t in p.threads && p.threads[t].Wait?
    case Abandon(t, names, todo) => t in p.threads && p.threads[t].TimedOut? && p.queueMut == None && Reordered(todo, names)
    case Return(t, c) => t !in p.threads && c in p.held
    case SweepIdle(t, _) => t in p.threads && p.threads[t].Sweep?
    case ReturnAlive(t) => t in p.threads && p.threads[t].PutBack?
    case ReturnDead(t, _) => t in p.threads && p.threads[t].PutBack?
    case WakeFront(t) => t in p.threads && p.threads[t].Notify? && p.queueMut == None
    case CleanUp(_, _, _) => true
    case Penalties(_, _) => true
    case Deactivate(_) => true
    case MarkClosed => true
    case WakeOnClose => p.closed && p.queueMut == None
  }

  /** Puts a token into the front waiter's channel and takes it off the queue. */
  function WakeFirst(p: State): (q: State)
    ensures q.max == p.max
  {
    if p.queue == [] then p else
    var t := p.queue[0];
    var q := p.(queue := p.queue[1..]);
    if t !in p.threads then q else
    match p.threads[t]
    case Wait(names, _) => SetThread(q, t, Wait(names, true))
    case TimedOut(names, _) => SetThread(q, t, TimedOut(names, true))
    case _ => q
  }

  /** Closes the idle connections of a server that are in `stale`. */
  function CloseIdle(p: State, n: Name, stale: set<nat>): (q: State)
    requires Ranges(p)
    ensures |q.heap| == |p.heap| && q == p.(heap := q.heap, conns := q.conns, ssrOn := q.ssrOn, ssrOff := q.ssrOff)
  {
    if n !in p.servers then p else
    var i := p.servers[n];
    var s := p.heap[i];
    CloseAll(SetServer(p, i, s.(idle := Fresh(s.idle, stale))), Stale(s.idle, stale))
  }

  function Stale(l: seq<nat>, stale: set<nat>): (r: seq<nat>)
    ensures forall i :: 0 <= i < |r| ==> r[i] in l && r[i] in stale
  {
    if l == [] then [] else (if l[0] in stale then [l[0]] else []) + Stale(l[1..], stale)
  }

  /** Out of busy and closed. */
  function BusyClosed(p: State, i: nat, c: nat): State
    requires c < |p.conns| && i < |p.heap|
  {
    CloseConn(SetServer(p, i, UnregisterBusy(p.heap[i], c)), c)
  }

  /** Out of busy and back to idle. */
  function BusyIdle(p: State, i: nat, c: nat): State
    requires i < |p.heap|
  {
    var s := UnregisterBusy(p.heap[i], c);
    SetServer(p, i, s.(idle := [c] + s.idle))
  }

  /** unregLocked: out of busy, closed, and the server forgotten if that was the last of it. */
  function Unregister(p: State, n: Name, c: nat, now: int): (q: State)
    requires c < |p.conns| && Ranges(p)
    ensures q == p.(heap := q.heap, servers := q.servers, conns := q.conns, ssrOn := q.ssrOn, ssrOff := q.ssrOff)
  {
    if n !in p.servers then CloseConn(p, c) else
    var s := UnregisterBusy(p.heap[p.servers[n]], c);
    var q := BusyClosed(p, p.servers[n], c);
    if Size(s) == 0 && !HasFailedConnect(s, now) then q.(servers := q.servers - {n}) else q
  }

  /** returnBusy: from busy to idle, or closed if the server is closing. */
  function PutIdle(p: State, n: Name, c: nat): (q: State)
    requires c < |p.conns| && Ranges(p)
    ensures q == p.(heap := q.heap, servers := q.servers, conns := q.conns, ssrOn := q.ssrOn, ssrOff := q.ssrOff)
  {
    if n !in p.servers then CloseConn(p, c) else
    var s := UnregisterBusy(p.heap[p.servers[n]], c);
    if !s.closing then BusyIdle(p, p.servers[n], c)
    else
      var q := BusyClosed(p, p.servers[n], c);
      if Size(s) == 0 then q.(servers := q.servers - {n}) else q
  }

  /** tryBorrow finds an idle connection: it goes to busy and into the thread's hands for its check. */
  function TakeIdle(p: State, t: nat, n: Name, pc: Pc): State
    requires n in p.servers && p.servers[n] < |p.heap| && p.heap[p.servers[n]].idle != []
  {
    var s := p.heap[p.servers[n]];
    SetThread(SetServer(p, p.servers[n], s.(closing := false, idle := s.idle[1..], busy := [s.idle[0]] + s.busy)), t, pc)
  }

  /** A reservation taken on the record in use. */
  function Reserve(p: State, t: nat, n: Name, pc: Pc): State
    requires n in p.servers && p.servers[n] < |p.heap|
  {
    var s := p.heap[p.servers[n]];
    SetThread(SetServer(p, p.servers[n], s.(closing := false, reservations := s.reservations + 1)), t, pc)
  }

  /** A server not in the map gets a new record, with this thread's reservation on it. */
  function AddServer(p: State, t: nat, n: Name, pc: Pc): State
  {
    SetThread(p.(heap := p.heap + [Server([], [], 1, false, None)], servers := p.servers[n := |p.heap|]), t, pc)
  }

  /** One pass of tryBorrow under the lock, on the server `todo[0]`. */
  function TryBorrow(p: State, t: nat, pc: Pc): (q: State)
    requires Ranges(p) && pc.Try? && pc.todo != []
    ensures t in q.threads && q == p.(heap := q.heap, servers := q.servers, threads := p.threads[t := q.threads[t]])
    ensures q.threads[t].Connect? || q.threads[t].Check? || q.threads[t].Try?
  {
    var n := pc.todo[0];
    if n !in p.servers then
      AddServer(p, t, n, Connect(pc.todo, pc.names, |p.heap|))
    else
      var i := p.servers[n];
      var s := p.heap[i];
      if s.idle != [] then
        TakeIdle(p, t, n, Check(pc.todo, pc.names, s.idle[0]))
      else if Size(s) >= p.max then
        SetThread(SetServer(p, i, s.(closing := false)), t, Try(pc.todo[1..], pc.names, false, pc.retry, false))
      else
        Reserve(p, t, n, Connect(pc.todo, pc.names, i))
  }

  function Apply(p: State, a: Step): (q: State)
    requires Ranges(p) && Enabled(p, a)
    ensures q.max == p.max
  {
    match a
    case Start(t, names, todo) => Round(p, t, names, todo, false)
    case TryServer(t) =>
      var pc := p.threads[t];
      if pc.todo == [] then (if pc.err then Leave(p, t) else SetThread(p, t, Full(pc.names)))
      else if p.closed && !pc.inside then Leave(p, t)
      else TryBorrow(p, t, pc)
    case Healthy(t) => Leave(p, t).(held := p.held + {p.threads[t].c})
    case Unhealthy(t, err) => SetThread(p, t, DropConn(p.threads[t].todo, p.threads[t].names, p.threads[t].c, err))
    case DiscardConn(t, now, fatal) =>
      var pc := p.threads[t];
      var q := Unregister(p, pc.todo[0], pc.c, now);
      if !pc.err then SetThread(q, t, Try(pc.todo, pc.names, false, false, true))
      else if fatal then Leave(q, t)
      else SetThread(q, t, Try(pc.todo[1..], pc.names, true, false, false))
    case Connected(t, ssr) =>
      Register(p, t, p.threads[t].srv, p.threads[t].todo[0], ssr)
    case ConnectFailed(t, now, penalize, fatal) =>
      var pc := p.threads[t];
      var s := p.heap[pc.srv];
      var q := SetServer(p, pc.srv, s.(reservations := s.reservations - 1,
                                       failedAt := if penalize then Some(now) else s.failedAt));
      if fatal then Leave(q, t) else SetThread(q, t, Try(pc.todo[1..], pc.names, true, false, false))
    case Lock(t, names, todo) =>
      if AnyHasCapacity(p, p.threads[t].names) then Round(p, t, names, todo, false)
      else SetThread(p, t, Locked(p.threads[t].names)).(queueMut := Some(t))
    case GiveUp(t) => Leave(p, t)
    case Enqueue(t) => SetThread(p, t, Wait(p.threads[t].names, false)).(queue := p.queue + [t], queueMut := None)
    case WakeUp(t, names, todo) => Round(p, t, names, todo, true)
    case Timeout(t) => SetThread(p, t, TimedOut(p.threads[t].names, p.threads[t].woken))
    case Abandon(t, names, todo) =>
      var pc := p.threads[t];
      var q := p.(queue := Without(p.queue, t));
      if pc.woken then Round(WakeFirst(q), t, names, todo, true) else Leave(q, t)
    case Return(t, c) => SetThread(p, t, Sweep(c)).(held := p.held - {c})
    case SweepIdle(t, stale) =>
      var c := p.threads[t].c;
      SetThread(CloseIdle(p, p.conns[c].name, stale), t, PutBack(c))
    case ReturnAlive(t) => SetThread(PutIdle(p, p.conns[p.threads[t].c].name, p.threads[t].c), t, Notify)
    case ReturnDead(t, now) => SetThread(Unregister(p, p.conns[p.threads[t].c].name, p.threads[t].c, now), t, Notify)
    case WakeFront(t) => Leave(WakeFirst(p), t)
    case CleanUp(n, stale, now) =>
      var q := CloseIdle(p, n, stale);
      if n in q.servers && q.servers[n] < |q.heap| && Size(q.heap[q.servers[n]]) == 0
         && !HasFailedConnect(q.heap[q.servers[n]], now)
      then q.(servers := q.servers - {n}) else q
    case Penalties(n, stale) => CloseIdle(p, n, stale)
    case Deactivate(n) =>
      if n !in p.servers then p else
      var q := CloseIdle(p, n, set c | c in p.heap[p.servers[n]].idle);
      SetServer(q, q.servers[n], q.heap[q.servers[n]].(closing := true))
    case MarkClosed => p.(closed := true)
    case WakeOnClose => WakeFirst(p)
  }

  // ---------------------------------------------------------------------------------------------
  // Steps that move no connection
  // ---------------------------------------------------------------------------------------------

  predicate SameLists(a: seq<Server>, b: seq<Server>)
  {
    |a| == |b| && forall i :: 0 <= i < |a| ==>
      a[i].idle == b[i].idle && a[i].busy == b[i].busy && a[i].reservations == b[i].reservations
  }

  predicate ThreadsOk(p: State)
  {
    && (forall t :: t in p.threads && p.threads[t].Connect? ==>
          p.threads[t].todo != [] && p.threads[t].todo[0] in p.servers && p.threads[t].srv == p.servers[p.threads[t].todo[0]])
    && (forall t :: t in p.threads && (p.threads[t].Check? || p.threads[t].DropConn?) ==>
          p.threads[t].todo != [] && p.threads[t].c < |p.conns| && p.conns[p.threads[t].c].name == p.threads[t].todo[0])
  }

  lemma {:induction false} SamePlaces(p: State, q: State)
    requires Mapped(p) && Placed(p) && SameLists(p.heap, q.heap) && q.servers == p.servers && q.conns == p.conns
    requires forall c: nat :: Owned(q, c) == Owned(p, c)
    ensures Mapped(q) && Placed(q)
  {
    forall n | n in q.servers && q.servers[n] < |q.heap|
      ensures && multiset(q.heap[q.servers[n]].idle) + multiset(q.heap[q.servers[n]].busy) == multiset(OpenOf(q.conns, n))
              && multiset(q.heap[q.servers[n]].busy) == multiset(OwnedOf(q, n))
    {
      assert OwnedOf(q, n) == OwnedOf(p, n) && OpenOf(q.conns, n) == OpenOf(p.conns, n);
    }
  }

  /** If nobody's hands and no list change, neither does the invariant. */
  lemma {:induction false} QuietStep(p: State, q: State)
    requires Inv(p) && SameLists(p.heap, q.heap)
    requires q.servers == p.servers && q.conns == p.conns && q.max == p.max && q.ssrOn == p.ssrOn && q.ssrOff == p.ssrOff
    requires forall c: nat :: Owned(q, c) == Owned(p, c)
    requires forall i :: 0 <= i < |p.heap| ==> Connecting(q.threads, i) == Connecting(p.threads, i)
    requires OwnedOnce(q) && ThreadsOk(q)
    ensures Inv(q)
  {
    SamePlaces(p, q);
  }

  /** A program counter with neither a connection nor a reservation in hand. */
  predicate EmptyHanded(pc: Pc)
  {
    PcConn(pc) == None && !pc.Connect?
  }

  predicate NothingInHand(p: State, t: nat)
  {
    t in p.threads ==> EmptyHanded(p.threads[t])
  }

  /** Only thread `t` may have moved. */
  ghost predicate OnlyThread(p: State, q: State, t: nat)
  {
    forall u :: u != t ==> (u in p.threads <==> u in q.threads) && (u in p.threads ==> q.threads[u] == p.threads[u])
  }

  lemma {:induction false} EmptyHandsSame(p: State, q: State, t: nat)
    requires OwnedOnce(p) && Reserved(p) && q == p.(threads := q.threads) && OnlyThread(p, q, t)
    requires NothingInHand(p, t) && NothingInHand(q, t)
    ensures forall c: nat :: Owned(q, c) == Owned(p, c)
    ensures forall i :: 0 <= i < |p.heap| ==> Connecting(q.threads, i) == Connecting(p.threads, i)
    ensures OwnedOnce(q) && ThreadsOk(q)
  {
    forall c: nat ensures Owned(q, c) == Owned(p, c) {
      if u :| u in p.threads && PcConn(p.threads[u]) == Some(c) { assert u in q.threads && PcConn(q.threads[u]) == Some(c); }
    }
    forall i ensures Connecting(q.threads, i) == Connecting(p.threads, i) {}
  }

  lemma {:induction false} EmptyHandedMove(p: State, t: nat, pc: Pc)
    requires Inv(p) && NothingInHand(p, t) && EmptyHanded(pc)
    ensures Inv(SetThread(p, t, pc))
  {
    EmptyHandsSame(p, SetThread(p, t, pc), t);
    QuietStep(p, SetThread(p, t, pc));
  }

  lemma {:induction false} EmptyHandedLeave(p: State, t: nat)
    requires Inv(p) && NothingInHand(p, t)
    ensures Inv(Leave(p, t))
  {
    EmptyHandsSame(p, Leave(p, t), t);
    QuietStep(p, Leave(p, t));
  }

  lemma {:induction false} QueueMove(p: State, q: State)
    requires Inv(p) && q == p.(queue := q.queue, queueMut := q.queueMut, closed := q.closed)
    ensures Inv(q)
  {
    QuietStep(p, q);
  }

  lemma {:induction false} WakeFirstShape(p: State)
    ensures WakeFirst(p).threads.Keys == p.threads.Keys
    ensures WakeFirst(p) == p.(threads := WakeFirst(p).threads, queue := WakeFirst(p).queue)
    ensures forall u :: u in p.threads && !p.threads[u].Wait? && !p.threads[u].TimedOut? ==> WakeFirst(p).threads[u] == p.threads[u]
    ensures forall u :: u in p.threads && EmptyHanded(p.threads[u]) ==> EmptyHanded(WakeFirst(p).threads[u])
    ensures forall u :: u in p.threads && !EmptyHanded(p.threads[u]) ==> WakeFirst(p).threads[u] == p.threads[u]
  {
  }

  lemma {:induction false} WakeFirstInv(p: State)
    requires Inv(p)
    ensures Inv(WakeFirst(p))
  {
    WakeFirstShape(p);
    var q := WakeFirst(p);
    forall c: nat ensures Owned(q, c) == Owned(p, c) {
      if u :| u in p.threads && PcConn(p.threads[u]) == Some(c) { assert u in q.threads && PcConn(q.threads[u]) == Some(c); }
    }
    forall i ensures Connecting(q.threads, i) == Connecting(p.threads, i) {}
    QuietStep(p, q);
  }

  lemma {:induction false} SameOwnedHandOver(p: State, q: State, t: nat, c: nat)
    requires q == p.(threads := q.threads, held := q.held)
    requires (t in p.threads && PcConn(p.threads[t]) == Some(c)) != (c in p.held)
    requires (t in q.threads && PcConn(q.threads[t]) == Some(c)) != (c in q.held)
    requires t in p.threads ==> !p.threads[t].Connect? && (PcConn(p.threads[t]) == None || PcConn(p.threads[t]) == Some(c))
    requires t in q.threads ==> !q.threads[t].Connect? && (PcConn(q.threads[t]) == None || PcConn(q.threads[t]) == Some(c))
    requires forall u :: u != t ==> (u in p.threads <==> u in q.threads) && (u in p.threads ==> q.threads[u] == p.threads[u])
    requires forall d :: d != c ==> (d in p.held <==> d in q.held)
    ensures forall d: nat :: Owned(q, d) == Owned(p, d)
  {
    forall d: nat ensures Owned(q, d) == Owned(p, d) {
      if u :| u in p.threads && PcConn(p.threads[u]) == Some(d) {
        if u != t { assert u in q.threads && PcConn(q.threads[u]) == Some(d); }
      }
      if u :| u in q.threads && PcConn(q.threads[u]) == Some(d) {
        if u != t { assert u in p.threads && PcConn(p.threads[u]) == Some(d); }
      }
    }
  }

  lemma {:induction false} OwnedOnceHandOver(p: State, q: State, t: nat, c: nat)
    requires OwnedOnce(p) && q == p.(threads := q.threads, held := q.held)
    requires (t in p.threads && PcConn(p.threads[t]) == Some(c)) != (c in p.held)
    requires (t in q.threads && PcConn(q.threads[t]) == Some(c)) != (c in q.held)
    requires t in p.threads ==> !p.threads[t].Connect? && (PcConn(p.threads[t]) == None || PcConn(p.threads[t]) == Some(c))
    requires t in q.threads ==> !q.threads[t].Connect? && (PcConn(q.threads[t]) == None || PcConn(q.threads[t]) == Some(c))
    requires forall u :: u != t ==> (u in p.threads <==> u in q.threads) && (u in p.threads ==> q.threads[u] == p.threads[u])
    requires forall d :: d != c ==> (d in p.held <==> d in q.held)
    ensures OwnedOnce(q)
  {
    SameOwnedHandOver(p, q, t, c);
  }

  /** A connection passing between a thread and the client. */
  lemma {:induction false} HandOver(p: State, q: State, t: nat, c: nat)
    requires Inv(p) && q == p.(threads := q.threads, held := q.held)
    requires (t in p.threads && PcConn(p.threads[t]) == Some(c)) != (c in p.held)
    requires (t in q.threads && PcConn(q.threads[t]) == Some(c)) != (c in q.held)
    requires t in p.threads ==> !p.threads[t].Connect? && (PcConn(p.threads[t]) == None || PcConn(p.threads[t]) == Some(c))
    requires t in q.threads ==> !q.threads[t].Connect? && (PcConn(q.threads[t]) == None || PcConn(q.threads[t]) == Some(c))
    requires forall u :: u != t ==> (u in p.threads <==> u in q.threads) && (u in p.threads ==> q.threads[u] == p.threads[u])
    requires forall d :: d != c ==> (d in p.held <==> d in q.held)
    requires t in q.threads && (q.threads[t].Check? || q.threads[t].DropConn?) ==>
               q.threads[t].todo != [] && c < |p.conns| && p.conns[c].name == q.threads[t].todo[0]
    ensures Inv(q)
  {
    SameOwnedHandOver(p, q, t, c);
    OwnedOnceHandOver(p, q, t, c);
    QuietStep(p, q);
  }

  // ---------------------------------------------------------------------------------------------
  // Lists and counters
  // ---------------------------------------------------------------------------------------------

  lemma {:induction false} WithoutCount(l: seq<nat>, c: nat)
    requires c in l
    ensures multiset(Without(l, c)) == multiset(l) - multiset{c} && |Without(l, c)| == |l| - 1
  {
    assert l == [l[0]] + l[1..];
    if l[0] == c {
    } else {
      WithoutCount(l[1..], c);
      assert multiset(l) == multiset{l[0]} + multiset(l[1..]);
    }
  }

  lemma {:induction false} FreshCount(l: seq<nat>, stale: set<nat>)
    ensures multiset(Fresh(l, stale)) + multiset(Stale(l, stale)) == multiset(l)
    ensures |Fresh(l, stale)| <= |l|
    ensures forall c :: c in Fresh(l, stale) ==> c !in stale
  {
    if l != [] {
      assert l == [l[0]] + l[1..];
      FreshCount(l[1..], stale);
      assert multiset(l) == multiset{l[0]} + multiset(l[1..]);
    }
  }

  lemma {:induction false} CloseConnTracked(p: State, c: nat)
    requires Tracked(p) && c < |p.conns| && p.conns[c].closes == 0
    ensures Tracked(CloseConn(p, c))
  {
    var q := CloseConn(p, c);
    var ssr := p.conns[c].ssr;
    assert c in OpenSsr(p.conns, ssr);
    assert OpenSsr(q.conns, ssr) == OpenSsr(p.conns, ssr) - {c};
    assert OpenSsr(q.conns, !ssr) == OpenSsr(p.conns, !ssr);
  }

  /** Closing a list of distinct open connections closes each once and keeps the counters right. */
  lemma {:induction false} CloseAllEffect(p: State, l: seq<nat>)
    requires Tracked(p)
    requires forall i :: 0 <= i < |l| ==> l[i] < |p.conns| && p.conns[l[i]].closes == 0
    requires forall i, j :: 0 <= i < j < |l| ==> l[i] != l[j]
    ensures Tracked(CloseAll(p, l))
    ensures forall c :: 0 <= c < |p.conns| ==>
              CloseAll(p, l).conns[c] == if c in l then p.conns[c].(closes := 1) else p.conns[c]
    decreases |l|
  {
    if l != [] {
      CloseConnTracked(p, l[0]);
      var q := CloseConn(p, l[0]);
      assert l[1..] <= l[1..];
      CloseAllEffect(q, l[1..]);
      assert forall c :: c in l <==> c == l[0] || c in l[1..];
    }
  }

  /** Elements of a list that is a multiset of a set are distinct. */
  lemma {:induction false} Distinct(l: seq<nat>, m: multiset<nat>, s: set<nat>)
    requires multiset(l) + m == multiset(s)
    ensures forall i, j :: 0 <= i < j < |l| ==> l[i] != l[j]
    ensures forall c :: c in l ==> c in s && c !in m
  {
    forall i, j | 0 <= i < j < |l| ensures l[i] != l[j] {
      assert l == l[..j] + [l[j]] + l[j + 1..];
      assert l[..j][i] in multiset(l[..j]);
      assert multiset(s)[l[j]] <= 1;
    }
    forall c | c in l ensures c in s && c !in m {
      assert multiset(l)[c] >= 1;
      assert multiset(s)[c] <= 1;
    }
  }

  // ---------------------------------------------------------------------------------------------
  // Steps on one server
  // ---------------------------------------------------------------------------------------------

  /** When only the record of `n` changes, and rightly so, every connection is still in its place. */
  lemma {:induction false} PlacedAt(p: State, q: State, n: Name)
    requires Mapped(p) && Placed(p) && n in p.servers && q.servers == p.servers && |q.heap| == |p.heap|
    requires forall i :: 0 <= i < |p.heap| && i != p.servers[n] ==> q.heap[i] == p.heap[i]
    requires forall m :: m != n ==> OpenOf(q.conns, m) == OpenOf(p.conns, m) && OwnedOf(q, m) == OwnedOf(p, m)
    requires var s := q.heap[p.servers[n]];
             && multiset(s.idle) + multiset(s.busy) == multiset(OpenOf(q.conns, n))
             && multiset(s.busy) == multiset(OwnedOf(q, n))
    requires forall c :: 0 <= c < |q.conns| ==> q.conns[c].closes <= 1 && (q.conns[c].closes == 0 ==> q.conns[c].name in p.servers)
    ensures Mapped(q) && Placed(q)
  {
  }

  /** A record of size zero has no idle or busy connection, and no thread is connecting on it. */
  lemma {:induction false} NothingLeft(p: State, n: Name)
    requires Inv(p) && n in p.servers && Size(p.heap[p.servers[n]]) == 0
    ensures var s := p.heap[p.servers[n]]; s.idle == [] && s.busy == [] && s.reservations == 0
    ensures OpenOf(p.conns, n) == {}
    ensures forall t :: t in p.threads && p.threads[t].Connect? ==> p.threads[t].todo[0] != n
  {
    var i := p.servers[n];
    var s := p.heap[i];
    assert s.reservations == |Connecting(p.threads, i)| >= 0;
    assert s.idle == [] && s.busy == [];
    assert multiset(OpenOf(p.conns, n)) == multiset{};
    assert |multiset(OpenOf(p.conns, n))| == |OpenOf(p.conns, n)|;
    forall t | t in p.threads && p.threads[t].Connect? ensures p.threads[t].todo[0] != n {
      assert p.threads[t].todo[0] == n ==> t in Connecting(p.threads, i);
    }
  }

  /** A server's entry is dropped only when nothing is left of it: no idle, no busy, no reservation. */
  lemma {:induction false} Forgotten(p: State, n: Name)
    requires Inv(p) && n in p.servers && Size(p.heap[p.servers[n]]) == 0
    ensures Inv(p.(servers := p.servers - {n}))
    ensures p.heap[p.servers[n]].busy == [] && p.heap[p.servers[n]].reservations == 0
  {
    var q := p.(servers := p.servers - {n});
    NothingLeft(p, n);
    ForgottenMapped(p, n);
    ForgottenPlaces(p, n);
    forall c: nat ensures Owned(q, c) == Owned(p, c) {}
    forall j ensures Connecting(q.threads, j) == Connecting(p.threads, j) {}
  }

  lemma {:induction false} ForgottenMapped(p: State, n: Name)
    requires Mapped(p) && n in p.servers
    requires p.heap[p.servers[n]].idle == [] && p.heap[p.servers[n]].busy == [] && p.heap[p.servers[n]].reservations == 0
    ensures Mapped(p.(servers := p.servers - {n}))
  {
    var q := p.(servers := p.servers - {n});
    forall m | m in p.servers && m != n ensures p.servers[m] in q.servers.Values { assert q.servers[m] == p.servers[m]; }
    forall j | 0 <= j < |q.heap| && j !in q.servers.Values
      ensures q.heap[j].idle == [] && q.heap[j].busy == [] && q.heap[j].reservations == 0
    {
      assert j in p.servers.Values ==> j == p.servers[n];
    }
  }

  lemma {:induction false} ForgottenPlaces(p: State, n: Name)
    requires Placed(p) && n in p.servers && OpenOf(p.conns, n) == {}
    ensures Placed(p.(servers := p.servers - {n}))
  {
    var q := p.(servers := p.servers - {n});
    forall m ensures OpenOf(q.conns, m) == OpenOf(p.conns, m) && OwnedOf(q, m) == OwnedOf(p, m) { SameOwners(p, q, m); }
    forall c | 0 <= c < |q.conns| ensures q.conns[c].closes == 0 ==> q.conns[c].name in q.servers {
      assert q.conns[c].closes == 0 && q.conns[c].name == n ==> c in OpenOf(p.conns, n);
    }
  }

  lemma {:induction false} SameOwners(p: State, q: State, n: Name)
    requires q.conns == p.conns && q.held == p.held && q.threads == p.threads
    ensures OpenOf(q.conns, n) == OpenOf(p.conns, n) && OwnedOf(q, n) == OwnedOf(p, n)
  {
    forall c: nat ensures Owned(q, c) == Owned(p, c) {}
  }

  lemma {:induction false} GainsConn(p: State, q: State, t: nat, c: nat)
    requires OnlyThread(p, q, t) && q.held == p.held
    requires (t in p.threads ==> PcConn(p.threads[t]) == None) && t in q.threads && PcConn(q.threads[t]) == Some(c)
    ensures forall d: nat :: Owned(q, d) <==> (Owned(p, d) || d == c)
  {
    forall d: nat ensures Owned(q, d) <==> (Owned(p, d) || d == c) {
      if u :| u in p.threads && PcConn(p.threads[u]) == Some(d) { assert u in q.threads && PcConn(q.threads[u]) == Some(d); }
      if u :| u in q.threads && PcConn(q.threads[u]) == Some(d) {
        if u != t { assert u in p.threads && PcConn(p.threads[u]) == Some(d); }
      }
    }
  }

  lemma {:induction false} LosesConn(p: State, q: State, t: nat, c: nat)
    requires OwnedOnce(p) && OnlyThread(p, q, t) && q.held == p.held
    requires t in p.threads && PcConn(p.threads[t]) == Some(c) && (t in q.threads ==> PcConn(q.threads[t]) == None)
    ensures forall d: nat :: Owned(q, d) <==> (Owned(p, d) && d != c)
  {
    forall d: nat ensures Owned(q, d) <==> (Owned(p, d) && d != c) {
      if u :| u in p.threads && PcConn(p.threads[u]) == Some(d) {
        if u != t { assert u in q.threads && PcConn(q.threads[u]) == Some(d); }
      }
      if u :| u in q.threads && PcConn(q.threads[u]) == Some(d) { assert u in p.threads && PcConn(p.threads[u]) == Some(d); }
    }
  }

  lemma {:induction false} OwnedOnceGain(p: State, q: State, t: nat, c: nat)
    requires OwnedOnce(p) && OnlyThread(p, q, t) && q.held == p.held && q.conns == p.conns
    requires (t in p.threads ==> PcConn(p.threads[t]) == None) && t in q.threads && PcConn(q.threads[t]) == Some(c)
    requires !Owned(p, c) && c < |p.conns| && p.conns[c].closes == 0
    ensures OwnedOnce(q)
  {
    GainsConn(p, q, t, c);
    forall u, v | u in q.threads && v in q.threads && u != v && PcConn(q.threads[u]).Some?
      ensures PcConn(q.threads[u]) != PcConn(q.threads[v])
    {
      if u == t { assert PcConn(q.threads[v]) == Some(c) ==> Owned(p, c); }
      if v == t { assert PcConn(q.threads[u]) == Some(c) ==> Owned(p, c); }
    }
  }

  lemma {:induction false} OwnedOnceLose(p: State, q: State, t: nat, c: nat)
    requires OwnedOnce(p) && OnlyThread(p, q, t) && q.held == p.held && |q.conns| == |p.conns|
    requires t in p.threads && PcConn(p.threads[t]) == Some(c) && (t in q.threads ==> PcConn(q.threads[t]) == None)
    requires forall d :: 0 <= d < |p.conns| && d != c ==> q.conns[d] == p.conns[d]
    ensures OwnedOnce(q)
  {
    LosesConn(p, q, t, c);
  }

  lemma {:induction false} ReservedThroughMove(p: State, q: State, t: nat)
    requires Reserved(p) && |q.heap| == |p.heap| && OnlyThread(p, q, t) && q.servers == p.servers && |q.conns| == |p.conns|
    requires forall i :: 0 <= i < |p.heap| ==> q.heap[i].reservations == p.heap[i].reservations
    requires (t in p.threads ==> !p.threads[t].Connect?) && (t in q.threads ==> !q.threads[t].Connect?)
    requires forall d :: 0 <= d < |p.conns| ==> q.conns[d].name == p.conns[d].name
    requires t in q.threads && (q.threads[t].Check? || q.threads[t].DropConn?) ==>
               q.threads[t].todo != [] && q.threads[t].c < |p.conns| && p.conns[q.threads[t].c].name == q.threads[t].todo[0]
    ensures Reserved(q)
  {
    forall i | 0 <= i < |p.heap| ensures Connecting(q.threads, i) == Connecting(p.threads, i) {}
  }

  lemma {:induction false} TrackedSame(p: State, q: State)
    requires Tracked(p) && q.conns == p.conns && q.ssrOn == p.ssrOn && q.ssrOff == p.ssrOff
    ensures Tracked(q)
  {
  }

  lemma {:induction false} IdleNotOwned(p: State, n: Name, c: nat)
    requires Mapped(p) && Placed(p) && n in p.servers && c in p.heap[p.servers[n]].idle
    ensures c in OpenOf(p.conns, n) && c !in OwnedOf(p, n) && !Owned(p, c)
  {
    var s := p.heap[p.servers[n]];
    Distinct(s.idle, multiset(s.busy), OpenOf(p.conns, n));
    assert c in OwnedOf(p, n) ==> c in multiset(OwnedOf(p, n));
  }

  lemma {:induction false} IdleToBusy(idle: seq<nat>, busy: seq<nat>, open: set<nat>, owned: set<nat>)
    requires idle != [] && idle[0] !in owned
    requires multiset(idle) + multiset(busy) == multiset(open) && multiset(busy) == multiset(owned)
    ensures multiset(idle[1..]) + multiset([idle[0]] + busy) == multiset(open)
    ensures multiset([idle[0]] + busy) == multiset(owned + {idle[0]})
  {
    assert idle == [idle[0]] + idle[1..];
  }

  lemma {:induction false} OwnedOfGain(p: State, q: State, t: nat, c: nat, n: Name)
    requires OnlyThread(p, q, t) && q.held == p.held && q.conns == p.conns && c < |p.conns| && p.conns[c].name == n
    requires (t in p.threads ==> PcConn(p.threads[t]) == None) && t in q.threads && PcConn(q.threads[t]) == Some(c)
    ensures forall m :: OpenOf(q.conns, m) == OpenOf(p.conns, m)
    ensures forall m :: m != n ==> OwnedOf(q, m) == OwnedOf(p, m)
    ensures OwnedOf(q, n) == OwnedOf(p, n) + {c}
  {
    GainsConn(p, q, t, c);
    forall m ensures OpenOf(q.conns, m) == OpenOf(p.conns, m) {}
    forall m | m != n ensures OwnedOf(q, m) == OwnedOf(p, m) {}
  }

  lemma {:induction false} TakeIdlePlaced(p: State, t: nat, n: Name, pc: Pc)
    requires Mapped(p) && Placed(p) && n in p.servers && p.heap[p.servers[n]].idle != [] && NothingInHand(p, t)
    requires PcConn(pc) == Some(p.heap[p.servers[n]].idle[0])
    ensures Mapped(TakeIdle(p, t, n, pc)) && Placed(TakeIdle(p, t, n, pc))
  {
    var q := TakeIdle(p, t, n, pc);
    var s := p.heap[p.servers[n]];
    IdleNotOwned(p, n, s.idle[0]);
    OwnedOfGain(p, q, t, s.idle[0], n);
    IdleToBusy(s.idle, s.busy, OpenOf(p.conns, n), OwnedOf(p, n));
    PlacedAt(p, q, n);
  }

  lemma {:induction false} TakeIdleInv(p: State, t: nat, n: Name, pc: Pc)
    requires Inv(p) && n in p.servers && p.heap[p.servers[n]].idle != [] && NothingInHand(p, t)
    requires pc.Check? && pc.c == p.heap[p.servers[n]].idle[0] && pc.todo != [] && pc.todo[0] == n
    ensures Inv(TakeIdle(p, t, n, pc))
  {
    TakeIdlePlaced(p, t, n, pc);
    IdleNotOwned(p, n, pc.c);
    OwnedOnceGain(p, TakeIdle(p, t, n, pc), t, pc.c);
    TakeIdleCounts(p, t, n, pc);
  }

  lemma {:induction false} TakeIdleCounts(p: State, t: nat, n: Name, pc: Pc)
    requires Reserved(p) && Bounded(p) && Tracked(p) && n in p.servers && p.servers[n] < |p.heap| && p.heap[p.servers[n]].idle != []
    requires NothingInHand(p, t) && pc.Check? && pc.todo != [] && pc.c < |p.conns| && p.conns[pc.c].name == pc.todo[0]
    ensures var q := TakeIdle(p, t, n, pc); Reserved(q) && Bounded(q) && Tracked(q)
  {
    var q := TakeIdle(p, t, n, pc);
    ReservedThroughMove(p, q, t);
    TrackedSame(p, q);
    BoundedAt(p, q, p.servers[n]);
  }

  lemma {:induction false} NoHandsChange(p: State, q: State, t: nat)
    requires OnlyThread(p, q, t) && q.held == p.held && q.conns == p.conns
    requires (t in p.threads ==> PcConn(p.threads[t]) == None) && (t in q.threads ==> PcConn(q.threads[t]) == None)
    ensures forall m :: OpenOf(q.conns, m) == OpenOf(p.conns, m) && OwnedOf(q, m) == OwnedOf(p, m)
    ensures OwnedOnce(p) ==> OwnedOnce(q)
  {
    forall c: nat ensures Owned(q, c) == Owned(p, c) {
      if u :| u in p.threads && PcConn(p.threads[u]) == Some(c) { assert u in q.threads && PcConn(q.threads[u]) == Some(c); }
    }
    forall m ensures OpenOf(q.conns, m) == OpenOf(p.conns, m) && OwnedOf(q, m) == OwnedOf(p, m) {}
  }

  /** Thread `t` has taken a reservation on record `k`. */
  lemma {:induction false} ReserveReserved(p: State, q: State, t: nat, k: nat)
    requires Reserved(p) && k < |p.heap| && |q.heap| == |p.heap| && OnlyThread(p, q, t) && q.servers == p.servers
    requires NothingInHand(p, t) && t in q.threads && q.threads[t].Connect? && q.threads[t].srv == k
    requires q.threads[t].todo != [] && q.threads[t].todo[0] in q.servers && q.servers[q.threads[t].todo[0]] == k
    requires forall i :: 0 <= i < |p.heap| ==> q.heap[i].reservations == if i == k then p.heap[i].reservations + 1 else p.heap[i].reservations
    requires q.conns == p.conns
    ensures Reserved(q)
  {
    assert t !in Connecting(p.threads, k) && Connecting(q.threads, k) == Connecting(p.threads, k) + {t};
    forall i | 0 <= i < |q.heap| ensures q.heap[i].reservations == |Connecting(q.threads, i)| {
      assert i != k ==> Connecting(q.threads, i) == Connecting(p.threads, i);
    }
  }

  lemma {:induction false} BoundedBelow(p: State, q: State, k: nat)
    requires Bounded(p) && |q.heap| == |p.heap| && k < |p.heap| && q.max == p.max && Size(q.heap[k]) <= p.max
    requires forall i :: 0 <= i < |p.heap| && i != k ==> q.heap[i] == p.heap[i]
    ensures Bounded(q)
  {
  }

  lemma {:induction false} ReservePlaced(p: State, t: nat, n: Name, pc: Pc)
    requires Mapped(p) && Placed(p) && OwnedOnce(p) && n in p.servers && NothingInHand(p, t) && pc.Connect?
    ensures var q := Reserve(p, t, n, pc); Mapped(q) && Placed(q) && OwnedOnce(q)
  {
    var q := Reserve(p, t, n, pc);
    NoHandsChange(p, q, t);
    PlacedAt(p, q, n);
  }

  lemma {:induction false} ReserveCounts(p: State, t: nat, n: Name, pc: Pc)
    requires Reserved(p) && Bounded(p) && Tracked(p)
    requires n in p.servers && p.servers[n] < |p.heap| && NothingInHand(p, t) && Size(p.heap[p.servers[n]]) < p.max
    requires pc.Connect? && pc.todo != [] && pc.todo[0] == n && pc.srv == p.servers[n]
    ensures var q := Reserve(p, t, n, pc); Reserved(q) && Bounded(q) && Tracked(q)
  {
    var q := Reserve(p, t, n, pc);
    ReserveReserved(p, q, t, p.servers[n]);
    TrackedSame(p, q);
    BoundedBelow(p, q, p.servers[n]);
  }

  lemma {:induction false} ReserveInv(p: State, t: nat, n: Name, pc: Pc)
    requires Inv(p) && n in p.servers && NothingInHand(p, t) && Size(p.heap[p.servers[n]]) < p.max
    requires pc.Connect? && pc.todo != [] && pc.todo[0] == n && pc.srv == p.servers[n]
    ensures Inv(Reserve(p, t, n, pc))
  {
    ReservePlaced(p, t, n, pc);
    ReserveCounts(p, t, n, pc);
  }

  lemma {:induction false} AddServerMapped(p: State, t: nat, n: Name, pc: Pc)
    requires Mapped(p) && n !in p.servers
    ensures Mapped(AddServer(p, t, n, pc))
  {
    var q := AddServer(p, t, n, pc);
    assert q.servers[n] == |p.heap|;
    forall m | m in p.servers ensures p.servers[m] in q.servers.Values { assert q.servers[m] == p.servers[m]; }
  }

  lemma {:induction false} AddServerPlaced(p: State, t: nat, n: Name, pc: Pc)
    requires Mapped(p) && Placed(p) && OwnedOnce(p) && n !in p.servers && NothingInHand(p, t) && PcConn(pc) == None
    ensures Placed(AddServer(p, t, n, pc)) && OwnedOnce(AddServer(p, t, n, pc))
  {
    var q := AddServer(p, t, n, pc);
    NoHandsChange(p, q, t);
    assert OpenOf(p.conns, n) == {};
    assert OwnedOf(p, n) == {};
    forall m | m in q.servers && q.servers[m] < |q.heap|
      ensures && multiset(q.heap[q.servers[m]].idle) + multiset(q.heap[q.servers[m]].busy) == multiset(OpenOf(q.conns, m))
              && multiset(q.heap[q.servers[m]].busy) == multiset(OwnedOf(q, m))
    {
      if m != n { assert q.heap[q.servers[m]] == p.heap[p.servers[m]]; }
    }
  }

  lemma {:induction false} AddServerReserved(p: State, t: nat, n: Name, pc: Pc)
    requires Mapped(p) && Reserved(p) && n !in p.servers && NothingInHand(p, t)
    requires pc.Connect? && pc.todo != [] && pc.todo[0] == n && pc.srv == |p.heap|
    ensures Reserved(AddServer(p, t, n, pc))
  {
    var q := AddServer(p, t, n, pc);
    forall i: nat ensures Connecting(q.threads, i) == (if i == |p.heap| then {t} else Connecting(p.threads, i)) {}
  }

  lemma {:induction false} AddServerInv(p: State, t: nat, n: Name, pc: Pc)
    requires Inv(p) && n !in p.servers && NothingInHand(p, t)
    requires pc.Connect? && pc.todo != [] && pc.todo[0] == n && pc.srv == |p.heap|
    ensures Inv(AddServer(p, t, n, pc))
  {
    AddServerMapped(p, t, n, pc);
    AddServerPlaced(p, t, n, pc);
    AddServerReserved(p, t, n, pc);
    TrackedSame(p, AddServer(p, t, n, pc));
  }

  /** The connect succeeded: the reservation becomes a busy connection, lent out at once. */
  function Register(p: State, t: nat, i: nat, n: Name, ssr: bool): State
    requires i < |p.heap|
  {
    var s := p.heap[i];
    var c := |p.conns|;
    Leave(SetServer(p, i, s.(reservations := s.reservations - 1, busy := [c] + s.busy, failedAt := None)), t)
      .(conns := p.conns + [Info(n, ssr, 0)], held := p.held + {c},
        ssrOn := if ssr then p.ssrOn + 1 else p.ssrOn, ssrOff := if ssr then p.ssrOff else p.ssrOff + 1)
  }

  lemma {:induction false} RegisterOwners(p: State, t: nat, i: nat, n: Name, ssr: bool)
    requires OwnedOnce(p) && i < |p.heap| && t in p.threads && PcConn(p.threads[t]) == None
    ensures var q := Register(p, t, i, n, ssr);
            && OwnedOnce(q)
            && (forall m :: m != n ==> OpenOf(q.conns, m) == OpenOf(p.conns, m) && OwnedOf(q, m) == OwnedOf(p, m))
            && OpenOf(q.conns, n) == OpenOf(p.conns, n) + {|p.conns|} && OwnedOf(q, n) == OwnedOf(p, n) + {|p.conns|}
  {
    var q := Register(p, t, i, n, ssr);
    var c := |p.conns|;
    forall d: nat ensures Owned(q, d) <==> (Owned(p, d) || d == c) {
      if u :| u in p.threads && PcConn(p.threads[u]) == Some(d) { assert u in q.threads && PcConn(q.threads[u]) == Some(d); }
    }
    forall u | u in q.threads && PcConn(q.threads[u]).Some? ensures PcConn(q.threads[u]).value !in q.held {
      assert Owned(p, PcConn(q.threads[u]).value);
    }
    forall m | m != n ensures OpenOf(q.conns, m) == OpenOf(p.conns, m) && OwnedOf(q, m) == OwnedOf(p, m) {}
  }

  lemma {:induction false} BusyJoins(idle: seq<nat>, busy: seq<nat>, open: set<nat>, owned: set<nat>, c: nat)
    requires multiset(idle) + multiset(busy) == multiset(open) && multiset(busy) == multiset(owned) && c !in open && c !in owned
    ensures multiset([c] + busy) == multiset(owned + {c}) && multiset(idle) + multiset([c] + busy) == multiset(open + {c})
  {
    assert multiset([c] + busy) == multiset{c} + multiset(busy);
    assert multiset(owned + {c}) == multiset(owned) + multiset{c};
    assert multiset(open + {c}) == multiset(open) + multiset{c};
  }

  lemma {:induction false} RegisterPlaced(p: State, t: nat, n: Name, ssr: bool)
    requires Mapped(p) && Placed(p) && OwnedOnce(p) && n in p.servers && t in p.threads && PcConn(p.threads[t]) == None
    ensures var q := Register(p, t, p.servers[n], n, ssr); Mapped(q) && Placed(q) && OwnedOnce(q)
  {
    var q := Register(p, t, p.servers[n], n, ssr);
    var s := p.heap[p.servers[n]];
    var c := |p.conns|;
    RegisterOwners(p, t, p.servers[n], n, ssr);
    BusyJoins(s.idle, s.busy, OpenOf(p.conns, n), OwnedOf(p, n), c);
    PlacedAt(p, q, n);
  }

  /** The thread's reservation on record `k` is gone and no other thread's is touched. */
  lemma {:induction false} UnreserveReserved(p: State, q: State, t: nat, k: nat)
    requires Reserved(p) && k < |p.heap| && |q.heap| == |p.heap| && OnlyThread(p, q, t) && q.servers == p.servers
    requires t in p.threads && p.threads[t].Connect? && p.threads[t].srv == k
    requires t in q.threads ==> EmptyHanded(q.threads[t])
    requires forall i :: 0 <= i < |p.heap| ==> q.heap[i].reservations == if i == k then p.heap[i].reservations - 1 else p.heap[i].reservations
    requires |p.conns| <= |q.conns| && forall d :: 0 <= d < |p.conns| ==> q.conns[d].name == p.conns[d].name
    ensures Reserved(q)
  {
    assert t in Connecting(p.threads, k) && Connecting(q.threads, k) == Connecting(p.threads, k) - {t};
    forall i | 0 <= i < |q.heap| ensures q.heap[i].reservations == |Connecting(q.threads, i)| {
      assert i != k ==> Connecting(q.threads, i) == Connecting(p.threads, i);
    }
  }

  lemma {:induction false} OpenSsrSnoc(conns: seq<Info>, x: Info)
    requires x.closes == 0
    ensures |OpenSsr(conns + [x], x.ssr)| == |OpenSsr(conns, x.ssr)| + 1
    ensures OpenSsr(conns + [x], !x.ssr) == OpenSsr(conns, !x.ssr)
  {
    assert OpenSsr(conns + [x], x.ssr) == OpenSsr(conns, x.ssr) + {|conns|};
  }

  lemma {:induction false} RegisterCounts(p: State, t: nat, i: nat, n: Name, ssr: bool)
    requires Reserved(p) && Bounded(p) && Tracked(p) && i < |p.heap|
    requires t in p.threads && p.threads[t].Connect? && p.threads[t].srv == i
    ensures var q := Register(p, t, i, n, ssr); Reserved(q) && Bounded(q) && Tracked(q)
  {
    var q := Register(p, t, i, n, ssr);
    UnreserveReserved(p, q, t, i);
    OpenSsrSnoc(p.conns, Info(n, ssr, 0));
    BoundedAt(p, q, i);
  }

  lemma {:induction false} RegisterInv(p: State, t: nat, n: Name, ssr: bool)
    requires Inv(p) && n in p.servers && t in p.threads && p.threads[t].Connect? && p.threads[t].srv == p.servers[n]
    ensures Inv(Register(p, t, p.servers[n], n, ssr))
  {
    RegisterPlaced(p, t, n, ssr);
    RegisterCounts(p, t, p.servers[n], n, ssr);
  }

  lemma {:induction false} BoundedAt(p: State, q: State, k: nat)
    requires Bounded(p) && |q.heap| == |p.heap| && k < |p.heap| && q.max == p.max && Size(q.heap[k]) <= Size(p.heap[k])
    requires forall i :: 0 <= i < |p.heap| && i != k ==> q.heap[i] == p.heap[i]
    ensures Bounded(q)
  {
  }

  /** The connect failed: the reservation is gone, and perhaps the failure noted. */
  ghost predicate Unreserved(p: State, q: State, t: nat, n: Name)
  {
    && n in p.servers && p.servers[n] < |p.heap| == |q.heap|
    && OnlyThread(p, q, t) && (t in q.threads ==> EmptyHanded(q.threads[t]))
    && q == p.(heap := q.heap, threads := q.threads)
    && var s := p.heap[p.servers[n]];
       q.heap == p.heap[p.servers[n] := s.(reservations := s.reservations - 1, failedAt := q.heap[p.servers[n]].failedAt)]
  }

  lemma {:induction false} ConnectFailedPlaced(p: State, q: State, t: nat, n: Name)
    requires Mapped(p) && Placed(p) && OwnedOnce(p) && Unreserved(p, q, t, n) && t in p.threads && p.threads[t].Connect?
    ensures Mapped(q) && Placed(q) && OwnedOnce(q)
  {
    NoHandsChange(p, q, t);
    PlacedAt(p, q, n);
  }

  lemma {:induction false} ConnectFailedCounts(p: State, q: State, t: nat, n: Name)
    requires Reserved(p) && Bounded(p) && Tracked(p) && Unreserved(p, q, t, n)
    requires t in p.threads && p.threads[t].Connect? && p.threads[t].srv == p.servers[n]
    ensures Reserved(q) && Bounded(q) && Tracked(q)
  {
    UnreserveReserved(p, q, t, p.servers[n]);
    TrackedSame(p, q);
    BoundedAt(p, q, p.servers[n]);
  }

  lemma {:induction false} ConnectFailedInv(p: State, q: State, t: nat, n: Name)
    requires Inv(p) && Unreserved(p, q, t, n) && t in p.threads && p.threads[t].Connect? && p.threads[t].srv == p.servers[n]
    ensures Inv(q)
  {
    ConnectFailedPlaced(p, q, t, n);
    ConnectFailedCounts(p, q, t, n);
  }

  // --- a connection leaving busy ---------------------------------------------------------------

  lemma {:induction false} BusyIsOwned(p: State, n: Name, c: nat)
    requires Mapped(p) && Placed(p) && OwnedOnce(p) && Owned(p, c) && p.conns[c].name == n
    ensures n in p.servers && c in p.heap[p.servers[n]].busy && c in OpenOf(p.conns, n) && c in OwnedOf(p, n)
  {
    assert c in OwnedOf(p, n);
    assert c in multiset(OwnedOf(p, n));
  }

  lemma {:induction false} BusyLeaves(idle: seq<nat>, busy: seq<nat>, open: set<nat>, owned: set<nat>, c: nat)
    requires c in busy && c in open && c in owned
    requires multiset(idle) + multiset(busy) == multiset(open) && multiset(busy) == multiset(owned)
    ensures multiset(Without(busy, c)) == multiset(owned - {c})
    ensures multiset(idle) + multiset(Without(busy, c)) == multiset(open - {c})
    ensures multiset([c] + idle) + multiset(Without(busy, c)) == multiset(open)
    ensures |Without(busy, c)| == |busy| - 1
  {
    WithoutCount(busy, c);
    assert multiset(owned - {c}) == multiset(owned) - multiset{c};
    assert multiset(open - {c}) == multiset(open) - multiset{c};
    assert multiset([c] + idle) == multiset{c} + multiset(idle);
  }

  lemma {:induction false} OwnedOfLose(p: State, q: State, t: nat, c: nat, n: Name)
    requires OwnedOnce(p) && OnlyThread(p, q, t) && q.held == p.held && c < |p.conns| && p.conns[c].name == n
    requires t in p.threads && PcConn(p.threads[t]) == Some(c) && (t in q.threads ==> PcConn(q.threads[t]) == None)
    requires |q.conns| == |p.conns| && forall d :: 0 <= d < |p.conns| ==> q.conns[d].name == p.conns[d].name
    ensures forall m :: m != n ==> OwnedOf(q, m) == OwnedOf(p, m)
    ensures OwnedOf(q, n) == OwnedOf(p, n) - {c}
  {
    LosesConn(p, q, t, c);
    forall m | m != n ensures OwnedOf(q, m) == OwnedOf(p, m) {}
  }

  lemma {:induction false} OpenOfClose(p: State, c: nat)
    requires c < |p.conns|
    ensures var q := CloseConn(p, c);
            && (forall m :: m != p.conns[c].name ==> OpenOf(q.conns, m) == OpenOf(p.conns, m))
            && OpenOf(q.conns, p.conns[c].name) == OpenOf(p.conns, p.conns[c].name) - {c}
  {
    var q := CloseConn(p, c);
    forall m | m != p.conns[c].name ensures OpenOf(q.conns, m) == OpenOf(p.conns, m) {}
  }

  /** Out of busy and closed, with the thread's hands empty afterwards. */
  function CloseBusy(p: State, t: nat, c: nat, i: nat): State
    requires c < |p.conns| && i < |p.heap|
  {
    Leave(BusyClosed(p, i, c), t)
  }

  lemma {:induction false} CloseBusyPlaced(p: State, t: nat, c: nat, n: Name)
    requires Mapped(p) && Placed(p) && OwnedOnce(p) && t in p.threads && PcConn(p.threads[t]) == Some(c)
    requires c < |p.conns| && p.conns[c].name == n && n in p.servers
    ensures var q := CloseBusy(p, t, c, p.servers[n]); Mapped(q) && Placed(q) && OwnedOnce(q)
  {
    var q := CloseBusy(p, t, c, p.servers[n]);
    var s := p.heap[p.servers[n]];
    assert Owned(p, c);
    BusyIsOwned(p, n, c);
    BusyLeaves(s.idle, s.busy, OpenOf(p.conns, n), OwnedOf(p, n), c);
    OwnedOfLose(p, q, t, c, n);
    OpenOfClose(p, c);
    OwnedOnceLose(p, q, t, c);
    PlacedAt(p, q, n);
  }

  lemma {:induction false} CloseBusyInv(p: State, t: nat, c: nat, n: Name)
    requires Inv(p) && t in p.threads && PcConn(p.threads[t]) == Some(c) && c < |p.conns| && p.conns[c].name == n
    ensures n in p.servers && Inv(CloseBusy(p, t, c, p.servers[n]))
  {
    assert Owned(p, c);
    BusyIsOwned(p, n, c);
    CloseBusyPlaced(p, t, c, n);
    CloseBusyCounts(p, t, c, p.servers[n]);
  }

  lemma {:induction false} CloseBusyCounts(p: State, t: nat, c: nat, i: nat)
    requires Reserved(p) && Bounded(p) && Tracked(p) && i < |p.heap| && c < |p.conns| && p.conns[c].closes == 0
    requires c in p.heap[i].busy && t in p.threads && PcConn(p.threads[t]) == Some(c)
    ensures var q := CloseBusy(p, t, c, i); Reserved(q) && Bounded(q) && Tracked(q)
  {
    var q := CloseBusy(p, t, c, i);
    WithoutCount(p.heap[i].busy, c);
    ReservedThroughMove(p, q, t);
    CloseConnTracked(SetServer(p, i, UnregisterBusy(p.heap[i], c)), c);
    BoundedAt(p, q, i);
  }

  /** From busy back to idle. */
  function IdleAgain(p: State, t: nat, c: nat, i: nat): State
    requires i < |p.heap|
  {
    Leave(BusyIdle(p, i, c), t)
  }

  lemma {:induction false} IdleAgainPlaced(p: State, t: nat, c: nat, n: Name)
    requires Mapped(p) && Placed(p) && OwnedOnce(p) && t in p.threads && PcConn(p.threads[t]) == Some(c)
    requires c < |p.conns| && p.conns[c].name == n && n in p.servers
    ensures var q := IdleAgain(p, t, c, p.servers[n]); Mapped(q) && Placed(q) && OwnedOnce(q)
  {
    var q := IdleAgain(p, t, c, p.servers[n]);
    var s := p.heap[p.servers[n]];
    assert Owned(p, c);
    BusyIsOwned(p, n, c);
    BusyLeaves(s.idle, s.busy, OpenOf(p.conns, n), OwnedOf(p, n), c);
    OwnedOfLose(p, q, t, c, n);
    OwnedOnceLose(p, q, t, c);
    PlacedAt(p, q, n);
  }

  lemma {:induction false} IdleAgainInv(p: State, t: nat, c: nat, n: Name)
    requires Inv(p) && t in p.threads && PcConn(p.threads[t]) == Some(c) && c < |p.conns| && p.conns[c].name == n
    ensures n in p.servers && Inv(IdleAgain(p, t, c, p.servers[n]))
  {
    assert Owned(p, c);
    BusyIsOwned(p, n, c);
    IdleAgainPlaced(p, t, c, n);
    IdleAgainCounts(p, t, c, p.servers[n]);
  }

  lemma {:induction false} IdleAgainCounts(p: State, t: nat, c: nat, i: nat)
    requires Reserved(p) && Bounded(p) && Tracked(p) && i < |p.heap| && c in p.heap[i].busy
    requires t in p.threads && PcConn(p.threads[t]) == Some(c)
    ensures var q := IdleAgain(p, t, c, i); Reserved(q) && Bounded(q) && Tracked(q)
  {
    var q := IdleAgain(p, t, c, i);
    WithoutCount(p.heap[i].busy, c);
    ReservedThroughMove(p, q, t);
    BoundedAt(p, q, i);
  }

  // --- idle connections that are closed --------------------------------------------------------

  lemma {:induction false} TakeOut(rest: multiset<nat>, gone: seq<nat>, open: set<nat>)
    requires multiset(gone) + rest == multiset(open)
    ensures rest == multiset(open - set c | c in gone)
    ensures forall i, j :: 0 <= i < j < |gone| ==> gone[i] != gone[j]
    ensures forall c :: c in gone ==> c in open
  {
    Distinct(gone, rest, open);
    DistinctAsSet(gone);
    var g := set c | c in gone;
    assert g <= open;
    assert multiset(open) == multiset(open - g) + multiset(g);
    assert rest + multiset(g) == multiset(open - g) + multiset(g);
    forall x ensures rest[x] == multiset(open - g)[x] { assert (rest + multiset(g))[x] == (multiset(open - g) + multiset(g))[x]; }
  }

  lemma {:induction false} IdleShrinks(idle: seq<nat>, busy: seq<nat>, open: set<nat>, stale: set<nat>)
    requires multiset(idle) + multiset(busy) == multiset(open)
    ensures var gone := Stale(idle, stale);
            && multiset(Fresh(idle, stale)) + multiset(busy) == multiset(open - set c | c in gone)
            && (forall i, j :: 0 <= i < j < |gone| ==> gone[i] != gone[j])
            && (forall c :: c in gone ==> c in open && c in idle)
  {
    var gone := Stale(idle, stale);
    FreshCount(idle, stale);
    TakeOut(multiset(Fresh(idle, stale)) + multiset(busy), gone, open);
  }

  lemma {:induction false} DistinctAsSet(l: seq<nat>)
    requires forall i, j :: 0 <= i < j < |l| ==> l[i] != l[j]
    ensures multiset(l) == multiset(set c | c in l)
  {
    if l == [] {
      assert (set c | c in l) == {};
    } else {
      DistinctAsSet(l[1..]);
      assert l == [l[0]] + l[1..];
      assert (set c | c in l) == (set c | c in l[1..]) + {l[0]};
      assert l[0] !in l[1..];
    }
  }

  lemma {:induction false} CloseIdleOpen(p: State, n: Name, stale: set<nat>)
    requires Inv(p) && Ranges(p) && n in p.servers
    ensures var q := CloseIdle(p, n, stale);
            var gone := Stale(p.heap[p.servers[n]].idle, stale);
            && Tracked(q) && |q.conns| == |p.conns|
            && (forall c :: 0 <= c < |p.conns| ==> q.conns[c] == if c in gone then p.conns[c].(closes := 1) else p.conns[c])
            && (forall c :: c in gone ==> c in OpenOf(p.conns, n) && c in p.heap[p.servers[n]].idle)
  {
    var s := p.heap[p.servers[n]];
    var gone := Stale(s.idle, stale);
    IdleShrinks(s.idle, s.busy, OpenOf(p.conns, n), stale);
    forall i | 0 <= i < |gone| ensures gone[i] < |p.conns| && p.conns[gone[i]].closes == 0 {
      assert gone[i] in gone;
      assert gone[i] in OpenOf(p.conns, n);
    }
    var r := SetServer(p, p.servers[n], s.(idle := Fresh(s.idle, stale)));
    CloseAllEffect(r, gone);
  }

  lemma {:induction false} OpenOfClosed(conns: seq<Info>, conns': seq<Info>, gone: seq<nat>, n: Name)
    requires |conns'| == |conns|
    requires forall c :: 0 <= c < |conns| ==> conns'[c] == if c in gone then conns[c].(closes := 1) else conns[c]
    requires forall c :: c in gone ==> c in OpenOf(conns, n)
    ensures forall m :: m != n ==> OpenOf(conns', m) == OpenOf(conns, m)
    ensures OpenOf(conns', n) == OpenOf(conns, n) - set c | c in gone
  {
    forall m | m != n ensures OpenOf(conns', m) == OpenOf(conns, m) {}
  }

  lemma {:induction false} SameNamesSameOwners(p: State, q: State)
    requires q.held == p.held && q.threads == p.threads && |q.conns| == |p.conns|
    requires forall c :: 0 <= c < |p.conns| ==> q.conns[c].name == p.conns[c].name
    ensures forall m :: OwnedOf(q, m) == OwnedOf(p, m)
  {
    forall c: nat ensures Owned(q, c) == Owned(p, c) {}
    forall m ensures OwnedOf(q, m) == OwnedOf(p, m) {}
  }

  lemma {:induction false} CloseIdleSets(p: State, n: Name, stale: set<nat>)
    requires Inv(p) && Ranges(p) && n in p.servers
    ensures var q := CloseIdle(p, n, stale);
            && (forall m :: OwnedOf(q, m) == OwnedOf(p, m))
            && (forall m :: m != n ==> OpenOf(q.conns, m) == OpenOf(p.conns, m))
            && OpenOf(q.conns, n) == OpenOf(p.conns, n) - set c | c in Stale(p.heap[p.servers[n]].idle, stale)
  {
    var q := CloseIdle(p, n, stale);
    CloseIdleOpen(p, n, stale);
    OpenOfClosed(p.conns, q.conns, Stale(p.heap[p.servers[n]].idle, stale), n);
    SameNamesSameOwners(p, q);
  }

  lemma {:induction false} CloseIdleOwned(p: State, n: Name, stale: set<nat>)
    requires Inv(p) && Ranges(p) && n in p.servers
    ensures OwnedOnce(CloseIdle(p, n, stale))
  {
    var q := CloseIdle(p, n, stale);
    var gone := Stale(p.heap[p.servers[n]].idle, stale);
    CloseIdleOpen(p, n, stale);
    forall c: nat | Owned(q, c) ensures c < |q.conns| && q.conns[c].closes == 0 {
      assert Owned(p, c);
      if c in gone { IdleNotOwned(p, n, c); }
    }
  }

  lemma {:induction false} CloseIdleInv(p: State, n: Name, stale: set<nat>)
    requires Inv(p) && Ranges(p)
    ensures Inv(CloseIdle(p, n, stale))
    ensures var q := CloseIdle(p, n, stale);
            q == p.(heap := q.heap, conns := q.conns, ssrOn := q.ssrOn, ssrOff := q.ssrOff)
  {
    if n in p.servers {
      CloseIdleStays(p, CloseIdle(p, n, stale), n, stale);
      CloseIdleOwned(p, n, stale);
      CloseIdleStill(p, CloseIdle(p, n, stale), n, stale);
    }
  }

  lemma {:induction false} CloseIdleStays(p: State, q: State, n: Name, stale: set<nat>)
    requires Inv(p) && Ranges(p) && n in p.servers && q == CloseIdle(p, n, stale)
    ensures Mapped(q) && Placed(q)
  {
    var s := p.heap[p.servers[n]];
    CloseIdleOpen(p, n, stale);
    CloseIdleSets(p, n, stale);
    IdleShrinks(s.idle, s.busy, OpenOf(p.conns, n), stale);
    CloseIdlePlaced(p, q, n);
  }

  lemma {:induction false} CloseIdleStill(p: State, q: State, n: Name, stale: set<nat>)
    requires Inv(p) && Ranges(p) && n in p.servers && q == CloseIdle(p, n, stale)
    ensures Reserved(q) && Bounded(q) && Tracked(q)
  {
    CloseIdleOpen(p, n, stale);
    FreshCount(p.heap[p.servers[n]].idle, stale);
    CloseIdleCounts(p, q, n);
  }

  lemma {:induction false} CloseIdlePlaced(p: State, q: State, n: Name)
    requires Mapped(p) && Placed(p) && n in p.servers && q.servers == p.servers && |q.heap| == |p.heap|
    requires q.heap == p.heap[p.servers[n] := p.heap[p.servers[n]].(idle := q.heap[p.servers[n]].idle)]
    requires forall m :: OwnedOf(q, m) == OwnedOf(p, m)
    requires forall m :: m != n ==> OpenOf(q.conns, m) == OpenOf(p.conns, m)
    requires multiset(q.heap[p.servers[n]].idle) + multiset(q.heap[p.servers[n]].busy) == multiset(OpenOf(q.conns, n))
    requires |q.conns| == |p.conns|
    requires forall c :: 0 <= c < |p.conns| ==> q.conns[c] == p.conns[c] || (p.conns[c].closes == 0 && q.conns[c] == p.conns[c].(closes := 1))
    ensures Mapped(q) && Placed(q)
  {
    PlacedAt(p, q, n);
  }

  lemma {:induction false} CloseIdleCounts(p: State, q: State, n: Name)
    requires Reserved(p) && Bounded(p) && n in p.servers && p.servers[n] < |p.heap| == |q.heap|
    requires q.threads == p.threads && q.max == p.max && q.servers == p.servers && |q.conns| == |p.conns|
    requires q.heap == p.heap[p.servers[n] := p.heap[p.servers[n]].(idle := q.heap[p.servers[n]].idle)]
    requires |q.heap[p.servers[n]].idle| <= |p.heap[p.servers[n]].idle|
    requires forall d :: 0 <= d < |p.conns| ==> q.conns[d].name == p.conns[d].name
    ensures Reserved(q) && Bounded(q)
  {
    ReservedThroughLists(p, q);
    BoundedAt(p, q, p.servers[n]);
  }

  lemma {:induction false} ReservedThroughLists(p: State, q: State)
    requires Reserved(p) && |q.heap| == |p.heap| && q.threads == p.threads && q.servers == p.servers && |q.conns| == |p.conns|
    requires forall i :: 0 <= i < |p.heap| ==> q.heap[i].reservations == p.heap[i].reservations
    requires forall d :: 0 <= d < |p.conns| ==> q.conns[d].name == p.conns[d].name
    ensures Reserved(q)
  {
  }
}
