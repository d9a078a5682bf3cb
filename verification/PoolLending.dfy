/**
 * The life of one connection in the pool: where it can be, which step takes it from where to where,
 * and so who is given it and when it is closed, in every interleaving.
 */
module PoolLending {
  import opened Bytes
  import opened Pool
  import opened PoolRuns

  // ---------------------------------------------------------------------------------------------
  // Where a connection is, and where a step takes it
  // ---------------------------------------------------------------------------------------------

  datatype Place = Unmade | Idle | Checking(t: nat) | Dropping(t: nat) | Lent | GoingBack(t: nat) | Closed

  predicate IsAt(p: State, c: nat, place: Place)
  {
    match place
    case Unmade => c >= |p.conns|
    case Idle => c < |p.conns| && p.conns[c].closes == 0 && !Owned(p, c)
    case Checking(t) => t in p.threads && p.threads[t].Check? && p.threads[t].c == c
    case Dropping(t) => t in p.threads && p.threads[t].DropConn? && p.threads[t].c == c
    case Lent => c in p.held
    case GoingBack(t) => t in p.threads && (p.threads[t].Sweep? || p.threads[t].PutBack?) && p.threads[t].c == c
    case Closed => c < |p.conns| && p.conns[c].closes == 1
  }

  /** Trying its first server, the thread finds `c` at the front of that server's idle connections. */
  predicate Takes(p: State, t: nat, c: nat)
    requires Ranges(p)
  {
    && t in p.threads && p.threads[t].Try? && p.threads[t].todo != [] && (p.closed ==> p.threads[t].inside)
    && p.threads[t].todo[0] in p.servers
    && p.heap[p.servers[p.threads[t].todo[0]]].idle != [] && p.heap[p.servers[p.threads[t].todo[0]]].idle[0] == c
  }

  /** The step closes the idle connection `c`: too old, or on a server that is deactivated. */
  predicate Expires(p: State, a: Step, c: nat)
    requires Ranges(p) && Enabled(p, a) && c < |p.conns|
  {
    match a
    case SweepIdle(t, stale) => p.conns[p.threads[t].c].name == p.conns[c].name && c in stale
    case CleanUp(n, stale, _) => p.conns[c].name == n && c in stale
    case Penalties(n, stale) => p.conns[c].name == n && c in stale
    case Deactivate(n) => p.conns[c].name == n
    case _ => false
  }

  predicate ServerClosing(p: State, c: nat)
    requires Ranges(p) && c < |p.conns|
  {
    p.conns[c].name in p.servers && p.heap[p.servers[p.conns[c].name]].closing
  }

  /** The whole life of a connection. */
  function NextPlace(p: State, a: Step, c: nat, place: Place): Place
    requires Ranges(p) && Enabled(p, a) && (place.Unmade? || c < |p.conns|)
  {
    match place
    case Unmade => if a.Connected? && c == |p.conns| then Lent else Unmade
    case Idle =>
      if a.TryServer? && Takes(p, a.t, c) then Checking(a.t) else if Expires(p, a, c) then Closed else Idle
    case Checking(t) =>
      if a.Healthy? && a.t == t then Lent else if a.Unhealthy? && a.t == t then Dropping(t) else place
    case Dropping(t) => if a.DiscardConn? && a.t == t then Closed else place
    case Lent => if a.Return? && a.c == c then GoingBack(a.t) else Lent
    case GoingBack(t) =>
      if a.ReturnDead? && a.t == t then Closed
      else if a.ReturnAlive? && a.t == t then (if ServerClosing(p, c) then Closed else Idle)
      else place
    case Closed => Closed
  }

  // ---------------------------------------------------------------------------------------------
  // What a step does to what is lent, to threads and to what is closed
  // ---------------------------------------------------------------------------------------------

  /** The thread that takes the step, if it is one. */
  function Stepper(a: Step): int
  {
    match a
    case CleanUp(_, _, _) => -1
    case Penalties(_, _) => -1
    case Deactivate(_) => -1
    case MarkClosed => -1
    case WakeOnClose => -1
    case _ => a.t
  }

  predicate SameHand(x: Pc, y: Pc)
  {
    PcConn(x).Some? || PcConn(y).Some? ==> x == y
  }

  /** Thread `u` has in hand what it had. */
  predicate HandKept(p: State, q: State, u: nat)
  {
    (u in p.threads <==> u in q.threads) && (u in p.threads ==> SameHand(p.threads[u], q.threads[u]))
  }

  lemma {:induction false} WakeFirstHand(p: State, u: nat)
    ensures HandKept(p, WakeFirst(p), u)
  {
    WakeFirstShape(p);
  }

  lemma {:induction false} AbandonShape(p: State, t: nat, names: seq<Name>, todo: seq<Name>)
    requires Ranges(p) && Enabled(p, Abandon(t, names, todo))
    ensures var q := Apply(p, Abandon(t, names, todo));
            var w := WakeFirst(p.(queue := Without(p.queue, t)));
            && q == p.(threads := q.threads, queue := q.queue)
            && (q.threads == p.threads - {t} || q.threads == w.threads - {t} || q.threads == w.threads[t := Try(todo, names, false, true, false)])
  {
  }

  lemma {:induction false} QueueHeld(p: State, a: Step)
    requires Ranges(p) && Enabled(p, a) && Queueing(a)
    ensures Apply(p, a).held == p.held
  {
    match a
    case Abandon(t, names, todo) => AbandonShape(p, t, names, todo);
    case WakeFront(_) => WakeFirstShape(p);
    case WakeOnClose => WakeFirstShape(p);
    case _ =>
  }

  lemma {:induction false} ReturnHeld(p: State, a: Step)
    requires Ranges(p) && Enabled(p, a) && Returning(a)
    ensures Apply(p, a).held == if a.Return? then p.held - {a.c} else p.held
  {
    match a
    case ReturnAlive(t) => PutBackShape(p, t, 0);
    case ReturnDead(t, now) => PutBackShape(p, t, now);
    case _ =>
  }

  /** Only a health check passed or a connect succeeded lends a connection, only Return takes one back. */
  lemma {:induction false} HeldAfter(p: State, a: Step)
    requires Ranges(p) && Enabled(p, a)
    ensures Apply(p, a).held ==
              if a.Healthy? then p.held + {p.threads[a.t].c}
              else if a.Connected? then p.held + {|p.conns|}
              else if a.Return? then p.held - {a.c}
              else p.held
  {
    if Queueing(a) { QueueHeld(p, a); } else if Returning(a) { ReturnHeld(p, a); }
  }

  lemma {:induction false} QueueOthers(p: State, a: Step, u: nat)
    requires Ranges(p) && Enabled(p, a) && u != Stepper(a) && Queueing(a)
    ensures HandKept(p, Apply(p, a), u)
  {
    match a
    case Start(t, names, todo) =>
    case Lock(t, names, todo) =>
    case GiveUp(t) =>
    case Enqueue(t) =>
    case WakeUp(t, names, todo) =>
    case Timeout(t) =>
    case Abandon(t, names, todo) => AbandonShape(p, t, names, todo); WakeFirstHand(p.(queue := Without(p.queue, t)), u);
    case WakeFront(_) => WakeFirstHand(p, u);
    case MarkClosed =>
    case WakeOnClose => WakeFirstHand(p, u);
  }

  lemma {:induction false} ReturnOthers(p: State, a: Step, u: nat)
    requires Ranges(p) && Enabled(p, a) && u != Stepper(a) && Returning(a)
    ensures HandKept(p, Apply(p, a), u)
  {
    match a
    case Return(t, c) =>
    case SweepIdle(t, stale) =>
    case ReturnAlive(t) => PutBackShape(p, t, 0);
    case ReturnDead(t, now) => PutBackShape(p, t, now);
    case CleanUp(n, stale, now) =>
    case Penalties(n, stale) =>
    case Deactivate(n) =>
  }

  lemma {:induction false} BorrowOthers(p: State, a: Step, u: nat)
    requires Ranges(p) && Enabled(p, a) && u != Stepper(a) && !Queueing(a) && !Returning(a)
    ensures HandKept(p, Apply(p, a), u)
  {
    match a
    case TryServer(t) =>
    case Healthy(t) =>
    case Unhealthy(t, err) =>
    case DiscardConn(t, now, _) =>
    case Connected(t, ssr) =>
    case ConnectFailed(t, _, _, _) =>
  }

  /** No other thread's hands change. */
  lemma {:induction false} OthersAfter(p: State, a: Step, u: nat)
    requires Ranges(p) && Enabled(p, a) && u != Stepper(a)
    ensures HandKept(p, Apply(p, a), u)
  {
    if Queueing(a) { QueueOthers(p, a, u); } else if Returning(a) { ReturnOthers(p, a, u); } else { BorrowOthers(p, a, u); }
  }

  /** What the stepping thread has in hand afterwards. */
  function InHand(p: State, a: Step): Option<nat>
    requires Ranges(p) && Enabled(p, a)
  {
    match a
    case TryServer(t) =>
      var pc := p.threads[t];
      if pc.todo != [] && (p.closed ==> pc.inside) && pc.todo[0] in p.servers && p.heap[p.servers[pc.todo[0]]].idle != []
      then Some(p.heap[p.servers[pc.todo[0]]].idle[0]) else None
    case Unhealthy(t, _) => Some(p.threads[t].c)
    case Return(_, c) => Some(c)
    case SweepIdle(t, _) => Some(p.threads[t].c)
    case _ => None
  }

  predicate HandShape(a: Step, pc: Pc)
  {
    match a
    case TryServer(_) => pc.Check?
    case Unhealthy(_, _) => pc.DropConn?
    case Return(_, _) => pc.Sweep?
    case SweepIdle(_, _) => pc.PutBack?
    case _ => true
  }

  /** The stepping thread has in hand what `InHand` says, in the right way. */
  predicate HandTaken(p: State, a: Step, q: State)
    requires Ranges(p) && Enabled(p, a) && Stepper(a) >= 0
  {
    && (Stepper(a) in q.threads ==> PcConn(q.threads[Stepper(a)]) == InHand(p, a))
    && (InHand(p, a).Some? ==> Stepper(a) in q.threads && HandShape(a, q.threads[Stepper(a)]))
  }

  lemma {:induction false} QueueStepper(p: State, a: Step)
    requires Ranges(p) && Enabled(p, a) && Stepper(a) >= 0 && Queueing(a)
    ensures HandTaken(p, a, Apply(p, a))
  {
    match a
    case Abandon(t, names, todo) => AbandonShape(p, t, names, todo);
    case _ =>
  }

  lemma {:induction false} ReturnStepper(p: State, a: Step)
    requires Ranges(p) && Enabled(p, a) && Stepper(a) >= 0 && Returning(a)
    ensures HandTaken(p, a, Apply(p, a))
  {
    match a
    case Return(t, c) =>
    case SweepIdle(t, stale) =>
    case ReturnAlive(t) => PutBackShape(p, t, 0);
    case ReturnDead(t, now) => PutBackShape(p, t, now);
  }

  lemma {:induction false} BorrowStepper(p: State, a: Step)
    requires Ranges(p) && Enabled(p, a) && Stepper(a) >= 0 && !Queueing(a) && !Returning(a)
    ensures HandTaken(p, a, Apply(p, a))
  {
    match a
    case TryServer(t) =>
    case Healthy(t) =>
    case Unhealthy(t, err) =>
    case DiscardConn(t, now, _) =>
    case Connected(t, ssr) =>
    case ConnectFailed(t, _, _, _) =>
  }

  lemma {:induction false} StepperAfter(p: State, a: Step)
    requires Ranges(p) && Enabled(p, a) && Stepper(a) >= 0
    ensures HandTaken(p, a, Apply(p, a))
  {
    if Queueing(a) { QueueStepper(p, a); } else if Returning(a) { ReturnStepper(p, a); } else { BorrowStepper(p, a); }
  }

  /** The step closes connection `c`. */
  predicate Closes(p: State, a: Step, c: nat)
    requires Ranges(p) && Enabled(p, a) && c < |p.conns|
  {
    match a
    case DiscardConn(t, _, _) => p.threads[t].c == c
    case ReturnDead(t, _) => p.threads[t].c == c
    case ReturnAlive(t) => p.threads[t].c == c && (p.conns[c].name in p.servers ==> ServerClosing(p, c))
    case _ => IsAt(p, c, Idle) && Expires(p, a, c)
  }

  lemma {:induction false} StaleMember(l: seq<nat>, stale: set<nat>, c: nat)
    ensures c in Stale(l, stale) <==> c in l && c in stale
    ensures c in Fresh(l, stale) <==> c in l && c !in stale
  {
    if l != [] { StaleMember(l[1..], stale, c); }
  }

  /** An open connection nobody has stands in the idle list of its server, and conversely. */
  lemma {:induction false} IdleListed(p: State, c: nat, n: Name)
    requires Inv(p) && Ranges(p) && n in p.servers
    ensures c in p.heap[p.servers[n]].idle <==> IsAt(p, c, Idle) && p.conns[c].name == n
  {
    IdleInRange(p, n);
    if c < |p.conns| { OneConnection(p, c); }
  }

  lemma {:induction false} CloseIdleCloses(p: State, n: Name, stale: set<nat>, c: nat)
    requires Inv(p) && Ranges(p) && c < |p.conns|
    ensures CloseIdle(p, n, stale).conns[c] ==
              if IsAt(p, c, Idle) && p.conns[c].name == n && c in stale then p.conns[c].(closes := 1) else p.conns[c]
  {
    if n in p.servers {
      CloseIdleOpen(p, n, stale);
      StaleMember(p.heap[p.servers[n]].idle, stale, c);
      IdleListed(p, c, n);
    }
  }

  /** What becomes of the record of connection `c`. */
  predicate ClosedIff(p: State, a: Step, q: State, c: nat)
    requires Ranges(p) && Enabled(p, a) && c < |p.conns|
  {
    c < |q.conns| && q.conns[c] == if Closes(p, a, c) then p.conns[c].(closes := p.conns[c].closes + 1) else p.conns[c]
  }

  lemma {:induction false} QueueCloses(p: State, a: Step, c: nat)
    requires Ranges(p) && Enabled(p, a) && c < |p.conns| && Queueing(a)
    ensures ClosedIff(p, a, Apply(p, a), c) && Apply(p, a).conns == p.conns
  {
    match a
    case Abandon(t, names, todo) => AbandonShape(p, t, names, todo);
    case WakeFront(_) => WakeFirstShape(p);
    case WakeOnClose => WakeFirstShape(p);
    case _ =>
  }

  lemma {:induction false} BorrowCloses(p: State, a: Step, c: nat)
    requires Ranges(p) && Enabled(p, a) && c < |p.conns| && !Queueing(a) && !Returning(a)
    ensures ClosedIff(p, a, Apply(p, a), c)
  {
    match a
    case TryServer(t) =>
    case Healthy(t) =>
    case Unhealthy(t, err) =>
    case DiscardConn(t, now, _) =>
    case Connected(t, ssr) =>
    case ConnectFailed(t, _, _, _) =>
  }

  /** Both ways of putting a connection back close that one or none. */
  lemma {:induction false} UnregisterConns(p: State, n: Name, d: nat, now: int)
    requires Ranges(p) && d < |p.conns|
    ensures Unregister(p, n, d, now).conns == p.conns[d := p.conns[d].(closes := p.conns[d].closes + 1)]
    ensures PutIdle(p, n, d).conns ==
              if n in p.servers && !p.heap[p.servers[n]].closing then p.conns
              else p.conns[d := p.conns[d].(closes := p.conns[d].closes + 1)]
  {
  }

  lemma {:induction false} PutBackCloses(p: State, a: Step, c: nat)
    requires Ranges(p) && Enabled(p, a) && c < |p.conns| && (a.ReturnAlive? || a.ReturnDead?)
    ensures ClosedIff(p, a, Apply(p, a), c)
  {
    var d := p.threads[a.t].c;
    var now := if a.ReturnDead? then a.now else 0;
    PutBackShape(p, a.t, now);
    UnregisterConns(p, p.conns[d].name, d, now);
  }

  lemma {:induction false} CleanUpCloses(p: State, n: Name, stale: set<nat>, now: int, c: nat)
    requires Inv(p) && Ranges(p) && c < |p.conns|
    ensures ClosedIff(p, CleanUp(n, stale, now), Apply(p, CleanUp(n, stale, now)), c)
    ensures ClosedIff(p, Penalties(n, stale), Apply(p, Penalties(n, stale)), c)
  {
    CloseIdleCloses(p, n, stale, c);
    assert Apply(p, CleanUp(n, stale, now)).conns == CloseIdle(p, n, stale).conns;
  }

  lemma {:induction false} SweepCloses(p: State, t: nat, stale: set<nat>, c: nat)
    requires Inv(p) && Ranges(p) && Enabled(p, SweepIdle(t, stale)) && c < |p.conns|
    ensures ClosedIff(p, SweepIdle(t, stale), Apply(p, SweepIdle(t, stale)), c)
  {
    CloseIdleCloses(p, p.conns[p.threads[t].c].name, stale, c);
  }

  lemma {:induction false} ReturnCloses(p: State, a: Step, c: nat)
    requires Inv(p) && Ranges(p) && Enabled(p, a) && c < |p.conns| && Returning(a)
    ensures ClosedIff(p, a, Apply(p, a), c)
  {
    if a.Deactivate? { DeactivateCloses(p, a.n, c); }
    else if a.ReturnAlive? || a.ReturnDead? { PutBackCloses(p, a, c); }
    else if a.SweepIdle? { SweepCloses(p, a.t, a.stale, c); }
    else if a.CleanUp? { CleanUpCloses(p, a.n, a.stale, a.now, c); }
    else if a.Penalties? { CleanUpCloses(p, a.n, a.stale, 0, c); }
  }

  lemma {:induction false} DeactivateCloses(p: State, n: Name, c: nat)
    requires Inv(p) && Ranges(p) && c < |p.conns|
    ensures Apply(p, Deactivate(n)).conns[c] ==
              if IsAt(p, c, Idle) && p.conns[c].name == n then p.conns[c].(closes := 1) else p.conns[c]
  {
    if n in p.servers {
      var all := set d | d in p.heap[p.servers[n]].idle;
      CloseIdleCloses(p, n, all, c);
      IdleListed(p, c, n);
      assert Apply(p, Deactivate(n)).conns == CloseIdle(p, n, all).conns;
    }
  }

  /** Exactly those connections are closed, and no other is touched. */
  lemma {:induction false} ClosesAfter(p: State, a: Step, c: nat)
    requires Inv(p) && Ranges(p) && Enabled(p, a) && c < |p.conns|
    ensures ClosedIff(p, a, Apply(p, a), c)
  {
    if Queueing(a) { QueueCloses(p, a, c); } else if Returning(a) { ReturnCloses(p, a, c); } else { BorrowCloses(p, a, c); }
  }

  lemma {:induction false} ConnsAfter(p: State, a: Step)
    requires Ranges(p) && Enabled(p, a)
    ensures |Apply(p, a).conns| == |p.conns| + if a.Connected? then 1 else 0
    ensures a.Connected? ==> Apply(p, a).conns[|p.conns|] == Info(p.threads[a.t].todo[0], a.ssr, 0)
  {
    if Queueing(a) { QueueConns(p, a); } else if Returning(a) { ReturnConns(p, a); }
  }

  lemma {:induction false} QueueConns(p: State, a: Step)
    requires Ranges(p) && Enabled(p, a) && Queueing(a)
    ensures Apply(p, a).conns == p.conns
  {
    match a
    case Abandon(t, names, todo) => AbandonShape(p, t, names, todo);
    case WakeFront(_) => WakeFirstShape(p);
    case WakeOnClose => WakeFirstShape(p);
    case _ =>
  }

  lemma {:induction false} ReturnConns(p: State, a: Step)
    requires Ranges(p) && Enabled(p, a) && Returning(a)
    ensures |Apply(p, a).conns| == |p.conns|
  {
    match a
    case ReturnAlive(t) => PutBackShape(p, t, 0);
    case ReturnDead(t, now) => PutBackShape(p, t, now);
    case _ =>
  }

  // ---------------------------------------------------------------------------------------------
  // Every step moves every connection as its life has it
  // ---------------------------------------------------------------------------------------------

  /** The step leaves connection `c` where the table says. */
  predicate Moves(p: State, a: Step, c: nat, place: Place)
    requires Ranges(p) && Enabled(p, a) && (place.Unmade? || c < |p.conns|)
  {
    IsAt(Apply(p, a), c, NextPlace(p, a, c, place))
  }

  lemma {:induction false} UnmadeMoves(p: State, a: Step, c: nat)
    requires Inv(p) && Ranges(p) && Enabled(p, a) && IsAt(p, c, Unmade)
    ensures Moves(p, a, c, Unmade)
  {
    ConnsAfter(p, a);
    HeldAfter(p, a);
  }

  /** Nobody's hands and no list of lent connections gain a connection nobody had, but by taking it. */
  lemma {:induction false} StaysUnowned(p: State, a: Step, c: nat)
    requires Inv(p) && Ranges(p) && Enabled(p, a) && IsAt(p, c, Idle) && !(a.TryServer? && Takes(p, a.t, c))
    ensures !Owned(Apply(p, a), c)
  {
    StaysUnlent(p, a, c);
    forall u | u in Apply(p, a).threads ensures PcConn(Apply(p, a).threads[u]) != Some(c) {
      StaysOutOfHand(p, a, c, u);
    }
  }

  lemma {:induction false} StaysUnlent(p: State, a: Step, c: nat)
    requires Ranges(p) && Enabled(p, a) && IsAt(p, c, Idle)
    ensures c !in Apply(p, a).held
  {
    HeldAfter(p, a);
    if a.Healthy? { assert PcConn(p.threads[a.t]) == Some(p.threads[a.t].c); }
  }

  lemma {:induction false} StaysOutOfHand(p: State, a: Step, c: nat, u: nat)
    requires Ranges(p) && Enabled(p, a) && !Owned(p, c) && !(a.TryServer? && Takes(p, a.t, c)) && u in Apply(p, a).threads
    ensures PcConn(Apply(p, a).threads[u]) != Some(c)
  {
    if u == Stepper(a) {
      StepperAfter(p, a);
      if InHand(p, a) == Some(c) { StepperHad(p, a, c); }
    } else {
      OthersAfter(p, a, u);
    }
  }

  lemma {:induction false} StepperHad(p: State, a: Step, c: nat)
    requires Ranges(p) && Enabled(p, a) && Stepper(a) >= 0 && InHand(p, a) == Some(c)
    ensures Owned(p, c) || (a.TryServer? && Takes(p, a.t, c))
  {
    if a.Unhealthy? || a.SweepIdle? { assert PcConn(p.threads[a.t]) == Some(c); }
  }

  lemma {:induction false} IdleMoves(p: State, a: Step, c: nat)
    requires Inv(p) && Ranges(p) && Enabled(p, a) && IsAt(p, c, Idle)
    ensures Moves(p, a, c, Idle)
  {
    ClosesAfter(p, a, c);
    if a.TryServer? && Takes(p, a.t, c) {
      StepperAfter(p, a);
    } else if !Expires(p, a, c) {
      StaysUnowned(p, a, c);
      if Closes(p, a, c) { ClosedWasOwned(p, a, c); }
    }
  }

  /** Apart from idle ones that expire, only a connection in the stepping thread's hands is closed. */
  lemma {:induction false} ClosedWasOwned(p: State, a: Step, c: nat)
    requires Ranges(p) && Enabled(p, a) && c < |p.conns| && Closes(p, a, c)
    ensures Owned(p, c) || Expires(p, a, c)
  {
    if a.DiscardConn? || a.ReturnDead? || a.ReturnAlive? { assert PcConn(p.threads[a.t]) == Some(c); }
  }

  lemma {:induction false} CheckingMoves(p: State, a: Step, c: nat, t: nat)
    requires Inv(p) && Ranges(p) && Enabled(p, a) && IsAt(p, c, Checking(t))
    ensures Moves(p, a, c, Checking(t))
  {
    HeldAfter(p, a);
    if Stepper(a) == t { StepperAfter(p, a); } else { OthersAfter(p, a, t); }
  }

  lemma {:induction false} HadByThread(p: State, c: nat, t: nat)
    requires Inv(p) && t in p.threads && PcConn(p.threads[t]) == Some(c)
    ensures c < |p.conns| && p.conns[c].closes == 0 && Owned(p, c) && c !in p.held
  {
    assert Owned(p, c);
  }

  lemma {:induction false} DroppingMoves(p: State, a: Step, c: nat, t: nat)
    requires Inv(p) && Ranges(p) && Enabled(p, a) && IsAt(p, c, Dropping(t))
    ensures c < |p.conns| && Moves(p, a, c, Dropping(t))
  {
    HadByThread(p, c, t);
    if Stepper(a) == t {
      assert a.DiscardConn?;
      ClosesAfter(p, a, c);
    } else {
      OthersAfter(p, a, t);
    }
  }

  lemma {:induction false} LentMoves(p: State, a: Step, c: nat)
    requires Inv(p) && Ranges(p) && Enabled(p, a) && IsAt(p, c, Lent)
    ensures c < |p.conns| && Moves(p, a, c, Lent)
  {
    assert Owned(p, c);
    HeldAfter(p, a);
    if a.Return? { StepperAfter(p, a); }
  }

  lemma {:induction false} GoingBackMoves(p: State, a: Step, c: nat, t: nat)
    requires Inv(p) && Ranges(p) && Enabled(p, a) && IsAt(p, c, GoingBack(t))
    ensures c < |p.conns| && Moves(p, a, c, GoingBack(t))
  {
    HadByThread(p, c, t);
    if Stepper(a) != t {
      KeepsGoingBack(p, a, c, t);
      NotItsStep(p, a, c, t);
    } else {
      ItsStep(p, a, c, t);
      if a.SweepIdle? { SweepGoesBack(p, a, c, t); } else { BackMoves(p, a, c, t); }
    }
  }

  lemma {:induction false} ItsStep(p: State, a: Step, c: nat, t: nat)
    requires Enabled(p, a) && IsAt(p, c, GoingBack(t)) && Stepper(a) == t
    ensures (a.SweepIdle? && a.t == t) || a == ReturnAlive(t) || (a.ReturnDead? && a.t == t)
  {
  }

  lemma {:induction false} NotItsStep(p: State, a: Step, c: nat, t: nat)
    requires Ranges(p) && Enabled(p, a) && IsAt(p, c, GoingBack(t)) && c < |p.conns| && Stepper(a) != t
    ensures NextPlace(p, a, c, GoingBack(t)) == GoingBack(t)
  {
  }

  lemma {:induction false} KeepsGoingBack(p: State, a: Step, c: nat, t: nat)
    requires Ranges(p) && Enabled(p, a) && IsAt(p, c, GoingBack(t)) && Stepper(a) != t
    ensures IsAt(Apply(p, a), c, GoingBack(t))
  {
    OthersAfter(p, a, t);
  }

  lemma {:induction false} SweepGoesBack(p: State, a: Step, c: nat, t: nat)
    requires Ranges(p) && Enabled(p, a) && IsAt(p, c, GoingBack(t)) && a.SweepIdle? && a.t == t
    ensures IsAt(Apply(p, a), c, GoingBack(t))
  {
    StepperAfter(p, a);
  }

  lemma {:induction false} BackMoves(p: State, a: Step, c: nat, t: nat)
    requires Inv(p) && Ranges(p) && Enabled(p, a) && IsAt(p, c, GoingBack(t)) && (a == ReturnAlive(t) || (a.ReturnDead? && a.t == t))
    ensures c < |p.conns| && Moves(p, a, c, GoingBack(t))
  {
    HadByThread(p, c, t);
    ClosesAfter(p, a, c);
    ServerFound(p, a);
    if a.ReturnAlive? { LetGo(p, a, c, t); }
  }

  /** Whoever puts a connection back was the only one to have it. */
  lemma {:induction false} LetGo(p: State, a: Step, c: nat, t: nat)
    requires Inv(p) && Ranges(p) && Enabled(p, a) && a == ReturnAlive(t) && PcConn(p.threads[t]) == Some(c)
    ensures !Owned(Apply(p, a), c)
  {
    var q := Apply(p, a);
    HadByThread(p, c, t);
    HeldAfter(p, a);
    forall u | u in q.threads ensures PcConn(q.threads[u]) != Some(c) {
      if u == t { StepperAfter(p, a); } else { OthersAfter(p, a, u); }
    }
  }

  lemma {:induction false} ClosedMoves(p: State, a: Step, c: nat)
    requires Inv(p) && Ranges(p) && Enabled(p, a) && IsAt(p, c, Closed)
    ensures Moves(p, a, c, Closed)
  {
    ClosesAfter(p, a, c);
    if Closes(p, a, c) { ClosedWasOwned(p, a, c); }
  }

  /** Every connection is somewhere. */
  lemma {:induction false} SomePlace(p: State, c: nat)
    requires Placed(p)
    ensures exists x :: IsAt(p, c, x)
  {
    if c >= |p.conns| { assert IsAt(p, c, Unmade); }
    else if p.conns[c].closes != 0 { assert IsAt(p, c, Closed); }
    else if c in p.held { assert IsAt(p, c, Lent); }
    else if t :| t in p.threads && PcConn(p.threads[t]) == Some(c) {
      if p.threads[t].Check? { assert IsAt(p, c, Checking(t)); }
      else if p.threads[t].DropConn? { assert IsAt(p, c, Dropping(t)); }
      else { assert IsAt(p, c, GoingBack(t)); }
    } else { assert IsAt(p, c, Idle); }
  }

  function ThreadAt(x: Place): Option<nat>
  {
    match x
    case Checking(t) => Some(t)
    case Dropping(t) => Some(t)
    case GoingBack(t) => Some(t)
    case _ => None
  }

  /** No connection is in two places. */
  lemma {:induction false} PlacesApart(p: State, c: nat, x: Place, y: Place)
    requires Inv(p) && IsAt(p, c, x) && IsAt(p, c, y)
    ensures x == y
  {
    if ThreadAt(x).Some? { assert PcConn(p.threads[ThreadAt(x).value]) == Some(c); assert Owned(p, c); }
    if ThreadAt(y).Some? { assert PcConn(p.threads[ThreadAt(y).value]) == Some(c); assert Owned(p, c); }
    if x.Lent? || y.Lent? { assert Owned(p, c); }
  }

  /** Every step of every thread moves every connection as its life has it, and no other way. */
  lemma {:induction false} PlaceMoves(p: State, a: Step, c: nat, place: Place)
    requires Inv(p) && Ranges(p) && Enabled(p, a) && IsAt(p, c, place)
    ensures place.Unmade? || c < |p.conns|
    ensures IsAt(Apply(p, a), c, NextPlace(p, a, c, place))
  {
    match place
    case Unmade => UnmadeMoves(p, a, c);
    case Idle => IdleMoves(p, a, c);
    case Checking(t) => CheckingMoves(p, a, c, t);
    case Dropping(t) => DroppingMoves(p, a, c, t);
    case Lent => LentMoves(p, a, c);
    case GoingBack(t) => GoingBackMoves(p, a, c, t);
    case Closed => ClosedMoves(p, a, c);
  }

  // ---------------------------------------------------------------------------------------------
  // Who is given a connection
  // ---------------------------------------------------------------------------------------------

  predicate Within(todo: seq<Name>, names: seq<Name>)
  {
    forall n :: n in todo ==> n in names
  }

  /** The servers a thread has yet to try are among those it asked for. */
  predicate PcAsked(pc: Pc)
  {
    match pc
    case Try(todo, names, _, _, _) => Within(todo, names)
    case Check(todo, names, _) => Within(todo, names)
    case DropConn(todo, names, _, _) => Within(todo, names)
    case Connect(todo, names, _) => Within(todo, names)
    case _ => true
  }

  predicate AllAsked(p: State)
  {
    forall t :: t in p.threads ==> PcAsked(p.threads[t])
  }

  lemma {:induction false} ReorderedWithin(todo: seq<Name>, names: seq<Name>)
    requires Reordered(todo, names)
    ensures Within(todo, names)
  {
    forall n | n in todo ensures n in names { assert n in multiset(todo); assert n in multiset(names); }
  }

  lemma {:induction false} WakeFirstAsked(p: State)
    requires AllAsked(p)
    ensures AllAsked(WakeFirst(p))
  {
  }

  lemma {:induction false} RoundAsked(p: State, t: nat, names: seq<Name>, todo: seq<Name>, retry: bool)
    requires AllAsked(p) && Reordered(todo, names)
    ensures AllAsked(Round(p, t, names, todo, retry))
  {
    ReorderedWithin(todo, names);
  }

  lemma {:induction false} QueueAsked(p: State, a: Step)
    requires Ranges(p) && Enabled(p, a) && AllAsked(p) && Queueing(a)
    ensures AllAsked(Apply(p, a))
  {
    match a
    case Start(t, names, todo) => RoundAsked(p, t, names, todo, false);
    case Lock(t, names, todo) => RoundAsked(p, t, names, todo, false);
    case WakeUp(t, names, todo) => RoundAsked(p, t, names, todo, true);
    case Abandon(t, names, todo) => AbandonAsked(p, t, names, todo);
    case WakeFront(_) => WakeFirstAsked(p);
    case WakeOnClose => WakeFirstAsked(p);
    case _ =>
  }

  lemma {:induction false} AbandonAsked(p: State, t: nat, names: seq<Name>, todo: seq<Name>)
    requires Ranges(p) && Enabled(p, Abandon(t, names, todo)) && AllAsked(p)
    ensures AllAsked(Apply(p, Abandon(t, names, todo)))
  {
    var q := p.(queue := Without(p.queue, t));
    WakeFirstAsked(q);
    RoundAsked(WakeFirst(q), t, names, todo, true);
  }

  lemma {:induction false} RestWithin(todo: seq<Name>, names: seq<Name>)
    requires Within(todo, names) && todo != []
    ensures Within(todo[1..], names) && todo[0] in names
  {
  }

  lemma {:induction false} BorrowAsked(p: State, a: Step)
    requires Ranges(p) && Enabled(p, a) && AllAsked(p) && !Queueing(a) && !Returning(a)
    ensures AllAsked(Apply(p, a))
  {
    var pc := p.threads[a.t];
    assert PcAsked(pc);
    if pc.todo != [] { RestWithin(pc.todo, pc.names); }
    match a
    case TryServer(t) =>
    case Healthy(t) =>
    case Unhealthy(t, err) =>
    case DiscardConn(t, now, _) =>
    case Connected(t, ssr) =>
    case ConnectFailed(t, _, _, _) =>
  }

  lemma {:induction false} ReturnAsked(p: State, a: Step)
    requires Ranges(p) && Enabled(p, a) && AllAsked(p) && Returning(a)
    ensures AllAsked(Apply(p, a))
  {
    match a
    case ReturnAlive(t) => PutBackShape(p, t, 0);
    case ReturnDead(t, now) => PutBackShape(p, t, now);
    case _ =>
  }

  lemma {:induction false} RunAsked(p: State, run: seq<Step>)
    requires Inv(p) && AllAsked(p) && Runs(p, run)
    ensures Inv(After(p, run)) && AllAsked(After(p, run))
    decreases |run|
  {
    if run != [] {
      var a := run[0];
      StepInv(p, a);
      if Queueing(a) { QueueAsked(p, a); } else if Returning(a) { ReturnAsked(p, a); } else { BorrowAsked(p, a); }
      RunAsked(Apply(p, a), run[1..]);
    }
  }

  /** The step gives connection `c` to the caller of the thread that takes it. */
  predicate Loan(p: State, a: Step, c: nat)
    requires Ranges(p) && Enabled(p, a)
  {
    && (a.Healthy? || a.Connected?)
    && (a.Healthy? ==> IsAt(p, c, Checking(a.t))) && (a.Connected? ==> c == |p.conns|)
    && c < |Apply(p, a).conns| && Apply(p, a).conns[c].closes == 0
    && Apply(p, a).conns[c].name in p.threads[a.t].names
  }

  lemma {:induction false} LoanIsAsked(p: State, a: Step, c: nat)
    requires Inv(p) && Ranges(p) && AllAsked(p) && Enabled(p, a) && c !in p.held && c in Apply(p, a).held
    ensures Loan(p, a, c)
  {
    HeldAfter(p, a);
    var pc := p.threads[a.t];
    assert PcAsked(pc);
    RestWithin(pc.todo, pc.names);
    if a.Healthy? { HadByThread(p, c, a.t); ClosesAfter(p, a, c); } else { ConnsAfter(p, a); }
  }

  /**
   * In every run, a connection is lent only by a Borrow whose health check it has passed or that has
   * just made it; it is open, was with nobody else, and is to one of the servers that Borrow named.
   */
  lemma {:induction false} EveryLoan(max: nat, run: seq<Step>, a: Step, c: nat)
    requires max >= 1 && Runs(Init(max), run)
    requires Ranges(After(Init(max), run)) && Enabled(After(Init(max), run), a)
    requires c !in After(Init(max), run).held && c in Apply(After(Init(max), run), a).held
    ensures Loan(After(Init(max), run), a, c)
  {
    InitInv(max);
    RunAsked(Init(max), run);
    LoanIsAsked(After(Init(max), run), a, c);
  }

  // ---------------------------------------------------------------------------------------------
  // What becomes of a connection that failed its check
  // ---------------------------------------------------------------------------------------------

  predicate Dropped(run: seq<Step>, t: nat)
  {
    exists i :: 0 <= i < |run| && run[i].DiscardConn? && run[i].t == t
  }

  lemma {:induction false} ClosedForGood(p: State, run: seq<Step>, c: nat)
    requires Inv(p) && Runs(p, run) && IsAt(p, c, Closed)
    ensures IsAt(After(p, run), c, Closed) && c !in After(p, run).held
    decreases |run|
  {
    if run == [] {
      if c in p.held { PlacesApart(p, c, Closed, Lent); }
    } else {
      StepInv(p, run[0]);
      PlaceMoves(p, run[0], c, Closed);
      ClosedForGood(Apply(p, run[0]), run[1..], c);
    }
  }

  /**
   * A connection whose health check failed stays with the thread that found so until that thread
   * closes it, once; in no run is it lent again, nor anywhere else.
   */
  lemma {:induction false} RejectedForGood(p: State, run: seq<Step>, c: nat, t: nat)
    requires Inv(p) && Runs(p, run) && IsAt(p, c, Dropping(t))
    ensures IsAt(After(p, run), c, if Dropped(run, t) then Closed else Dropping(t))
    ensures c !in After(p, run).held
    decreases |run|
  {
    if run == [] {
      if c in p.held { PlacesApart(p, c, Dropping(t), Lent); }
    } else {
      var a := run[0];
      StepInv(p, a);
      PlaceMoves(p, a, c, Dropping(t));
      DroppedRest(run, t);
      if a.DiscardConn? && a.t == t { ClosedForGood(Apply(p, a), run[1..], c); }
      else { RejectedForGood(Apply(p, a), run[1..], c, t); }
    }
  }

  lemma {:induction false} DroppedRest(run: seq<Step>, t: nat)
    requires run != []
    ensures Dropped(run, t) <==> (run[0].DiscardConn? && run[0].t == t) || Dropped(run[1..], t)
  {
    if Dropped(run[1..], t) {
      var i :| 0 <= i < |run[1..]| && run[1..][i].DiscardConn? && run[1..][i].t == t;
      assert run[i + 1] == run[1..][i];
    }
    if Dropped(run, t) {
      var i :| 0 <= i < |run| && run[i].DiscardConn? && run[i].t == t;
      if i > 0 { assert run[1..][i - 1] == run[i]; }
    }
  }

  // ---------------------------------------------------------------------------------------------
  // Deactivation and clean-up
  // ---------------------------------------------------------------------------------------------

  lemma {:induction false} DeactivateShape(p: State, n: Name)
    requires Ranges(p) && n in p.servers
    ensures var q := Apply(p, Deactivate(n));
            && q.servers == p.servers && q.held == p.held && q.threads == p.threads
            && |q.heap| == |p.heap| && q.heap[p.servers[n]] == p.heap[p.servers[n]].(idle := [], closing := true)
  {
    var l := p.heap[p.servers[n]].idle;
    var all := set d | d in l;
    NoneFresh(l, all);
    var q := CloseIdle(p, n, all);
    assert q.heap == p.heap[p.servers[n] := p.heap[p.servers[n]].(idle := [])];
  }

  /** No idle connection of the server is left, each was closed, none that is lent was; it is closing. */
  lemma {:induction false} DeactivateEffect(p: State, n: Name)
    requires Inv(p) && Ranges(p) && n in p.servers
    ensures var q := Apply(p, Deactivate(n));
            && q.servers == p.servers && q.held == p.held && q.threads == p.threads
            && |q.heap| == |p.heap| && q.heap[p.servers[n]] == p.heap[p.servers[n]].(idle := [], closing := true)
    ensures forall c :: c in p.heap[p.servers[n]].idle ==> IsAt(Apply(p, Deactivate(n)), c, Closed)
  {
    DeactivateShape(p, n);
    forall c | c in p.heap[p.servers[n]].idle ensures IsAt(Apply(p, Deactivate(n)), c, Closed) {
      IdleListed(p, c, n);
      IdleMoves(p, Deactivate(n), c);
    }
  }

  lemma {:induction false} NoneFresh(l: seq<nat>, stale: set<nat>)
    requires forall c :: c in l ==> c in stale
    ensures Fresh(l, stale) == []
  {
    if l != [] { NoneFresh(l[1..], stale); }
  }

  lemma {:induction false} CleanUpShape(p: State, n: Name, stale: set<nat>, now: int)
    requires Inv(p) && Ranges(p) && n in p.servers
    ensures var q := Apply(p, CleanUp(n, stale, now)); var s := p.heap[p.servers[n]];
            && q.held == p.held && q.threads == p.threads
            && (n !in q.servers <==> Size(s.(idle := Fresh(s.idle, stale))) == 0 && !HasFailedConnect(s, now))
  {
    var s := p.heap[p.servers[n]];
    var q := CloseIdle(p, n, stale);
    assert q.heap == p.heap[p.servers[n] := s.(idle := Fresh(s.idle, stale))];
  }

  /** Nothing is left on the server, and no connect to it failed in the last three minutes. */
  predicate MayBeForgotten(s: Server, stale: set<nat>, now: int)
  {
    && (forall c :: c in s.idle ==> c in stale) && s.busy == [] && s.reservations == 0
    && (s.failedAt.Some? ==> now - s.failedAt.value >= 180_000_000_000)
  }

  /**
   * The idle connections that are too old are closed and the others stay; then the server's entry is
   * dropped just when nothing is left on it and no connect failed in the last three minutes.
   */
  lemma {:induction false} CleanUpEffect(p: State, n: Name, stale: set<nat>, now: int)
    requires Inv(p) && Ranges(p) && n in p.servers
    ensures var q := Apply(p, CleanUp(n, stale, now));
            && q.held == p.held && q.threads == p.threads
            && (n !in q.servers <==> MayBeForgotten(p.heap[p.servers[n]], stale, now))
    ensures forall c :: c in p.heap[p.servers[n]].idle ==>
              IsAt(Apply(p, CleanUp(n, stale, now)), c, if c in stale then Closed else Idle)
  {
    CleanUpShape(p, n, stale, now);
    assert p.heap[p.servers[n]].reservations >= 0;
    FreshEmpty(p.heap[p.servers[n]].idle, stale);
    forall c | c in p.heap[p.servers[n]].idle
      ensures IsAt(Apply(p, CleanUp(n, stale, now)), c, if c in stale then Closed else Idle)
    {
      CleanUpMoves(p, n, stale, now, c);
    }
  }

  lemma {:induction false} CleanUpMoves(p: State, n: Name, stale: set<nat>, now: int, c: nat)
    requires Inv(p) && Ranges(p) && n in p.servers && c in p.heap[p.servers[n]].idle
    ensures IsAt(Apply(p, CleanUp(n, stale, now)), c, if c in stale then Closed else Idle)
  {
    IdleListed(p, c, n);
    IdleMoves(p, CleanUp(n, stale, now), c);
  }

  lemma {:induction false} FreshEmpty(l: seq<nat>, stale: set<nat>)
    ensures Fresh(l, stale) == [] <==> forall c :: c in l ==> c in stale
  {
    if forall c :: c in l ==> c in stale {
      NoneFresh(l, stale);
    } else {
      var c :| c in l && c !in stale;
      StaleMember(l, stale, c);
    }
  }

  // ---------------------------------------------------------------------------------------------
  // How a Borrow goes on
  // ---------------------------------------------------------------------------------------------

  /** What Borrow does with the server it tries: use an idle connection, or pass on if it is full, or connect. */
  lemma {:induction false} TryServerChoice(p: State, t: nat)
    requires Ranges(p) && Enabled(p, TryServer(t)) && p.threads[t].todo != [] && (p.closed ==> p.threads[t].inside)
    ensures var q := Apply(p, TryServer(t)); var pc := p.threads[t]; var n := pc.todo[0];
            && n in q.servers && q.servers[n] < |q.heap| && !q.heap[q.servers[n]].closing && t in q.threads
            && var s := if n in p.servers then p.heap[p.servers[n]] else Server([], [], 0, false, None);
               if s.idle != [] then
                 && q.threads[t] == Check(pc.todo, pc.names, s.idle[0])
                 && q.heap[q.servers[n]] == s.(closing := false, idle := s.idle[1..], busy := [s.idle[0]] + s.busy)
               else if n in p.servers && |s.busy| + s.reservations >= p.max then
                 q.threads[t] == Try(pc.todo[1..], pc.names, false, pc.retry, false) && q.heap[q.servers[n]] == s.(closing := false)
               else
                 && q.threads[t] == Connect(pc.todo, pc.names, q.servers[n])
                 && q.heap[q.servers[n]] == s.(closing := false, reservations := s.reservations + 1)
  {
  }

  /**
   * After a failed connect the reservation is given up and the failure remembered, unless it is not
   * the server's fault; Borrow then goes on with the next server, unless the failure is fatal. Once
   * none is left to try it fails if the last server did, and otherwise waits.
   */
  lemma {:induction false} FailureGoesOn(p: State, t: nat, now: int, penalize: bool, fatal: bool)
    requires Ranges(p) && t in p.threads
    ensures p.threads[t].Connect? ==>
              var pc := p.threads[t]; var q := Apply(p, ConnectFailed(t, now, penalize, fatal));
              && (t in q.threads <==> !fatal) && (!fatal ==> q.threads[t] == Try(pc.todo[1..], pc.names, true, false, false))
              && |q.heap| == |p.heap| && q.heap[pc.srv].reservations == p.heap[pc.srv].reservations - 1
              && q.heap[pc.srv].failedAt == (if penalize then Some(now) else p.heap[pc.srv].failedAt)
    ensures p.threads[t].Try? && p.threads[t].todo == [] ==>
              var pc := p.threads[t]; var q := Apply(p, TryServer(t));
              if pc.err then t !in q.threads else t in q.threads && q.threads[t] == Full(pc.names)
  {
  }

  /** A failed health check: the same server again if it failed quietly, else the next unless fatal. */
  lemma {:induction false} CheckGoesOn(p: State, t: nat, now: int, fatal: bool)
    requires Ranges(p) && t in p.threads && p.threads[t].DropConn?
    ensures var pc := p.threads[t]; var q := Apply(p, DiscardConn(t, now, fatal));
            if !pc.err then t in q.threads && q.threads[t] == Try(pc.todo, pc.names, false, false, true)
            else if fatal then t !in q.threads
            else t in q.threads && q.threads[t] == Try(pc.todo[1..], pc.names, true, false, false)
  {
  }

  /** A closed pool turns away whoever comes, starts over or goes on to the next server. */
  lemma {:induction false} ClosedTurnsAway(p: State, a: Step)
    requires Ranges(p) && Enabled(p, a) && p.closed
    requires a.Start? || a.WakeUp? || (a.TryServer? && p.threads[a.t].todo != [] && !p.threads[a.t].inside)
    ensures Apply(p, a) == p.(threads := p.threads - {a.t})
  {
  }
}
