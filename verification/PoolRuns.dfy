/**
 * Every run of the pool: whatever the interleaving of the steps, the pool's invariant holds, no
 * connection is lost or closed twice, and no branch for a server that has gone missing is taken.
 */
module PoolRuns {
  import opened Bytes
  import opened Pool

  // ---------------------------------------------------------------------------------------------
  // One step
  // ---------------------------------------------------------------------------------------------

  lemma {:induction false} RoundInv(p: State, t: nat, names: seq<Name>, todo: seq<Name>, retry: bool)
    requires Inv(p) && NothingInHand(p, t)
    ensures Inv(Round(p, t, names, todo, retry))
  {
    EmptyHandedLeave(p, t);
    EmptyHandedMove(p, t, Try(todo, names, false, retry, false));
  }

  /** Only flags of servers and the hands of an empty-handed thread change. */
  lemma {:induction false} FlagsInv(p: State, q: State)
    requires Inv(p) && SameLists(p.heap, q.heap) && q == p.(heap := q.heap)
    ensures Inv(q)
  {
    forall c: nat ensures Owned(q, c) == Owned(p, c) {}
    QuietStep(p, q);
  }

  lemma {:induction false} StillFull(p: State, t: nat, i: nat, pc: Pc)
    requires Inv(p) && i < |p.heap| && NothingInHand(p, t) && EmptyHanded(pc)
    ensures Inv(SetThread(SetServer(p, i, p.heap[i].(closing := false)), t, pc))
  {
    var q := SetServer(p, i, p.heap[i].(closing := false));
    FlagsInv(p, q);
    EmptyHandedMove(q, t, pc);
  }

  lemma {:induction false} TryBorrowInv(p: State, t: nat, pc: Pc)
    requires Inv(p) && Ranges(p) && t in p.threads && p.threads[t] == pc && pc.Try? && pc.todo != []
    ensures Inv(TryBorrow(p, t, pc))
  {
    var n := pc.todo[0];
    if n !in p.servers {
      AddServerInv(p, t, n, Connect(pc.todo, pc.names, |p.heap|));
    } else if p.heap[p.servers[n]].idle != [] {
      TakeIdleInv(p, t, n, Check(pc.todo, pc.names, p.heap[p.servers[n]].idle[0]));
    } else if Size(p.heap[p.servers[n]]) >= p.max {
      StillFull(p, t, p.servers[n], Try(pc.todo[1..], pc.names, false, pc.retry, false));
    } else {
      ReserveInv(p, t, n, Connect(pc.todo, pc.names, p.servers[n]));
    }
  }

  /** unregLocked by the thread that has the connection in hand. */
  lemma {:induction false} UnregisterInv(p: State, t: nat, n: Name, c: nat, now: int)
    requires Inv(p) && Ranges(p) && t in p.threads && PcConn(p.threads[t]) == Some(c) && c < |p.conns| && p.conns[c].name == n
    ensures n in p.servers && Inv(Leave(Unregister(p, n, c, now), t))
  {
    CloseBusyInv(p, t, c, n);
    var q := CloseBusy(p, t, c, p.servers[n]);
    var s := UnregisterBusy(p.heap[p.servers[n]], c);
    if Size(s) == 0 && !HasFailedConnect(s, now) { Forgotten(q, n); }
  }

  lemma {:induction false} PutIdleInv(p: State, t: nat, n: Name, c: nat)
    requires Inv(p) && Ranges(p) && t in p.threads && PcConn(p.threads[t]) == Some(c) && c < |p.conns| && p.conns[c].name == n
    ensures n in p.servers && Inv(Leave(PutIdle(p, n, c), t))
  {
    CloseBusyInv(p, t, c, n);
    IdleAgainInv(p, t, c, n);
    var q := CloseBusy(p, t, c, p.servers[n]);
    var s := UnregisterBusy(p.heap[p.servers[n]], c);
    if s.closing && Size(s) == 0 { Forgotten(q, n); }
  }

  /** After it let go of what it had, a thread may go on anywhere empty-handed. */
  lemma {:induction false} GoOn(q: State, t: nat, pc: Pc)
    requires Inv(Leave(q, t)) && EmptyHanded(pc)
    ensures Inv(SetThread(q, t, pc))
  {
    EmptyHandedMove(Leave(q, t), t, pc);
    assert SetThread(Leave(q, t), t, pc) == SetThread(q, t, pc);
  }

  lemma {:induction false} DiscardConnInv(p: State, a: Step)
    requires Inv(p) && Ranges(p) && a.DiscardConn? && Enabled(p, a)
    ensures Inv(Apply(p, a))
  {
    var pc := p.threads[a.t];
    UnregisterInv(p, a.t, pc.todo[0], pc.c, a.now);
    var q := Unregister(p, pc.todo[0], pc.c, a.now);
    GoOn(q, a.t, Try(pc.todo, pc.names, false, false, true));
    GoOn(q, a.t, Try(pc.todo[1..], pc.names, true, false, false));
  }

  lemma {:induction false} ConnectedInv(p: State, q: State, t: nat, n: Name, ssr: bool)
    requires Inv(p) && t in p.threads && p.threads[t].Connect? && p.threads[t].srv < |p.heap|
    requires p.threads[t].todo != [] && p.threads[t].todo[0] == n && q == Register(p, t, p.threads[t].srv, n, ssr)
    ensures Inv(q)
  {
    RegisterInv(p, t, n, ssr);
  }

  lemma {:induction false} FailedInv(p: State, a: Step)
    requires Inv(p) && Ranges(p) && a.ConnectFailed? && Enabled(p, a)
    ensures Inv(Apply(p, a))
  {
    ConnectFailedInv(p, Apply(p, a), a.t, p.threads[a.t].todo[0]);
  }

  /** Return's first critical section, with the idle connections swept. */
  lemma {:induction false} SweepIdleInv(p: State, t: nat, n: Name, c: nat, stale: set<nat>)
    requires Inv(p) && Ranges(p) && t in p.threads && p.threads[t] == Sweep(c)
    ensures Inv(SetThread(CloseIdle(p, n, stale), t, PutBack(c)))
  {
    CloseIdleInv(p, n, stale);
    SweptInv(CloseIdle(p, n, stale), t, c);
  }

  lemma {:induction false} SweptInv(p: State, t: nat, c: nat)
    requires Inv(p) && t in p.threads && p.threads[t] == Sweep(c)
    ensures Inv(SetThread(p, t, PutBack(c)))
  {
    assert PcConn(p.threads[t]) == Some(c);
    HandOver(p, SetThread(p, t, PutBack(c)), t, c);
  }

  /** Return's second critical section, written out. */
  lemma {:induction false} PutBackShape(p: State, t: nat, now: int)
    requires Ranges(p) && t in p.threads && p.threads[t].PutBack?
    ensures var c := p.threads[t].c; Apply(p, ReturnAlive(t)) == SetThread(PutIdle(p, p.conns[c].name, c), t, Notify)
    ensures var c := p.threads[t].c; Apply(p, ReturnDead(t, now)) == SetThread(Unregister(p, p.conns[c].name, c, now), t, Notify)
  {
  }

  lemma {:induction false} BackAlive(p: State, q: State, t: nat, n: Name, c: nat)
    requires Inv(p) && Ranges(p) && t in p.threads && PcConn(p.threads[t]) == Some(c) && c < |p.conns| && p.conns[c].name == n
    requires q == PutIdle(p, n, c)
    ensures Inv(SetThread(q, t, Notify))
  {
    PutIdleInv(p, t, n, c);
    GoOn(q, t, Notify);
  }

  lemma {:induction false} BackDead(p: State, t: nat, n: Name, c: nat, now: int)
    requires Inv(p) && Ranges(p) && t in p.threads && PcConn(p.threads[t]) == Some(c) && c < |p.conns| && p.conns[c].name == n
    ensures Inv(SetThread(Unregister(p, n, c, now), t, Notify))
  {
    UnregisterInv(p, t, n, c, now);
    GoOn(Unregister(p, n, c, now), t, Notify);
  }

  lemma {:induction false} LockInv(p: State, t: nat, names: seq<Name>, todo: seq<Name>)
    requires Inv(p) && Ranges(p) && Enabled(p, Lock(t, names, todo))
    ensures Inv(Apply(p, Lock(t, names, todo)))
  {
    RoundInv(p, t, names, todo, false);
    var q := SetThread(p, t, Locked(p.threads[t].names));
    EmptyHandedMove(p, t, Locked(p.threads[t].names));
    QueueMove(q, q.(queueMut := Some(t)));
  }

  lemma {:induction false} EnqueueInv(p: State, t: nat)
    requires Inv(p) && Ranges(p) && Enabled(p, Enqueue(t))
    ensures Inv(Apply(p, Enqueue(t)))
  {
    var q := SetThread(p, t, Wait(p.threads[t].names, false));
    EmptyHandedMove(p, t, Wait(p.threads[t].names, false));
    QueueMove(q, q.(queue := q.queue + [t], queueMut := None));
  }

  lemma {:induction false} AbandonInv(p: State, t: nat, names: seq<Name>, todo: seq<Name>)
    requires Inv(p) && Ranges(p) && Enabled(p, Abandon(t, names, todo))
    ensures Inv(Apply(p, Abandon(t, names, todo)))
  {
    var q := p.(queue := Without(p.queue, t));
    QueueMove(p, q);
    EmptyHandedLeave(q, t);
    WakeFirstInv(q);
    WakeFirstShape(q);
    RoundInv(WakeFirst(q), t, names, todo, true);
  }

  lemma {:induction false} WakeFrontInv(p: State, t: nat)
    requires Inv(p) && Ranges(p) && Enabled(p, WakeFront(t))
    ensures Inv(Apply(p, WakeFront(t)))
  {
    WakeFirstInv(p);
    WakeFirstShape(p);
    EmptyHandedLeave(WakeFirst(p), t);
  }

  lemma {:induction false} HealthyInv(p: State, t: nat, c: nat)
    requires Inv(p) && t in p.threads && PcConn(p.threads[t]) == Some(c)
    ensures Inv(Leave(p, t).(held := p.held + {c}))
  {
    HandOver(p, Leave(p, t).(held := p.held + {c}), t, c);
  }

  lemma {:induction false} UnhealthyInv(p: State, t: nat, err: bool)
    requires Inv(p) && Ranges(p) && Enabled(p, Unhealthy(t, err))
    ensures Inv(Apply(p, Unhealthy(t, err)))
  {
    var pc := p.threads[t];
    assert PcConn(pc) == Some(pc.c);
    HandOver(p, SetThread(p, t, DropConn(pc.todo, pc.names, pc.c, err)), t, pc.c);
  }

  lemma {:induction false} ReturnInv(p: State, t: nat, c: nat)
    requires Inv(p) && Ranges(p) && Enabled(p, Return(t, c))
    ensures Inv(Apply(p, Return(t, c)))
  {
    HandOver(p, SetThread(p, t, Sweep(c)).(held := p.held - {c}), t, c);
  }

  /** An entry may be dropped when nothing is left of it. */
  lemma {:induction false} MayForget(q: State, n: Name)
    requires Inv(q) && n in q.servers
    ensures Size(q.heap[q.servers[n]]) == 0 ==> Inv(q.(servers := q.servers - {n}))
  {
    if Size(q.heap[q.servers[n]]) == 0 { Forgotten(q, n); }
  }

  lemma {:induction false} CleanUpInv(p: State, n: Name, stale: set<nat>, now: int)
    requires Inv(p) && Ranges(p)
    ensures Inv(Apply(p, CleanUp(n, stale, now)))
  {
    CloseIdleInv(p, n, stale);
    if n in p.servers { MayForget(CloseIdle(p, n, stale), n); }
  }

  lemma {:induction false} StartClosingInv(q: State, i: nat)
    requires Inv(q) && i < |q.heap|
    ensures Inv(SetServer(q, i, q.heap[i].(closing := true)))
  {
    FlagsInv(q, SetServer(q, i, q.heap[i].(closing := true)));
  }

  lemma {:induction false} DeactivateInv(p: State, n: Name, stale: set<nat>)
    requires Inv(p) && Ranges(p) && n in p.servers
    ensures var q := CloseIdle(p, n, stale); Inv(SetServer(q, p.servers[n], q.heap[p.servers[n]].(closing := true)))
  {
    CloseIdleInv(p, n, stale);
    StartClosingInv(CloseIdle(p, n, stale), p.servers[n]);
  }

  lemma {:induction false} TryServerInv(p: State, t: nat)
    requires Inv(p) && Ranges(p) && Enabled(p, TryServer(t))
    ensures Inv(Apply(p, TryServer(t)))
  {
    var pc := p.threads[t];
    EmptyHandedLeave(p, t);
    EmptyHandedMove(p, t, Full(pc.names));
    if pc.todo != [] { TryBorrowInv(p, t, pc); }
  }

  predicate Queueing(a: Step)
  {
    a.Start? || a.Lock? || a.GiveUp? || a.Enqueue? || a.WakeUp? || a.Timeout? || a.Abandon? || a.WakeFront? || a.MarkClosed? || a.WakeOnClose?
  }

  predicate Returning(a: Step)
  {
    a.Return? || a.SweepIdle? || a.ReturnAlive? || a.ReturnDead? || a.CleanUp? || a.Penalties? || a.Deactivate?
  }

  lemma {:induction false} QueueStepInv(p: State, a: Step)
    requires Inv(p) && Ranges(p) && Enabled(p, a) && Queueing(a)
    ensures Inv(Apply(p, a))
  {
    match a {
      case Start(t, names, todo) => RoundInv(p, t, names, todo, false);
      case Lock(t, names, todo) => LockInv(p, t, names, todo);
      case GiveUp(t) => EmptyHandedLeave(p, t);
      case Enqueue(t) => EnqueueInv(p, t);
      case WakeUp(t, names, todo) => RoundInv(p, t, names, todo, true);
      case Timeout(t) => EmptyHandedMove(p, t, TimedOut(p.threads[t].names, p.threads[t].woken));
      case Abandon(t, names, todo) => AbandonInv(p, t, names, todo);
      case WakeFront(t) => WakeFrontInv(p, t);
      case MarkClosed => QueueMove(p, p.(closed := true));
      case WakeOnClose => WakeFirstInv(p);
    }
  }

  lemma {:induction false} ReturnStepInv(p: State, a: Step)
    requires Inv(p) && Ranges(p) && Enabled(p, a) && Returning(a)
    ensures Inv(Apply(p, a))
  {
    match a {
      case Return(t, c) => ReturnInv(p, t, c);
      case SweepIdle(t, stale) => SweepIdleInv(p, t, p.conns[p.threads[t].c].name, p.threads[t].c, stale);
      case ReturnAlive(t) =>
        BackAlive(p, PutIdle(p, p.conns[p.threads[t].c].name, p.threads[t].c), t, p.conns[p.threads[t].c].name, p.threads[t].c);
        PutBackShape(p, t, 0);
      case ReturnDead(t, now) =>
        BackDead(p, t, p.conns[p.threads[t].c].name, p.threads[t].c, now);
        PutBackShape(p, t, now);
      case CleanUp(n, stale, now) => CleanUpInv(p, n, stale, now);
      case Penalties(n, stale) => CloseIdleInv(p, n, stale);
      case Deactivate(n) => if n in p.servers { DeactivateInv(p, n, set c | c in p.heap[p.servers[n]].idle); }
    }
  }

  lemma {:induction false} BorrowStepInv(p: State, a: Step)
    requires Inv(p) && Ranges(p) && Enabled(p, a) && !Queueing(a) && !Returning(a)
    ensures Inv(Apply(p, a))
  {
    match a {
      case TryServer(t) => TryServerInv(p, t);
      case Healthy(t) => HealthyInv(p, t, p.threads[t].c);
      case Unhealthy(t, err) => UnhealthyInv(p, t, err);
      case DiscardConn(_, _, _) => DiscardConnInv(p, a);
      case Connected(t, ssr) => ConnectedInv(p, Apply(p, a), t, p.threads[t].todo[0], ssr);
      case ConnectFailed(_, _, _, _) => FailedInv(p, a);
    }
  }

  /** Every step keeps the invariant. */
  lemma {:induction false} StepInv(p: State, a: Step)
    requires Inv(p) && Ranges(p) && Enabled(p, a)
    ensures Inv(Apply(p, a)) && Ranges(Apply(p, a))
  {
    if Queueing(a) { QueueStepInv(p, a); } else if Returning(a) { ReturnStepInv(p, a); } else { BorrowStepInv(p, a); }
    InvRanges(Apply(p, a));
  }

  // ---------------------------------------------------------------------------------------------
  // Whole runs
  // ---------------------------------------------------------------------------------------------

  /** The steps can be taken one after the other. */
  ghost predicate Runs(p: State, run: seq<Step>)
    decreases |run|
  {
    run == [] || (Ranges(p) && Enabled(p, run[0]) && Runs(Apply(p, run[0]), run[1..]))
  }

  ghost function After(p: State, run: seq<Step>): State
    requires Runs(p, run)
    decreases |run|
  {
    if run == [] then p else After(Apply(p, run[0]), run[1..])
  }

  lemma {:induction false} InitInv(max: nat)
    requires max >= 1
    ensures Inv(Init(max)) && Ranges(Init(max))
  {
    assert OpenSsr([], true) == {} && OpenSsr([], false) == {};
  }

  lemma {:induction false} RunInv(p: State, run: seq<Step>)
    requires Inv(p) && Runs(p, run)
    ensures Inv(After(p, run))
    decreases |run|
  {
    InvRanges(p);
    if run != [] {
      StepInv(p, run[0]);
      RunInv(Apply(p, run[0]), run[1..]);
    }
  }

  /** Every interleaving of any steps of any number of threads, from an empty pool. */
  lemma {:induction false} EveryRun(max: nat, run: seq<Step>)
    requires max >= 1 && Runs(Init(max), run)
    ensures Inv(After(Init(max), run))
  {
    InitInv(max);
    RunInv(Init(max), run);
  }

  /** Whoever has a connection or a reservation finds its server under its name. */
  predicate ServerThere(p: State, a: Step)
  {
    match a
    case DiscardConn(t, _, _) => t in p.threads && p.threads[t].DropConn? && p.threads[t].todo != [] && p.threads[t].todo[0] in p.servers
    case Connected(t, _) => t in p.threads && p.threads[t].Connect? && p.threads[t].srv in p.servers.Values
    case ConnectFailed(t, _, _, _) => t in p.threads && p.threads[t].Connect? && p.threads[t].srv in p.servers.Values
    case ReturnAlive(t) => t in p.threads && p.threads[t].PutBack? && p.threads[t].c < |p.conns| && p.conns[p.threads[t].c].name in p.servers
    case ReturnDead(t, _) => t in p.threads && p.threads[t].PutBack? && p.threads[t].c < |p.conns| && p.conns[p.threads[t].c].name in p.servers
    case _ => true
  }

  /**
   * The branches for a missing server cannot be reached, neither when a connection comes back nor
   * in the error callback of a connection somebody has, and a reservation ends on the record in use.
   */
  lemma {:induction false} ServerFound(p: State, a: Step)
    requires Inv(p) && Enabled(p, a)
    ensures ServerThere(p, a)
    ensures forall c: nat :: Owned(p, c) ==> c < |p.conns| && p.conns[c].name in p.servers
  {
    forall c: nat | Owned(p, c) ensures c < |p.conns| && p.conns[c].name in p.servers {
      BusyIsOwned(p, p.conns[c].name, c);
    }
    if a.DiscardConn? || a.ReturnAlive? || a.ReturnDead? { assert Owned(p, p.threads[a.t].c); }
  }

  /** What the invariant says of one connection. */
  lemma {:induction false} OneConnection(p: State, c: nat)
    requires Inv(p) && c < |p.conns|
    ensures p.conns[c].closes <= 1
    ensures forall n :: n in p.servers ==>
              var s := p.heap[p.servers[n]];
              && multiset(s.idle)[c] + multiset(s.busy)[c] == (if p.conns[c].closes == 0 && p.conns[c].name == n then 1 else 0)
              && (c in s.busy <==> p.conns[c].name == n && Owned(p, c))
    ensures forall i :: 0 <= i < |p.heap| && i !in p.servers.Values ==> c !in p.heap[i].idle && c !in p.heap[i].busy
  {
    forall n | n in p.servers
      ensures var s := p.heap[p.servers[n]];
              && multiset(s.idle)[c] + multiset(s.busy)[c] == (if p.conns[c].closes == 0 && p.conns[c].name == n then 1 else 0)
              && (c in s.busy <==> p.conns[c].name == n && Owned(p, c))
    {
      var s := p.heap[p.servers[n]];
      assert (multiset(s.idle) + multiset(s.busy))[c] == multiset(OpenOf(p.conns, n))[c];
      assert c in s.busy <==> c in multiset(OwnedOf(p, n));
    }
  }

  /**
   * In every reachable state no server exceeds the maximum, neither tracker counter has run below
   * zero, the counters are right, and whatever step comes next finds the server it looks for.
   */
  lemma {:induction false} PoolSafe(max: nat, run: seq<Step>)
    requires max >= 1 && Runs(Init(max), run)
    ensures var p := After(Init(max), run);
            && (forall i :: 0 <= i < |p.heap| ==>
                  0 <= p.heap[i].reservations && |p.heap[i].idle| + |p.heap[i].busy| + p.heap[i].reservations <= max)
            && p.ssrOn == |OpenSsr(p.conns, true)| && p.ssrOff == |OpenSsr(p.conns, false)|
            && (forall c :: 0 <= c < |p.conns| ==> p.conns[c].closes <= 1)
            && (forall a :: Enabled(p, a) ==> ServerThere(p, a))
  {
    var p := After(Init(max), run);
    EveryRun(max, run);
    MaxStays(Init(max), run);
    forall a | Enabled(p, a) ensures ServerThere(p, a) { ServerFound(p, a); }
  }

  lemma {:induction false} MaxStays(p: State, run: seq<Step>)
    requires Inv(p) && Runs(p, run)
    ensures After(p, run).max == p.max
    decreases |run|
  {
    InvRanges(p);
    if run != [] {
      StepInv(p, run[0]);
      MaxStays(Apply(p, run[0]), run[1..]);
    }
  }
}
