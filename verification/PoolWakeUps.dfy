/**
 * The waiter queue. In every run the queue lists exactly the waiters nobody has woken, so a wake-up
 * always finds its channel empty. With one server whose entry stays and whose connects and checks
 * succeed, no wake-up is lost; when the entry is dropped, one can be.
 */
module PoolWakeUps {
  import opened Bytes
  import opened Pool
  import opened PoolRuns
  import PoolServer

  predicate Sleeping(pc: Pc)
  {
    (pc.Wait? || pc.TimedOut?) && !pc.woken
  }

  /** The queue lists the waiters not woken, each once; its lock is held across steps by a thread about to enqueue. */
  ghost predicate Queued(p: State)
  {
    && (forall i, j :: 0 <= i < j < |p.queue| ==> p.queue[i] != p.queue[j])
    && (forall t :: t in p.queue <==> t in p.threads && Sleeping(p.threads[t]))
    && (forall t :: p.queueMut == Some(t) <==> t in p.threads && p.threads[t].Locked?)
  }

  // ---------------------------------------------------------------------------------------------
  // Kept by every step
  // ---------------------------------------------------------------------------------------------

  /** Neither the thread's waiting nor the lock is involved. */
  predicate Bystander(pc: Pc)
  {
    !Sleeping(pc) && !pc.Locked?
  }

  lemma {:induction false} OneMoves(p: State, q: State, t: nat)
    requires Queued(p) && OnlyThread(p, q, t) && q.queue == p.queue && q.queueMut == p.queueMut
    requires (t in p.threads ==> Bystander(p.threads[t])) && (t in q.threads ==> Bystander(q.threads[t]))
    ensures Queued(q)
  {
    assert t !in p.queue;
  }

  lemma {:induction false} WithoutDistinct(l: seq<nat>, c: nat)
    requires forall i, j :: 0 <= i < j < |l| ==> l[i] != l[j]
    ensures var r := Without(l, c);
            && (forall i, j :: 0 <= i < j < |r| ==> r[i] != r[j])
            && (forall x :: x in r <==> x in l && x != c)
  {
    if l != [] {
      assert forall x :: x in l <==> x == l[0] || x in l[1..];
      WithoutDistinct(l[1..], c);
      var r := Without(l[1..], c);
      if l[0] != c {
        assert Without(l, c) == [l[0]] + r;
        assert l[0] !in l[1..];
        assert forall x :: x in [l[0]] + r <==> x == l[0] || x in r;
      }
    }
  }

  /** Waking the front waiter: its channel is empty, and afterwards it alone has one token more. */
  lemma {:induction false} WakeFirstQueued(p: State)
    requires Queued(p)
    ensures Queued(WakeFirst(p))
    ensures p.queue != [] ==> p.queue[0] in p.threads && Sleeping(p.threads[p.queue[0]])
    ensures p.queue != [] ==> OnlyThread(p, WakeFirst(p), p.queue[0]) && WakeFirst(p).queue == p.queue[1..]
    ensures p.queue != [] ==> var pc := WakeFirst(p).threads[p.queue[0]]; (pc.Wait? || pc.TimedOut?) && pc.woken
  {
    if p.queue != [] {
      var t := p.queue[0];
      assert t in p.queue;
      var q := WakeFirst(p);
      assert forall x :: x in p.queue <==> x == t || x in p.queue[1..];
    }
  }

  lemma {:induction false} LeaveQueued(p: State, t: nat)
    requires Queued(p) && (t in p.threads ==> Bystander(p.threads[t]))
    ensures Queued(Leave(p, t))
  {
    OneMoves(p, Leave(p, t), t);
  }

  lemma {:induction false} RoundQueued(p: State, t: nat, names: seq<Name>, todo: seq<Name>, retry: bool)
    requires Queued(p) && (t in p.threads ==> Bystander(p.threads[t]))
    ensures Queued(Round(p, t, names, todo, retry))
  {
    OneMoves(p, Round(p, t, names, todo, retry), t);
  }

  lemma {:induction false} AbandonQueued(p: State, t: nat, names: seq<Name>, todo: seq<Name>)
    requires Queued(p) && Ranges(p) && Enabled(p, Abandon(t, names, todo))
    ensures Queued(Apply(p, Abandon(t, names, todo)))
  {
    var pc := p.threads[t];
    WithoutDistinct(p.queue, t);
    var q := p.(queue := Without(p.queue, t));
    if pc.woken {
      assert Queued(q);
      WakeFirstQueued(q);
      WakeFirstShape(q);
      assert Bystander(WakeFirst(q).threads[t]);
      RoundQueued(WakeFirst(q), t, names, todo, true);
    } else {
      assert Queued(Leave(q, t));
    }
  }

  lemma {:induction false} QueueStepQueued(p: State, a: Step)
    requires Queued(p) && Ranges(p) && Enabled(p, a) && Queueing(a) && !a.Abandon?
    ensures Queued(Apply(p, a))
  {
    match a {
      case Start(t, names, todo) => RoundQueued(p, t, names, todo, false);
      case Lock(t, names, todo) => RoundQueued(p, t, names, todo, false);
      case GiveUp(t) => LeaveQueued(p, t);
      case Enqueue(t) =>
        assert t !in p.queue;
        assert forall x :: x in p.queue + [t] <==> x == t || x in p.queue;
      case WakeUp(t, names, todo) => RoundQueued(p, t, names, todo, true);
      case Timeout(t) =>
      case WakeFront(t) => WakeFirstQueued(p); WakeFirstShape(p); LeaveQueued(WakeFirst(p), t);
      case MarkClosed =>
      case WakeOnClose => WakeFirstQueued(p);
    }
  }

  predicate Upkeep(a: Step)
  {
    a.CleanUp? || a.Penalties? || a.Deactivate?
  }

  /** The steps on servers leave the queue alone and move one bystander at most. */
  ghost predicate MovesOne(p: State, q: State, t: nat)
  {
    && q.queue == p.queue && q.queueMut == p.queueMut && OnlyThread(p, q, t)
    && (t in p.threads ==> Bystander(p.threads[t])) && (t in q.threads ==> Bystander(q.threads[t]))
  }

  lemma {:induction false} BorrowMovesOne(p: State, a: Step)
    requires Ranges(p) && Enabled(p, a) && !Queueing(a) && !Returning(a)
    ensures MovesOne(p, Apply(p, a), a.t)
  {
    match a {
      case TryServer(t) =>
      case Healthy(t) =>
      case Unhealthy(t, _) =>
      case DiscardConn(t, now, _) =>
        var q := Unregister(p, p.threads[t].todo[0], p.threads[t].c, now);
        assert q.threads == p.threads;
      case Connected(t, _) =>
      case ConnectFailed(t, _, _, _) =>
    }
  }

  lemma {:induction false} ReturnMovesOne(p: State, a: Step)
    requires Ranges(p) && Enabled(p, a) && Returning(a) && !Upkeep(a)
    ensures MovesOne(p, Apply(p, a), a.t)
  {
    match a {
      case Return(t, _) =>
      case SweepIdle(t, stale) =>
      case ReturnAlive(t) => PutBackShape(p, t, 0);
      case ReturnDead(t, now) => PutBackShape(p, t, now);
    }
  }

  lemma {:induction false} UpkeepMovesNone(p: State, a: Step)
    requires Ranges(p) && Upkeep(a)
    ensures var q := Apply(p, a); q.queue == p.queue && q.queueMut == p.queueMut && q.threads == p.threads
  {
  }

  lemma {:induction false} ServerStepQueued(p: State, a: Step)
    requires Queued(p) && Ranges(p) && Enabled(p, a) && !Queueing(a)
    ensures Queued(Apply(p, a))
  {
    if Upkeep(a) {
      UpkeepMovesNone(p, a);
    } else {
      if Returning(a) { ReturnMovesOne(p, a); } else { BorrowMovesOne(p, a); }
      OneMoves(p, Apply(p, a), a.t);
    }
  }

  lemma {:induction false} StepQueued(p: State, a: Step)
    requires Queued(p) && Ranges(p) && Enabled(p, a)
    ensures Queued(Apply(p, a))
  {
    if a.Abandon? {
      AbandonQueued(p, a.t, a.names, a.todo);
    } else if Queueing(a) {
      QueueStepQueued(p, a);
    } else {
      ServerStepQueued(p, a);
    }
  }

  // ---------------------------------------------------------------------------------------------
  // One server: no wake-up is lost
  // ---------------------------------------------------------------------------------------------

  /** A step of a run in which connects and health checks succeed, the pool is open and there is one server. */
  predicate Smooth(a: Step, n: Name)
  {
    match a
    case Start(_, names, _) => names == [n]
    case Lock(_, names, _) => names == [n]
    case WakeUp(_, names, _) => names == [n]
    case Abandon(_, names, _) => names == [n]
    case Unhealthy(_, _) => false
    case DiscardConn(_, _, _) => false
    case ConnectFailed(_, _, _, _) => false
    case MarkClosed => false
    case WakeOnClose => false
    case _ => true
  }

  /** Where a thread can be in such a run. */
  predicate OnServer(pc: Pc, n: Name)
  {
    match pc
    case Try(todo, names, err, _, inside) => names == [n] && (todo == [n] || todo == []) && !err && !inside
    case Check(todo, _, _) => todo == [n]
    case DropConn(_, _, _, _) => false
    case Connect(todo, _, _) => todo == [n]
    case Full(names) => names == [n]
    case Locked(names) => names == [n]
    case _ => true
  }

  predicate Alone(p: State, n: Name)
  {
    && !p.closed
    && (forall t :: t in p.threads ==> OnServer(p.threads[t], n))
    && (forall c :: 0 <= c < |p.conns| ==> p.conns[c].name == n)
    && (forall t :: t in p.threads && (p.threads[t].Full? || (p.threads[t].Try? && p.threads[t].todo == [])) ==> n in p.servers)
  }

  /** A Return about to look at the queue, or a woken waiter that has not yet tried again. */
  predicate Token(pc: Pc)
  {
    pc.Notify? || ((pc.Wait? || pc.TimedOut?) && pc.woken) || (pc.Try? && pc.retry && pc.todo != [])
  }

  function Tokens(threads: map<nat, Pc>): set<nat>
  {
    set t | t in threads && Token(threads[t])
  }

  function TokenAt(threads: map<nat, Pc>, t: nat): nat
  {
    if t in threads && Token(threads[t]) then 1 else 0
  }

  /** The capacity of the server not in use and not spoken for. */
  function Free(p: State, n: Name): int
    requires n in p.servers && p.servers[n] < |p.heap|
  {
    p.max - |p.heap[p.servers[n]].busy| - p.heap[p.servers[n]].reservations
  }

  predicate Watching(p: State)
  {
    p.queue != [] || p.queueMut != None
  }

  /** While anybody waits or is about to, each free place has a wake-up on its way to it. */
  predicate NoneLost(p: State, n: Name)
  {
    Watching(p) ==> n in p.servers && p.servers[n] < |p.heap| && Free(p, n) <= |Tokens(p.threads)|
  }

  lemma {:induction false} OneToken(p: State, q: State, t: nat)
    requires OnlyThread(p, q, t)
    ensures |Tokens(q.threads)| - TokenAt(q.threads, t) == |Tokens(p.threads)| - TokenAt(p.threads, t)
  {
    assert Tokens(q.threads) - {t} == Tokens(p.threads) - {t};
    assert |Tokens(p.threads) - {t}| == |Tokens(p.threads)| - TokenAt(p.threads, t);
    assert |Tokens(q.threads) - {t}| == |Tokens(q.threads)| - TokenAt(q.threads, t);
  }

  lemma {:induction false} JustOne(todo: seq<Name>, n: Name)
    requires Reordered(todo, [n])
    ensures todo == [n]
  {
    assert |todo| == |multiset(todo)| == 1;
    assert todo[0] in multiset(todo);
  }

  /** A wake-up sent to the front of a queue that is not empty is one more on its way. */
  lemma {:induction false} WakeFirstTokens(p: State)
    requires Queued(p)
    ensures |Tokens(WakeFirst(p).threads)| == |Tokens(p.threads)| + (if p.queue == [] then 0 else 1)
  {
    WakeFirstQueued(p);
    if p.queue != [] { OneToken(p, WakeFirst(p), p.queue[0]); }
  }

  /** The servers are as they were and one thread has moved, on this server still. */
  ghost predicate Moved(p: State, q: State, t: nat, n: Name)
  {
    && q.servers == p.servers && q.heap == p.heap && q.max == p.max && q.conns == p.conns && !q.closed && OnlyThread(p, q, t)
    && (t in q.threads ==> OnServer(q.threads[t], n) && (q.threads[t].Full? || (q.threads[t].Try? && q.threads[t].todo == []) ==> n in q.servers))
  }

  lemma {:induction false} MovedNoneLost(p: State, q: State, t: nat, n: Name)
    requires Alone(p, n) && NoneLost(p, n) && Moved(p, q, t, n)
    requires Watching(q) ==> Watching(p) && TokenAt(q.threads, t) >= TokenAt(p.threads, t)
    ensures Alone(q, n) && NoneLost(q, n)
  {
    OneToken(p, q, t);
  }

  lemma {:induction false} WakeFirstNoneLost(p: State, n: Name)
    requires Queued(p) && Alone(p, n) && NoneLost(p, n)
    ensures Alone(WakeFirst(p), n) && NoneLost(WakeFirst(p), n)
  {
    WakeFirstQueued(p);
    if p.queue != [] { MovedNoneLost(p, WakeFirst(p), p.queue[0], n); }
  }

  /** Return looks at the queue: either it passes its token on, or nobody waits. */
  lemma {:induction false} WakeFrontNoneLost(p: State, t: nat, n: Name)
    requires Ranges(p) && Queued(p) && Alone(p, n) && NoneLost(p, n) && Enabled(p, WakeFront(t))
    ensures var q := Apply(p, WakeFront(t)); Alone(q, n) && NoneLost(q, n)
  {
    var r := WakeFirst(p);
    var q := Leave(r, t);
    WakeFirstNoneLost(p, n);
    WakeFirstShape(p);
    WakeFirstTokens(p);
    OneToken(r, q, t);
    assert Watching(q) ==> p.queue != [];
  }

  lemma {:induction false} WokenGoesOn(r: State, t: nat, n: Name)
    requires Queued(r) && Alone(r, n) && NoneLost(r, n) && t in r.threads && r.threads[t].TimedOut? && r.threads[t].woken
    ensures var q := Round(WakeFirst(r), t, [n], [n], true); Alone(q, n) && NoneLost(q, n)
  {
    WakeFirstNoneLost(r, n);
    WakeFirstQueued(r);
    WakeFirstShape(r);
    assert t !in r.queue;
    assert WakeFirst(r).threads[t] == r.threads[t];
    MovedNoneLost(WakeFirst(r), Round(WakeFirst(r), t, [n], [n], true), t, n);
  }

  /** The waiter that timed out: the token it may have been sent goes with it into its next round. */
  lemma {:induction false} AbandonNoneLost(p: State, t: nat, n: Name)
    requires Ranges(p) && Queued(p) && Alone(p, n) && NoneLost(p, n) && Enabled(p, Abandon(t, [n], [n]))
    ensures var q := Apply(p, Abandon(t, [n], [n])); Alone(q, n) && NoneLost(q, n)
  {
    WithoutDistinct(p.queue, t);
    var r := p.(queue := Without(p.queue, t));
    assert Alone(r, n) && NoneLost(r, n);
    if p.threads[t].woken {
      assert Queued(r);
      WokenGoesOn(r, t, n);
    } else {
      MovedNoneLost(r, Leave(r, t), t, n);
    }
  }

  /** Nobody enqueues while there is room: the look at the servers is made with the queue locked. */
  lemma {:induction false} LockNoneLost(p: State, t: nat, n: Name)
    requires Ranges(p) && Queued(p) && Alone(p, n) && NoneLost(p, n) && Enabled(p, Lock(t, [n], [n]))
    ensures var q := Apply(p, Lock(t, [n], [n])); Alone(q, n) && NoneLost(q, n)
  {
    if AnyHasCapacity(p, p.threads[t].names) {
      MovedNoneLost(p, Round(p, t, [n], [n], false), t, n);
    } else {
      assert p.threads[t].names == [n] && n in [n];
      var s := p.heap[p.servers[n]];
      assert s.idle == [] && Size(s) >= p.max;
    }
  }

  lemma {:induction false} EnqueueNoneLost(p: State, t: nat, n: Name)
    requires Ranges(p) && Queued(p) && Alone(p, n) && NoneLost(p, n) && Enabled(p, Enqueue(t))
    ensures var q := Apply(p, Enqueue(t)); Alone(q, n) && NoneLost(q, n)
  {
    assert p.queueMut == Some(t);
    MovedNoneLost(p, Apply(p, Enqueue(t)), t, n);
  }

  lemma {:induction false} QueueStepNoneLost(p: State, a: Step, n: Name)
    requires Ranges(p) && Queued(p) && Alone(p, n) && NoneLost(p, n) && Enabled(p, a) && Queueing(a) && Smooth(a, n)
    ensures Alone(Apply(p, a), n) && NoneLost(Apply(p, a), n)
  {
    match a {
      case Start(t, names, todo) => JustOne(todo, n); MovedNoneLost(p, Apply(p, a), t, n);
      case Lock(t, names, todo) => JustOne(todo, n); LockNoneLost(p, t, n);
      case GiveUp(t) => MovedNoneLost(p, Apply(p, a), t, n);
      case Enqueue(t) => EnqueueNoneLost(p, t, n);
      case WakeUp(t, names, todo) => JustOne(todo, n); MovedNoneLost(p, Apply(p, a), t, n);
      case Timeout(t) => MovedNoneLost(p, Apply(p, a), t, n);
      case Abandon(t, names, todo) => JustOne(todo, n); AbandonNoneLost(p, t, n);
      case WakeFront(t) => WakeFrontNoneLost(p, t, n);
    }
  }

  // --- steps on the server ---------------------------------------------------------------------

  /** A step that takes places in the server: each is paid for by a token or leaves one behind. */
  lemma {:induction false} ServerNoneLost(p: State, q: State, t: nat, n: Name)
    requires NoneLost(p, n) && MovesOne(p, q, t) && q.max == p.max
    requires Watching(p) && n in p.servers && p.servers[n] < |p.heap| ==>
               n in q.servers && q.servers[n] < |q.heap| && (Free(q, n) <= 0
                 || Free(q, n) - TokenAt(q.threads, t) <= Free(p, n) - TokenAt(p.threads, t))
    ensures NoneLost(q, n)
  {
    OneToken(p, q, t);
  }

  lemma {:induction false} TryBorrowNoneLost(p: State, t: nat, n: Name)
    requires Inv(p) && Ranges(p) && Alone(p, n) && NoneLost(p, n) && t in p.threads && p.threads[t].Try? && p.threads[t].todo == [n]
    ensures var q := TryBorrow(p, t, p.threads[t]); NoneLost(q, n) && Alone(q, n)
  {
    var q := TryBorrow(p, t, p.threads[t]);
    assert MovesOne(p, q, t);
    if n in p.servers {
      var s := p.heap[p.servers[n]];
      assert s.idle != [] || Size(s) < p.max ==> Free(q, n) == Free(p, n) - 1;
      assert s.idle == [] && Size(s) >= p.max ==> Free(q, n) <= 0;
    }
    ServerNoneLost(p, q, t, n);
  }

  /** A connection that comes back frees a place, and its Return is the token for it. */
  lemma {:induction false} FreesOne(p: State, t: nat, n: Name)
    requires Inv(p) && Alone(p, n) && t in p.threads && p.threads[t].PutBack? && n in p.servers
    ensures |Without(p.heap[p.servers[n]].busy, p.threads[t].c)| == |p.heap[p.servers[n]].busy| - 1
  {
    var c := p.threads[t].c;
    assert PcConn(p.threads[t]) == Some(c);
    assert Owned(p, c);
    BusyIsOwned(p, n, c);
    WithoutCount(p.heap[p.servers[n]].busy, c);
  }

  lemma {:induction false} BackNoneLost(p: State, q: State, t: nat, n: Name)
    requires Alone(p, n) && NoneLost(p, n) && MovesOne(p, q, t) && q.max == p.max && !q.closed
    requires |q.conns| == |p.conns| && forall c :: 0 <= c < |p.conns| ==> q.conns[c].name == p.conns[c].name
    requires t in p.threads && p.threads[t].PutBack? && t in q.threads && q.threads[t].Notify?
    requires n in p.servers && n in q.servers && q.servers[n] == p.servers[n] < |p.heap| && |q.heap| == |p.heap|
    requires var s, s' := p.heap[p.servers[n]], q.heap[p.servers[n]];
             |s'.busy| == |s.busy| - 1 && s'.reservations == s.reservations
    ensures NoneLost(q, n) && Alone(q, n)
  {
    ServerNoneLost(p, q, t, n);
  }

  lemma {:induction false} PutIdleServer(p: State, n: Name, c: nat)
    requires Ranges(p) && c < |p.conns| && n in p.servers && n in PutIdle(p, n, c).servers
    ensures var q := PutIdle(p, n, c);
            && q.servers == p.servers && |q.heap| == |p.heap| && q.heap[p.servers[n]].busy == Without(p.heap[p.servers[n]].busy, c)
            && q.heap[p.servers[n]].reservations == p.heap[p.servers[n]].reservations
            && |q.conns| == |p.conns| && forall d :: 0 <= d < |p.conns| ==> q.conns[d].name == p.conns[d].name
  {
  }

  lemma {:induction false} UnregisterServer(p: State, n: Name, c: nat, now: int)
    requires Ranges(p) && c < |p.conns| && n in p.servers && n in Unregister(p, n, c, now).servers
    ensures var q := Unregister(p, n, c, now);
            && q.servers == p.servers && |q.heap| == |p.heap| && q.heap[p.servers[n]].busy == Without(p.heap[p.servers[n]].busy, c)
            && q.heap[p.servers[n]].reservations == p.heap[p.servers[n]].reservations
            && |q.conns| == |p.conns| && forall d :: 0 <= d < |p.conns| ==> q.conns[d].name == p.conns[d].name
  {
  }

  lemma {:induction false} AliveNoneLost(p: State, t: nat, n: Name, q: State)
    requires Inv(p) && Ranges(p) && Alone(p, n) && NoneLost(p, n) && Enabled(p, ReturnAlive(t)) && q == Apply(p, ReturnAlive(t))
    requires n in p.servers && n in q.servers
    ensures NoneLost(q, n) && Alone(q, n)
  {
    ReturnMovesOne(p, ReturnAlive(t));
    PutBackShape(p, t, 0);
    PutIdleServer(p, n, p.threads[t].c);
    FreesOne(p, t, n);
    BackNoneLost(p, q, t, n);
  }

  lemma {:induction false} DeadNoneLost(p: State, t: nat, now: int, n: Name, q: State)
    requires Inv(p) && Ranges(p) && Alone(p, n) && NoneLost(p, n) && Enabled(p, ReturnDead(t, now)) && q == Apply(p, ReturnDead(t, now))
    requires n in p.servers && n in q.servers
    ensures NoneLost(q, n) && Alone(q, n)
  {
    ReturnMovesOne(p, ReturnDead(t, now));
    PutBackShape(p, t, now);
    UnregisterServer(p, n, p.threads[t].c, now);
    FreesOne(p, t, n);
    BackNoneLost(p, q, t, n);
  }

  /** Idle connections may come and go: a place they held is as free as before. */
  ghost predicate IdleOnly(p: State, q: State)
  {
    && q.threads == p.threads && q.queue == p.queue && q.queueMut == p.queueMut && q.closed == p.closed && q.max == p.max
    && |q.heap| == |p.heap| && (forall i :: 0 <= i < |p.heap| ==> q.heap[i].busy == p.heap[i].busy && q.heap[i].reservations == p.heap[i].reservations)
    && |q.conns| == |p.conns| && (forall c :: 0 <= c < |p.conns| ==> q.conns[c].name == p.conns[c].name)
    && (forall m :: m in q.servers ==> m in p.servers && q.servers[m] == p.servers[m])
  }

  lemma {:induction false} CloseAllNames(p: State, l: seq<nat>)
    requires forall i :: 0 <= i < |l| ==> l[i] < |p.conns|
    ensures forall c :: 0 <= c < |p.conns| ==> CloseAll(p, l).conns[c].name == p.conns[c].name
    decreases |l|
  {
    if l != [] { CloseAllNames(CloseConn(p, l[0]), l[1..]); }
  }

  lemma {:induction false} CloseIdleOnly(p: State, n: Name, stale: set<nat>)
    requires Ranges(p)
    ensures IdleOnly(p, CloseIdle(p, n, stale))
  {
    if n in p.servers {
      var s := p.heap[p.servers[n]];
      var r := SetServer(p, p.servers[n], s.(idle := Fresh(s.idle, stale)));
      CloseAllNames(r, Stale(s.idle, stale));
    }
  }

  lemma {:induction false} UpkeepIdleOnly(p: State, a: Step)
    requires Ranges(p) && Upkeep(a)
    ensures IdleOnly(p, Apply(p, a))
  {
    match a {
      case CleanUp(n, stale, now) => CloseIdleOnly(p, n, stale);
      case Penalties(n, stale) => CloseIdleOnly(p, n, stale);
      case Deactivate(n) => if n in p.servers { CloseIdleOnly(p, n, set c | c in p.heap[p.servers[n]].idle); }
    }
  }

  lemma {:induction false} IdleOnlyNoneLost(p: State, q: State, n: Name)
    requires Alone(p, n) && NoneLost(p, n) && IdleOnly(p, q) && (n in p.servers ==> n in q.servers)
    ensures Alone(q, n) && NoneLost(q, n)
  {
  }

  lemma {:induction false} SweepNoneLost(p: State, t: nat, stale: set<nat>, n: Name)
    requires Ranges(p) && Alone(p, n) && NoneLost(p, n) && t in p.threads && p.threads[t].Sweep?
    ensures var q := Apply(p, SweepIdle(t, stale)); Alone(q, n) && NoneLost(q, n)
  {
    var c := p.threads[t].c;
    var r := CloseIdle(p, p.conns[c].name, stale);
    CloseIdleOnly(p, p.conns[c].name, stale);
    IdleOnlyNoneLost(p, r, n);
    MovedNoneLost(r, SetThread(r, t, PutBack(c)), t, n);
  }

  lemma {:induction false} ConnectedNoneLost(p: State, a: Step, n: Name)
    requires Inv(p) && Ranges(p) && Alone(p, n) && NoneLost(p, n) && Enabled(p, a) && a.Connected?
    ensures Alone(Apply(p, a), n) && NoneLost(Apply(p, a), n)
  {
    BorrowMovesOne(p, a);
    ServerNoneLost(p, Apply(p, a), a.t, n);
  }

  lemma {:induction false} FoundFullNoneLost(p: State, t: nat, n: Name)
    requires Alone(p, n) && NoneLost(p, n) && t in p.threads && p.threads[t].Try? && p.threads[t].todo == []
    ensures var q := SetThread(p, t, Full(p.threads[t].names)); Alone(q, n) && NoneLost(q, n)
  {
    MovedNoneLost(p, SetThread(p, t, Full(p.threads[t].names)), t, n);
  }

  lemma {:induction false} TryServerNoneLost(p: State, t: nat, n: Name)
    requires Inv(p) && Ranges(p) && Alone(p, n) && NoneLost(p, n) && Enabled(p, TryServer(t))
    ensures var q := Apply(p, TryServer(t)); Alone(q, n) && NoneLost(q, n)
  {
    if p.threads[t].todo == [] { FoundFullNoneLost(p, t, n); } else { TryBorrowNoneLost(p, t, n); }
  }

  lemma {:induction false} ServerStepNoneLost(p: State, a: Step, n: Name)
    requires Inv(p) && Ranges(p) && Alone(p, n) && NoneLost(p, n) && Enabled(p, a) && !Queueing(a) && Smooth(a, n)
    requires n in p.servers ==> n in Apply(p, a).servers
    ensures Alone(Apply(p, a), n) && NoneLost(Apply(p, a), n)
  {
    var q := Apply(p, a);
    match a {
      case TryServer(t) => TryServerNoneLost(p, t, n);
      case Healthy(t) => HandNoneLost(p, a, n);
      case Connected(_, _) => ConnectedNoneLost(p, a, n);
      case Return(t, c) => HandNoneLost(p, a, n);
      case SweepIdle(t, stale) => SweepNoneLost(p, t, stale, n);
      case ReturnAlive(t) => FoundOnReturn(p, t, n); AliveNoneLost(p, t, n, q);
      case ReturnDead(t, now) => FoundOnReturn(p, t, n); DeadNoneLost(p, t, now, n, q);
      case _ => UpkeepNoneLost(p, a, n);
    }
  }

  lemma {:induction false} UpkeepNoneLost(p: State, a: Step, n: Name)
    requires Ranges(p) && Alone(p, n) && NoneLost(p, n) && Upkeep(a) && (n in p.servers ==> n in Apply(p, a).servers)
    ensures Alone(Apply(p, a), n) && NoneLost(Apply(p, a), n)
  {
    UpkeepIdleOnly(p, a);
    IdleOnlyNoneLost(p, Apply(p, a), n);
  }

  lemma {:induction false} HandNoneLost(p: State, a: Step, n: Name)
    requires Ranges(p) && Alone(p, n) && NoneLost(p, n) && Enabled(p, a) && (a.Healthy? || a.Return?)
    ensures Alone(Apply(p, a), n) && NoneLost(Apply(p, a), n)
  {
    MovedNoneLost(p, Apply(p, a), a.t, n);
  }

  lemma {:induction false} FoundOnReturn(p: State, t: nat, n: Name)
    requires Inv(p) && Alone(p, n) && t in p.threads && p.threads[t].PutBack?
    ensures n in p.servers
  {
    var c := p.threads[t].c;
    assert PcConn(p.threads[t]) == Some(c);
    assert Owned(p, c);
    BusyIsOwned(p, n, c);
  }

  /** Every step is smooth and the server's entry, once there, is not dropped. */
  ghost predicate SmoothRun(p: State, run: seq<Step>, n: Name)
    requires Runs(p, run)
    decreases |run|
  {
    run == [] ||
    (Smooth(run[0], n) && (n in p.servers ==> n in Apply(p, run[0]).servers) && SmoothRun(Apply(p, run[0]), run[1..], n))
  }

  lemma {:induction false} NoneLostOn(p: State, run: seq<Step>, n: Name)
    requires Inv(p) && Queued(p) && Alone(p, n) && NoneLost(p, n) && Runs(p, run) && SmoothRun(p, run, n)
    ensures NoneLost(After(p, run), n)
    decreases |run|
  {
    if run != [] {
      StepInv(p, run[0]);
      StepQueued(p, run[0]);
      if Queueing(run[0]) { QueueStepNoneLost(p, run[0], n); } else { ServerStepNoneLost(p, run[0], n); }
      NoneLostOn(Apply(p, run[0]), run[1..], n);
    }
  }

  /**
   * No wake-up is lost, in any interleaving and with any timeouts: whenever waiters are queued, the
   * server's free capacity is at most the number of wake-ups on their way. So if nothing is on its
   * way, every place is in use or being connected.
   */
  lemma {:induction false} NoWakeUpLost(max: nat, run: seq<Step>, n: Name)
    requires max >= 1 && Runs(Init(max), run) && SmoothRun(Init(max), run, n)
    ensures var p := After(Init(max), run);
            p.queue != [] ==> n in p.servers && p.servers[n] < |p.heap| && Free(p, n) <= |Tokens(p.threads)|
  {
    InitInv(max);
    NoneLostOn(Init(max), run, n);
  }

  lemma {:induction false} QueuedOn(p: State, run: seq<Step>)
    requires Inv(p) && Queued(p) && Runs(p, run)
    ensures Queued(After(p, run))
    decreases |run|
  {
    if run != [] {
      StepInv(p, run[0]);
      StepQueued(p, run[0]);
      QueuedOn(Apply(p, run[0]), run[1..]);
    }
  }

  /** In every run at all, whoever stands in the queue has an empty channel: no wake-up send blocks. */
  lemma {:induction false} NoSendBlocks(max: nat, run: seq<Step>)
    requires max >= 1 && Runs(Init(max), run)
    ensures var p := After(Init(max), run);
            && (forall i :: 0 <= i < |p.queue| ==> p.queue[i] in p.threads && Sleeping(p.threads[p.queue[i]]))
            && (forall i, j :: 0 <= i < j < |p.queue| ==> p.queue[i] != p.queue[j])
  {
    InitInv(max);
    QueuedOn(Init(max), run);
    var p := After(Init(max), run);
    forall i | 0 <= i < |p.queue| ensures p.queue[i] in p.threads && Sleeping(p.threads[p.queue[i]]) { assert p.queue[i] in p.queue; }
  }

  // ---------------------------------------------------------------------------------------------
  // Where wake-ups are lost
  // ---------------------------------------------------------------------------------------------

  /**
   * Pool.Close takes the front waiter off the queue and then asks that element for its successor,
   * which it no longer has. So it wakes one waiter, and leaves the queue empty just if there was at
   * most one; all others still sleep.
   */
  lemma {:induction false} CloseWakesOne(p: State)
    requires Ranges(p) && Queued(p) && Enabled(p, WakeOnClose)
    ensures var q := Apply(p, WakeOnClose);
            && (q.queue == [] <==> |p.queue| <= 1)
            && (forall i :: 1 <= i < |p.queue| ==> p.queue[i] in q.threads && q.threads[p.queue[i]] == p.threads[p.queue[i]] && Sleeping(q.threads[p.queue[i]]))
  {
    WakeFirstQueued(p);
    forall i | 1 <= i < |p.queue| ensures p.queue[i] in p.threads && Sleeping(p.threads[p.queue[i]]) { assert p.queue[i] in p.queue; }
  }

  /** The walk over the list, as it is written, does to the queue what that step does. */
  method WalkOnClose(p: State) returns (left: seq<nat>, woken: seq<nat>)
    requires Ranges(p) && Queued(p) && Enabled(p, WakeOnClose)
    ensures left == Apply(p, WakeOnClose).queue
    ensures forall t :: t in woken <==> t in p.queue && !Sleeping(Apply(p, WakeOnClose).threads[t])
  {
    left, woken := PoolServer.WakeWaiters(p.queue);
    WalkWakes(p, left, woken);
  }

  lemma {:induction false} WalkWakes(p: State, left: seq<nat>, woken: seq<nat>)
    requires Ranges(p) && Queued(p) && Enabled(p, WakeOnClose)
    requires if p.queue == [] then woken == [] && left == [] else woken == [p.queue[0]] && left == p.queue[1..]
    ensures left == Apply(p, WakeOnClose).queue
    ensures forall t :: t in woken <==> t in p.queue && !Sleeping(Apply(p, WakeOnClose).threads[t])
  {
    WakeFirstQueued(p);
    CloseWakesOne(p);
    var q := Apply(p, WakeOnClose);
    forall t | t in p.queue ensures t in woken <==> !Sleeping(q.threads[t]) {
      var i :| 0 <= i < |p.queue| && p.queue[i] == t;
      assert i > 0 ==> t in p.queue[1..];
    }
  }

  /**
   * The look under the queue's lock treats a server that is not in the map as full. A waiter goes to
   * sleep with room on the server just if the entry is missing.
   */
  lemma {:induction false} SleepsWithRoom(p: State, t: nat, n: Name)
    requires Ranges(p) && Enabled(p, Lock(t, [n], [n])) && p.threads[t].names == [n]
    ensures var q := Apply(p, Lock(t, [n], [n]));
            (t in q.threads && q.threads[t].Locked? && (n !in p.servers || p.heap[p.servers[n]].idle != [] || Size(p.heap[p.servers[n]]) < p.max))
            <==> n !in p.servers
  {
    assert forall m :: m in [n] <==> m == n;
  }

  const LONE: Name := "a"
  const ONE: seq<Name> := [LONE]

  // The pool with its only connection lent out; with a second thread that found it full; with the
  // connection come back dead; and with the second thread asleep.
  const LENT := State(1, [Server([], [0], 0, false, None)], map[LONE := 0], [Info(LONE, false, 0)], 0, 1, {0}, map[], [], None, false)
  const FOUND_FULL := LENT.(threads := map[1 := Full(ONE)])
  const DROPPED := State(1, [Server([], [], 0, false, None)], map[], [Info(LONE, false, 1)], 0, 0, {}, map[1 := Full(ONE), 2 := Notify], [], None, false)
  const ASLEEP := DROPPED.(threads := map[1 := Wait(ONE, false)], queue := [1])

  const BORROW: seq<Step> := [Start(0, ONE, ONE), TryServer(0), Connected(0, false)]
  const TRY: seq<Step> := [Start(1, ONE, ONE), TryServer(1), TryServer(1)]
  const RETURN: seq<Step> := [Return(2, 0), SweepIdle(2, {}), ReturnDead(2, 0)]
  const SLEEP: seq<Step> := [WakeFront(2), Lock(1, ONE, ONE), Enqueue(1)]

  lemma {:induction false} SameState(p: State, q: State)
    requires p.max == q.max && p.heap == q.heap && p.servers == q.servers && p.conns == q.conns
    requires p.ssrOn == q.ssrOn && p.ssrOff == q.ssrOff && p.held == q.held && p.threads == q.threads
    requires p.queue == q.queue && p.queueMut == q.queueMut && p.closed == q.closed
    ensures p == q
  {
  }

  lemma {:induction false} ThreeSteps(p: State, a: Step, q: State, b: Step, r: State, c: Step, s: State, rest: seq<Step>)
    requires Ranges(p) && Enabled(p, a) && Apply(p, a) == q && Ranges(q) && Enabled(q, b) && Apply(q, b) == r
    requires Ranges(r) && Enabled(r, c) && Apply(r, c) == s && Runs(s, rest)
    ensures Runs(p, [a, b, c] + rest) && After(p, [a, b, c] + rest) == After(s, rest)
  {
    StepThen(r, c, s, rest);
    StepThen(q, b, r, [c] + rest);
    StepThen(p, a, q, [b] + ([c] + rest));
    assert [a, b, c] + rest == [a] + ([b] + ([c] + rest));
  }

  lemma {:induction false} StepThen(p: State, a: Step, q: State, rest: seq<Step>)
    requires Ranges(p) && Enabled(p, a) && Apply(p, a) == q && Runs(q, rest)
    ensures Runs(p, [a] + rest) && After(p, [a] + rest) == After(q, rest)
  {
    assert ([a] + rest)[1..] == rest;
  }

  lemma {:induction false} Borrows(rest: seq<Step>)
    requires Runs(LENT, rest)
    ensures Runs(Init(1), BORROW + rest) && After(Init(1), BORROW + rest) == After(LENT, rest)
  {
    var q := Init(1).(threads := map[0 := Try(ONE, ONE, false, false, false)]);
    var r := Init(1).(heap := [Server([], [], 1, false, None)], servers := map[LONE := 0], threads := map[0 := Connect(ONE, ONE, 0)]);
    SameState(Apply(Init(1), Start(0, ONE, ONE)), q);
    SameState(Apply(q, TryServer(0)), r);
    assert [|r.conns|] + r.heap[0].busy == [0];
    SameState(Apply(r, Connected(0, false)), LENT);
    ThreeSteps(Init(1), Start(0, ONE, ONE), q, TryServer(0), r, Connected(0, false), LENT, rest);
  }

  lemma {:induction false} FindsFull(rest: seq<Step>)
    requires Runs(FOUND_FULL, rest)
    ensures Runs(LENT, TRY + rest) && After(LENT, TRY + rest) == After(FOUND_FULL, rest)
  {
    var q := LENT.(threads := map[1 := Try(ONE, ONE, false, false, false)]);
    var r := LENT.(threads := map[1 := Try([], ONE, false, false, false)]);
    SameState(Apply(LENT, Start(1, ONE, ONE)), q);
    assert ONE[1..] == [];
    SameState(Apply(q, TryServer(1)), r);
    SameState(Apply(r, TryServer(1)), FOUND_FULL);
    ThreeSteps(LENT, Start(1, ONE, ONE), q, TryServer(1), r, TryServer(1), FOUND_FULL, rest);
  }

  const SWEEPING := LENT.(held := {}, threads := map[1 := Full(ONE), 2 := Sweep(0)])
  const PUTTING_BACK := LENT.(held := {}, threads := map[1 := Full(ONE), 2 := PutBack(0)])

  lemma {:induction false} StartsReturn()
    ensures Ranges(FOUND_FULL) && Apply(FOUND_FULL, Return(2, 0)) == SWEEPING
  {
    SameState(Apply(FOUND_FULL, Return(2, 0)), SWEEPING);
  }

  lemma {:induction false} SweepsNothing()
    ensures Ranges(SWEEPING) && Apply(SWEEPING, SweepIdle(2, {})) == PUTTING_BACK
  {
    var s := SWEEPING.heap[0];
    assert SetServer(SWEEPING, 0, s.(idle := Fresh(s.idle, {}))) == SWEEPING;
    assert CloseIdle(SWEEPING, LONE, {}) == SWEEPING;
    SameState(Apply(SWEEPING, SweepIdle(2, {})), PUTTING_BACK);
  }

  lemma {:induction false} DropsEntry()
    ensures Ranges(PUTTING_BACK) && Apply(PUTTING_BACK, ReturnDead(2, 0)) == DROPPED
  {
    assert Without([0], 0) == [];
    PutBackShape(PUTTING_BACK, 2, 0);
    SameState(Unregister(PUTTING_BACK, LONE, 0, 0), DROPPED.(threads := PUTTING_BACK.threads));
    SameState(Apply(PUTTING_BACK, ReturnDead(2, 0)), DROPPED);
  }

  lemma {:induction false} ReturnsDead(rest: seq<Step>)
    requires Runs(DROPPED, rest)
    ensures Runs(FOUND_FULL, RETURN + rest) && After(FOUND_FULL, RETURN + rest) == After(DROPPED, rest)
  {
    DropsThen(rest);
    SweepsThen([ReturnDead(2, 0)] + rest);
    StartsReturn();
    StepThen(FOUND_FULL, Return(2, 0), SWEEPING, [SweepIdle(2, {})] + ([ReturnDead(2, 0)] + rest));
    assert RETURN + rest == [Return(2, 0)] + ([SweepIdle(2, {})] + ([ReturnDead(2, 0)] + rest));
  }

  lemma {:induction false} DropsThen(rest: seq<Step>)
    requires Runs(DROPPED, rest)
    ensures Runs(PUTTING_BACK, [ReturnDead(2, 0)] + rest) && After(PUTTING_BACK, [ReturnDead(2, 0)] + rest) == After(DROPPED, rest)
  {
    DropsEntry();
    StepThen(PUTTING_BACK, ReturnDead(2, 0), DROPPED, rest);
  }

  lemma {:induction false} SweepsThen(rest: seq<Step>)
    requires Runs(PUTTING_BACK, rest)
    ensures Runs(SWEEPING, [SweepIdle(2, {})] + rest) && After(SWEEPING, [SweepIdle(2, {})] + rest) == After(PUTTING_BACK, rest)
  {
    SweepsNothing();
    StepThen(SWEEPING, SweepIdle(2, {}), PUTTING_BACK, rest);
  }

  const NOBODY_WOKEN := DROPPED.(threads := map[1 := Full(ONE)])
  const LOOKED := DROPPED.(threads := map[1 := Locked(ONE)], queueMut := Some(1))

  lemma {:induction false} SeesNoServer()
    ensures Ranges(NOBODY_WOKEN) && Apply(NOBODY_WOKEN, Lock(1, ONE, ONE)) == LOOKED
  {
    assert !AnyHasCapacity(NOBODY_WOKEN, ONE);
    SameState(Apply(NOBODY_WOKEN, Lock(1, ONE, ONE)), LOOKED);
  }

  lemma {:induction false} WakesNobody()
    ensures Ranges(DROPPED) && Apply(DROPPED, WakeFront(2)) == NOBODY_WOKEN
  {
    SameState(Apply(DROPPED, WakeFront(2)), NOBODY_WOKEN);
  }

  lemma {:induction false} GoesToSleep(rest: seq<Step>)
    requires Runs(ASLEEP, rest)
    ensures Runs(LOOKED, [Enqueue(1)] + rest) && After(LOOKED, [Enqueue(1)] + rest) == After(ASLEEP, rest)
  {
    SameState(Apply(LOOKED, Enqueue(1)), ASLEEP);
    StepThen(LOOKED, Enqueue(1), ASLEEP, rest);
  }

  lemma {:induction false} FallsAsleep(rest: seq<Step>)
    requires Runs(ASLEEP, rest)
    ensures Runs(DROPPED, SLEEP + rest) && After(DROPPED, SLEEP + rest) == After(ASLEEP, rest)
  {
    GoesToSleep(rest);
    SeesNoServer();
    StepThen(NOBODY_WOKEN, Lock(1, ONE, ONE), LOOKED, [Enqueue(1)] + rest);
    WakesNobody();
    StepThen(DROPPED, WakeFront(2), NOBODY_WOKEN, [Lock(1, ONE, ONE)] + ([Enqueue(1)] + rest));
    assert SLEEP + rest == [WakeFront(2)] + ([Lock(1, ONE, ONE)] + ([Enqueue(1)] + rest));
  }

  /**
   * With a dropped entry a waiter can be stranded. The only connection comes back dead between the
   * second thread's try and its look under the lock; the thread then sleeps although nothing is in
   * use, and nobody is left to wake it.
   */
  lemma {:induction false} DroppedEntryStrands()
    ensures var run := BORROW + (TRY + (RETURN + (SLEEP + [])));
            && Runs(Init(1), run) && After(Init(1), run) == ASLEEP
            && ASLEEP.queue == [1] && ASLEEP.held == {} && ASLEEP.servers == map[] && Tokens(ASLEEP.threads) == {}
  {
    FallsAsleep([]);
    ReturnsDead(SLEEP + []);
    FindsFull(RETURN + (SLEEP + []));
    Borrows(TRY + (RETURN + (SLEEP + [])));
  }

  // ---------------------------------------------------------------------------------------------
  // A closed pool with somebody asleep in it
  // ---------------------------------------------------------------------------------------------

  /** The one connection of the one server is lent out. */
  predicate Crowded(p: State)
  {
    && p.max == 1 && p.heap == LENT.heap && p.servers == LENT.servers && p.conns == LENT.conns
    && !p.closed && p.queueMut == None && forall t :: t in p.threads ==> p.threads[t].Wait?
  }

  function SleepSteps(t: nat): seq<Step>
  {
    [Start(t, ONE, ONE), TryServer(t), TryServer(t), Lock(t, ONE, ONE), Enqueue(t)]
  }

  /** The thread as it tries the server, and once it has tried it. */
  function Trying(p: State, t: nat): State
  {
    SetThread(p, t, Try(ONE, ONE, false, false, false))
  }

  function Tried(p: State, t: nat): State
  {
    SetThread(p, t, Try([], ONE, false, false, false))
  }

  lemma {:induction false} CrowdedRanges(p: State, q: State)
    requires Crowded(p) && q == p.(threads := q.threads, queue := q.queue, queueMut := q.queueMut)
    requires forall t :: t in q.threads ==> q.threads[t].Wait? || q.threads[t].Try? || q.threads[t].Full? || q.threads[t].Locked?
    ensures Ranges(q) && !AnyHasCapacity(q, ONE)
  {
  }

  lemma {:induction false} FindsNoRoom(p: State, t: nat)
    requires Crowded(p) && t !in p.threads
    ensures Ranges(Trying(p, t)) && Apply(Trying(p, t), TryServer(t)) == Tried(p, t)
  {
    var q := Trying(p, t);
    CrowdedRanges(p, q);
    assert ONE[1..] == [];
    assert p.heap[0 := p.heap[0].(closing := false)] == p.heap;
    assert q.threads[t := Try([], ONE, false, false, false)] == Tried(p, t).threads;
    SameState(TryBorrow(q, t, q.threads[t]), Tried(p, t));
  }

  lemma {:induction false} TriesInVain(p: State, t: nat, rest: seq<Step>)
    requires Crowded(p) && t !in p.threads && Runs(SetThread(p, t, Full(ONE)), rest)
    ensures var run := [Start(t, ONE, ONE), TryServer(t), TryServer(t)] + rest;
            Runs(p, run) && After(p, run) == After(SetThread(p, t, Full(ONE)), rest)
  {
    CrowdedRanges(p, p);
    CrowdedRanges(p, Tried(p, t));
    FindsNoRoom(p, t);
    assert Tried(p, t).threads[t := Full(ONE)] == p.threads[t := Full(ONE)];
    ThreeSteps(p, Start(t, ONE, ONE), Trying(p, t), TryServer(t), Tried(p, t), TryServer(t), SetThread(p, t, Full(ONE)), rest);
  }

  lemma {:induction false} LiesDown(p: State, t: nat, rest: seq<Step>)
    requires Crowded(p) && t !in p.threads && Runs(SetThread(p, t, Wait(ONE, false)).(queue := p.queue + [t]), rest)
    ensures var run := [Lock(t, ONE, ONE)] + ([Enqueue(t)] + rest);
            Runs(SetThread(p, t, Full(ONE)), run) && After(SetThread(p, t, Full(ONE)), run) == After(SetThread(p, t, Wait(ONE, false)).(queue := p.queue + [t]), rest)
  {
    var full := SetThread(p, t, Full(ONE));
    var locked := SetThread(p, t, Locked(ONE)).(queueMut := Some(t));
    var asleep := SetThread(p, t, Wait(ONE, false)).(queue := p.queue + [t]);
    CrowdedRanges(p, full);
    CrowdedRanges(p, locked);
    assert full.threads[t := Locked(ONE)] == locked.threads && locked.threads[t := Wait(ONE, false)] == asleep.threads;
    StepThen(locked, Enqueue(t), asleep, rest);
    StepThen(full, Lock(t, ONE, ONE), locked, [Enqueue(t)] + rest);
  }

  lemma {:induction false} Sleeps(p: State, t: nat, rest: seq<Step>)
    requires Crowded(p) && t !in p.threads && Runs(SetThread(p, t, Wait(ONE, false)).(queue := p.queue + [t]), rest)
    ensures Runs(p, SleepSteps(t) + rest)
    ensures After(p, SleepSteps(t) + rest) == After(SetThread(p, t, Wait(ONE, false)).(queue := p.queue + [t]), rest)
  {
    LiesDown(p, t, rest);
    TriesInVain(p, t, [Lock(t, ONE, ONE)] + ([Enqueue(t)] + rest));
    assert SleepSteps(t) + rest == [Start(t, ONE, ONE), TryServer(t), TryServer(t)] + ([Lock(t, ONE, ONE)] + ([Enqueue(t)] + rest));
  }

  const TWO_WAIT := LENT.(threads := map[1 := Wait(ONE, false), 2 := Wait(ONE, false)], queue := [1, 2])
  const CLOSED := LENT.(threads := map[1 := Wait(ONE, true), 2 := Wait(ONE, false)], queue := [2], closed := true)
  const CLOSE: seq<Step> := [MarkClosed, WakeOnClose]

  lemma {:induction false} Closes()
    ensures Runs(TWO_WAIT, CLOSE) && After(TWO_WAIT, CLOSE) == CLOSED
  {
    var marked := TWO_WAIT.(closed := true);
    assert [1, 2][1..] == [2];
    SameState(Apply(marked, WakeOnClose), CLOSED);
    StepThen(marked, WakeOnClose, CLOSED, []);
    StepThen(TWO_WAIT, MarkClosed, marked, [WakeOnClose] + []);
    assert CLOSE == [MarkClosed] + ([WakeOnClose] + []);
  }

  /** Two wait for the one connection when the pool is closed: the second still sleeps in the closed pool. */
  lemma {:induction false} ClosedAsleep()
    ensures var run := BORROW + (SleepSteps(1) + (SleepSteps(2) + CLOSE));
            Runs(Init(1), run) && After(Init(1), run) == CLOSED
    ensures CLOSED.closed && CLOSED.queue == [2] && Sleeping(CLOSED.threads[2])
  {
    Closes();
    var one := SetThread(LENT, 1, Wait(ONE, false)).(queue := LENT.queue + [1]);
    SameState(SetThread(one, 2, Wait(ONE, false)).(queue := one.queue + [2]), TWO_WAIT);
    Sleeps(one, 2, CLOSE);
    Sleeps(LENT, 1, SleepSteps(2) + CLOSE);
    Borrows(SleepSteps(1) + (SleepSteps(2) + CLOSE));
  }
}
