/**
 * A server's lists as the driver changes them, step by step, and the penalty by which Borrow orders
 * servers. Each method does to the lists what the pool's steps say it does.
 */
module PoolServer {
  import opened Bytes
  import Pool

  /** When a connection was made, by connection. */
  type Births = nat -> int

  ghost function TooOld(l: seq<nat>, born: Births, now: int, maxAge: int): set<nat>
  {
    set c | c in l && now - born(c) >= maxAge
  }

  lemma {:induction false} WithoutAt(l: seq<nat>, k: nat)
    requires k < |l| && forall j :: 0 <= j < k ==> l[j] != l[k]
    ensures Without(l, l[k]) == l[..k] + l[k + 1..]
  {
    if k > 0 {
      WithoutAt(l[1..], k - 1);
      assert l[1..][..k - 1] == l[1..k] && l[1..][k..] == l[k + 1..];
      assert [l[0]] + (l[1..k] + l[k + 1..]) == l[..k] + l[k + 1..];
    }
  }

  lemma {:induction false} WithoutAbsent(l: seq<nat>, c: nat)
    requires c !in l
    ensures Without(l, c) == l
  {
    if l != [] { WithoutAbsent(l[1..], c); }
  }

  lemma {:induction false} FreshSnoc(l: seq<nat>, x: nat, stale: set<nat>)
    ensures Pool.Fresh(l + [x], stale) == Pool.Fresh(l, stale) + (if x in stale then [] else [x])
    ensures Pool.Stale(l + [x], stale) == Pool.Stale(l, stale) + (if x in stale then [x] else [])
  {
    if l == [] {
      assert l + [x] == [x];
    } else {
      assert (l + [x])[1..] == l[1..] + [x];
      FreshSnoc(l[1..], x, stale);
    }
  }

  lemma {:induction false} AllStale(l: seq<nat>, stale: set<nat>)
    requires forall c :: c in l ==> c in stale
    ensures Pool.Fresh(l, stale) == [] && Pool.Stale(l, stale) == l
  {
    if l != [] { AllStale(l[1..], stale); }
  }

  class Server {
    var idle: seq<nat>
    var busy: seq<nat>
    var reservations: int
    var closing: bool
    var failedAt: Option<int>
    var roundRobin: nat

    function Abs(): Pool.Server
      reads this
    {
      Pool.Server(idle, busy, reservations, closing, failedAt)
    }

    constructor ()
      ensures Abs() == Pool.Server([], [], 0, false, None)
    {
      idle, busy, reservations, closing, failedAt, roundRobin := [], [], 0, false, None, 0;
    }

    method GetIdle() returns (c: Option<nat>)
      modifies this`idle, this`busy
      ensures old(idle) == [] ==> c == None && Abs() == old(Abs())
      ensures old(idle) != [] ==> c == Some(old(idle)[0]) && Abs() == old(Abs()).(idle := old(idle)[1..], busy := [old(idle)[0]] + old(busy))
    {
      if idle == [] { return None; }
      c := Some(idle[0]);
      busy := [idle[0]] + busy;
      idle := idle[1..];
    }

    /** Adds a connection to busy; `shared` counts the turns of all servers and this one takes the next. */
    method RegisterBusy(c: nat, shared: nat) returns (turn: nat)
      modifies this`busy, this`roundRobin
      ensures turn == (shared + 1) % 0x1_0000_0000 && roundRobin == turn
      ensures Abs() == old(Abs()).(busy := [c] + old(busy))
    {
      turn := (shared + 1) % 0x1_0000_0000;
      roundRobin := turn;
      busy := [c] + busy;
    }

    method UnregisterBusy(c: nat)
      modifies this`busy
      ensures Abs() == Pool.UnregisterBusy(old(Abs()), c)
    {
      var k := 0;
      while k < |busy|
        invariant 0 <= k <= |busy| && busy == old(busy) && c !in busy[..k]
      {
        if busy[k] == c {
          WithoutAt(busy, k);
          busy := busy[..k] + busy[k + 1..];
          return;
        }
        k := k + 1;
      }
      WithoutAbsent(busy, c);
    }

    /** `close` says that the connection is to be closed instead of kept. */
    method ReturnBusy(c: nat) returns (close: bool)
      modifies this`idle, this`busy
      ensures close == old(closing)
      ensures var s := Pool.UnregisterBusy(old(Abs()), c);
              Abs() == if close then s else s.(idle := [c] + s.idle)
    {
      UnregisterBusy(c);
      close := closing;
      if !close { idle := [c] + idle; }
    }

    /** Takes out, in order, the idle connections that are too old; they are the ones to close. */
    method RemoveIdleOlderThan(born: Births, now: int, maxAge: int) returns (closed: seq<nat>)
      modifies this`idle
      ensures var stale := TooOld(old(idle), born, now, maxAge);
              closed == Pool.Stale(old(idle), stale) && Abs() == old(Abs()).(idle := Pool.Fresh(old(idle), stale))
    {
      ghost var stale := TooOld(idle, born, now, maxAge);
      var all := idle;
      var kept: seq<nat> := [];
      closed := [];
      var k := 0;
      while k < |all|
        invariant 0 <= k <= |all| && all == old(idle) && idle == kept + all[k..]
        invariant kept == Pool.Fresh(all[..k], stale) && closed == Pool.Stale(all[..k], stale)
      {
        var c := all[k];
        FreshSnoc(all[..k], c, stale);
        assert all[..k + 1] == all[..k] + [c];
        if now - born(c) >= maxAge {
          idle := kept + all[k + 1..];
          closed := closed + [c];
        } else {
          kept := kept + [c];
          assert kept + all[k + 1..] == idle;
        }
        k := k + 1;
      }
      assert all[..k] == all;
    }

    method StartClosing() returns (closed: seq<nat>)
      modifies this`idle, this`closing
      ensures closed == old(idle) && Abs() == old(Abs()).(closing := true, idle := [])
      ensures var stale := set c | c in old(idle);
              closed == Pool.Stale(old(idle), stale) && idle == Pool.Fresh(old(idle), stale)
    {
      closing := true;
      closed := [];
      var k := 0;
      while k < |idle|
        invariant 0 <= k <= |idle| && idle == old(idle) && closed == idle[..k]
      {
        closed := closed + [idle[k]];
        k := k + 1;
      }
      AllStale(idle, set c | c in idle);
      idle := [];
    }

    /** The four fields of the penalty do not overlap, so adding them is joining their bits. */
    method CalculatePenalty(now: int) returns (penalty: nat)
      ensures penalty == Penalty(Abs(), roundRobin, now)
    {
      penalty := 0;
      if Pool.HasFailedConnect(Abs(), now) { penalty := FAILED; }
      var numBusy := |busy|;
      if numBusy > 0xff { numBusy := 0xff; }
      penalty := penalty + numBusy * 0x1_0000;
      if |idle| == 0 { penalty := penalty + NEW_CONNECTION; }
      penalty := penalty + roundRobin % 0x100;
    }
  }

  // ---------------------------------------------------------------------------------------------
  // The penalty
  // ---------------------------------------------------------------------------------------------

  const FAILED := 0x8000_0000
  const NEW_CONNECTION := 0x100

  function Rank(s: Pool.Server, roundRobin: nat, now: int): (nat, nat, nat, nat)
  {
    (if Pool.HasFailedConnect(s, now) then 1 else 0,
     if |s.busy| < 0xff then |s.busy| else 0xff,
     if s.idle == [] then 1 else 0,
     roundRobin % 0x100)
  }

  function Penalty(s: Pool.Server, roundRobin: nat, now: int): (r: nat)
    ensures r < 0x1_0000_0000
  {
    var k := Rank(s, roundRobin, now);
    k.0 * FAILED + k.1 * 0x1_0000 + k.2 * NEW_CONNECTION + k.3
  }

  predicate Before(a: (nat, nat, nat, nat), b: (nat, nat, nat, nat))
  {
    a.0 < b.0 || (a.0 == b.0 && (a.1 < b.1 || (a.1 == b.1 && (a.2 < b.2 || (a.2 == b.2 && a.3 < b.3)))))
  }

  /** A connect to the server failed less than three minutes ago. */
  predicate FailedLately(s: Pool.Server, now: int)
  {
    s.failedAt.Some? && now - s.failedAt.value < 180_000_000_000
  }

  /** The order of Borrow's choice, said of the two servers themselves. */
  predicate BetterChoice(s: Pool.Server, rr: nat, s': Pool.Server, rr': nat, now: int)
  {
    var busy := if |s.busy| > 255 then 255 else |s.busy|;
    var busy' := if |s'.busy| > 255 then 255 else |s'.busy|;
    if FailedLately(s, now) != FailedLately(s', now) then FailedLately(s', now)
    else if busy != busy' then busy < busy'
    else if (s.idle == []) != (s'.idle == []) then s'.idle == []
    else rr % 256 < rr' % 256
  }

  /**
   * Borrow's choice: a server is tried before another just if it has not failed and the other has;
   * or else it has fewer busy connections, as far as 255; or else it has an idle one and the other
   * has none; or else its turn comes first. A server without a record counts as one never used.
   */
  lemma {:induction false} PenaltyOrders(s: Pool.Server, rr: nat, s': Pool.Server, rr': nat, now: int)
    ensures Penalty(s, rr, now) < Penalty(s', rr', now) <==> BetterChoice(s, rr, s', rr', now)
    ensures Penalty(Pool.Server([], [], 0, false, None), 0, now) == NEW_CONNECTION
  {
    FieldsOrder(Rank(s, rr, now), Rank(s', rr', now));
  }

  lemma {:induction false} FieldsOrder(a: (nat, nat, nat, nat), b: (nat, nat, nat, nat))
    requires a.1 <= 0xff && b.1 <= 0xff && a.2 <= 1 && b.2 <= 1 && a.3 < 0x100 && b.3 < 0x100
    ensures a.0 * FAILED + a.1 * 0x1_0000 + a.2 * NEW_CONNECTION + a.3 < b.0 * FAILED + b.1 * 0x1_0000 + b.2 * NEW_CONNECTION + b.3
            <==> Before(a, b)
  {
  }

  // ---------------------------------------------------------------------------------------------
  // Pool.Close's walk over the queue
  // ---------------------------------------------------------------------------------------------

  /** A list element's successor, which an element that has been taken out does not have. */
  function Next(l: seq<nat>, e: nat): Option<nat>
  {
    if |l| < 2 then None else if l[0] == e then Some(l[1]) else Next(l[1..], e)
  }

  lemma {:induction false} TakenOutHasNoNext(l: seq<nat>, e: nat)
    requires e !in l
    ensures Next(l, e) == None
  {
    if |l| >= 2 { TakenOutHasNoNext(l[1..], e); }
  }

  /** The walk removes each element before asking for its successor, so it ends after the first. */
  method WakeWaiters(queue: seq<nat>) returns (left: seq<nat>, woken: seq<nat>)
    requires forall i, j :: 0 <= i < j < |queue| ==> queue[i] != queue[j]
    ensures |queue| > 0 ==> woken == [queue[0]] && left == queue[1..]
    ensures |queue| == 0 ==> woken == [] && left == []
  {
    left, woken := queue, [];
    var e := if queue == [] then None else Some(queue[0]);
    while e.Some?
      invariant e.Some? ==> queue != [] && e == Some(queue[0]) && left == queue && woken == []
      invariant e.None? && queue != [] ==> woken == [queue[0]] && left == queue[1..]
      invariant e.None? && queue == [] ==> woken == [] && left == []
      decreases e.Some?
    {
      left := Without(left, e.value);
      woken := woken + [e.value];
      TakenOutHasNoNext(left, e.value);
      e := Next(left, e.value);
    }
  }
}
