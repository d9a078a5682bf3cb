/**
 * Sessions and their transactions (session.go, transaction.go) as clients of the pool. Whatever step
 * fails, each connection a session borrows goes back once, and none is left after Close; it is used
 * only while the session has it, and a transaction is committed only where that was asked for. An
 * outcome the driver does not decide (a borrow, a server's answer, user code) is an arbitrary value.
 */
module Session {
  import opened Bytes

  /** What a session asks of a connection; queries run by a transaction function are its own affair. */
  datatype Act = Begin | Query | Commit | Rollback | Drain

  datatype Event = Event(conn: nat, act: Act, ok: bool)

  predicate IsEnd(act: Act)
  {
    act.Commit? || act.Rollback?
  }

  /** No transaction on connection `c` has been asked to end. */
  predicate NoEnd(log: seq<Event>, c: nat)
  {
    forall i :: 0 <= i < |log| && log[i].conn == c ==> !IsEnd(log[i].act)
  }

  /** Once a transaction was asked to end, nothing more is asked of its connection. */
  predicate EndsLast(log: seq<Event>)
  {
    forall i, j :: 0 <= i < j < |log| && log[i].conn == log[j].conn ==> !IsEnd(log[i].act)
  }

  /** The log has grown, by nothing but such acts. */
  predicate Grew(l: seq<Event>, m: seq<Event>, acts: set<Act>)
  {
    |l| <= |m| && m[..|l|] == l && forall i :: |l| <= i < |m| ==> m[i].act in acts
  }

  /** How many commits succeeded. */
  function Commits(log: seq<Event>): nat
  {
    if log == [] then 0
    else Commits(log[..|log| - 1]) + if log[|log| - 1].act.Commit? && log[|log| - 1].ok then 1 else 0
  }

  lemma {:induction false} CommitsOneMore(log: seq<Event>, e: Event)
    ensures Commits(log + [e]) == Commits(log) + if e.act.Commit? && e.ok then 1 else 0
  {
    assert (log + [e])[..|log|] == log;
  }

  lemma {:induction false} CommitsSame(l: seq<Event>, m: seq<Event>, acts: set<Act>)
    requires Grew(l, m, acts) && Commit !in acts
    ensures Commits(m) == Commits(l)
    decreases |m|
  {
    if |l| < |m| {
      assert m == m[..|m| - 1] + [m[|m| - 1]];
      CommitsOneMore(m[..|m| - 1], m[|m| - 1]);
      assert m[..|m| - 1][..|l|] == l;
      CommitsSame(l, m[..|m| - 1], acts);
    } else {
      assert m == m[..|l|];
    }
  }

  /** What one session has of the pool: connections by number, those it has out, and those it gave back. */
  class Pool {
    var next: nat
    var out: set<nat>
    var returned: seq<nat>
    /** What was asked of connections, in order, and whether it succeeded. */
    var log: seq<Event>

    /** Every connection ever borrowed is either out or was given back once. */
    ghost predicate Valid()
      reads this
    {
      && (forall c :: c in out ==> c < next && c !in returned)
      && (forall c :: 0 <= c < next ==> c in out || c in returned)
      && (forall i :: 0 <= i < |returned| ==> returned[i] < next)
      && (forall i, j :: 0 <= i < j < |returned| ==> returned[i] != returned[j])
      && (forall i :: 0 <= i < |log| ==> log[i].conn < next) && EndsLast(log)
    }

    constructor ()
      ensures Valid() && next == 0 && out == {} && returned == [] && log == []
    {
      next, out, returned, log := 0, {}, [], [];
    }

    method Borrow() returns (c: Option<nat>)
      requires Valid()
      modifies this
      ensures Valid() && returned == old(returned) && log == old(log)
      ensures c.None? ==> out == old(out) && next == old(next)
      ensures c.Some? ==> c.value == old(next) && next == old(next) + 1 && out == old(out) + {c.value} && c.value !in old(out)
    {
      var fails: bool := *;
      if fails { return None; }
      c := Some(next);
      out, next := out + {next}, next + 1;
    }

    /** Giving back what is not out, or was given back before, would be an error of the session. */
    method Return(c: nat)
      requires Valid() && c in out
      modifies this
      ensures Valid() && out == old(out) - {c} && next == old(next) && returned == old(returned) + [c] && log == old(log)
    {
      assert forall x :: x in returned + [c] <==> x in returned || x == c;
      out, returned := out - {c}, returned + [c];
    }

    /** Asks something of a connection, which must be out and its transaction not ended. */
    method Use(c: nat, act: Act) returns (ok: bool)
      requires Valid() && c in out && NoEnd(log, c)
      modifies this`log
      ensures Valid() && log == old(log) + [Event(c, act, ok)]
    {
      ok := *;
      log := log + [Event(c, act, ok)];
    }
  }

  /** An explicit transaction: its connection until it is over, and whether an error is recorded. */
  class Tx {
    var conn: Option<nat>
    var err: bool

    constructor (c: nat)
      ensures conn == Some(c) && !err
    {
      conn, err := Some(c), false;
    }
  }

  class Autocommit {
    const conn: nat
    var closed: bool

    constructor (c: nat)
      ensures conn == c && !closed
    {
      conn, closed := c, false;
    }
  }

  class Session {
    const pool: Pool
    var explicitTx: Tx?
    var autocommitTx: Autocommit?
    var closed: bool
    /** Every transaction the session ever began; the caller may still use any of them. */
    ghost var txs: set<Tx>

    ghost function Outstanding(): set<nat>
      reads this, explicitTx
    {
      (if explicitTx != null && explicitTx.conn.Some? then {explicitTx.conn.value} else {}) +
      (if autocommitTx != null then {autocommitTx.conn} else {})
    }

    /**
     * The connections out are those of the pending transaction and the pending result; a transaction
     * that is over, or has an error recorded, has none.
     */
    ghost predicate Valid()
      reads this, pool, explicitTx, autocommitTx, txs
    {
      && pool.Valid() && pool.out == Outstanding()
      && (explicitTx != null ==> explicitTx in txs && explicitTx.conn.Some? && !explicitTx.err && autocommitTx == null)
      && (explicitTx != null ==> NoEnd(pool.log, explicitTx.conn.value))
      && (autocommitTx != null ==> !autocommitTx.closed && NoEnd(pool.log, autocommitTx.conn))
      && (forall t :: t in txs && t != explicitTx ==> t.conn.None?)
      && (closed ==> explicitTx == null && autocommitTx == null)
    }

    constructor ()
      ensures Valid() && fresh(pool) && txs == {} && !closed && pool.next == 0 && pool.log == []
    {
      pool := new Pool();
      explicitTx, autocommitTx, closed, txs := null, null, false, {};
    }

    /** Whatever has an error recorded has let its connection go. */
    lemma {:induction false} NoErrorHoldsConnection(tx: Tx)
      requires Valid() && tx in txs && tx.err
      ensures tx.conn.None?
    {
    }

    // --- connections ---------------------------------------------------------------------------

    /** A connection on which the database is selected, or none with nothing left out. */
    method GetConnection() returns (c: Option<nat>)
      requires pool.Valid()
      modifies pool
      ensures pool.Valid() && pool.log == old(pool.log)
      ensures c.None? ==> pool.out == old(pool.out)
      ensures c.Some? ==> pool.out == old(pool.out) + {c.value} && c.value !in old(pool.out) && NoEnd(pool.log, c.value)
    {
      var noServers: bool := *;
      if noServers { return None; }
      c := pool.Borrow();
      if c.None? { return; }
      var guessedWithoutSsr: bool := *;
      if guessedWithoutSsr {
        pool.Return(c.value);
        var noServersAgain: bool := *;
        if noServersAgain { return None; }
        c := pool.Borrow();
        if c.None? { return; }
      }
      var cannotSelect: bool := *;
      if cannotSelect {
        pool.Return(c.value);
        return None;
      }
    }

    /** autocommitTransaction.done and discard: the result is drained, and however that ends the connection goes back. */
    method FinishAutocommit()
      requires Valid() && autocommitTx != null
      modifies this`autocommitTx, autocommitTx, pool
      ensures Valid() && autocommitTx == null && Grew(old(pool.log), pool.log, {Drain}) && |pool.log| == |old(pool.log)| + 1
    {
      if !autocommitTx.closed {
        var drained := pool.Use(autocommitTx.conn, Drain);
        autocommitTx.closed := true;
        pool.Return(autocommitTx.conn);
        autocommitTx := null;
      }
    }

    // --- explicit transactions -----------------------------------------------------------------

    /** A connection on which a transaction has begun, or none with nothing left out. */
    method BeginOnConnection() returns (c: Option<nat>)
      requires pool.Valid()
      modifies pool
      ensures pool.Valid() && Grew(old(pool.log), pool.log, {Begin}) && |pool.log| <= |old(pool.log)| + 1
      ensures c.None? ==> pool.out == old(pool.out)
      ensures c.Some? ==>
                && pool.out == old(pool.out) + {c.value} && c.value !in old(pool.out) && NoEnd(pool.log, c.value)
                && pool.log == old(pool.log) + [Event(c.value, Begin, true)]
    {
      c := GetConnection();
      if c.None? { return; }
      var noBookmarks: bool := *;
      var began := false;
      if !noBookmarks { began := pool.Use(c.value, Begin); }
      if !began {
        pool.Return(c.value);
        c := None;
      }
    }

    method BeginTransaction() returns (tx: Tx?)
      requires Valid()
      modifies this, pool, autocommitTx
      ensures Valid() && closed == old(closed)
      ensures tx != null ==> fresh(tx) && tx == explicitTx && txs == old(txs) + {tx}
      ensures tx == null ==> txs == old(txs) && explicitTx == old(explicitTx)
      ensures autocommitTx == null || autocommitTx == old(autocommitTx)
      ensures Grew(old(pool.log), pool.log, {Drain, Begin})
      ensures tx != null ==> pool.log != [] && pool.log[|pool.log| - 1] == Event(tx.conn.value, Begin, true)
    {
      tx := null;
      if closed || explicitTx != null { return; }
      if autocommitTx != null { FinishAutocommit(); }
      var badConfig: bool := *;
      if badConfig { return; }
      var conn := BeginOnConnection();
      if conn.None? { return; }
      tx := new Tx(conn.value);
      explicitTx := tx;
      txs := txs + {tx};
    }

    /** The closure run when a transaction ends; it may be called again and then does nothing. */
    method OnClose(tx: Tx)
      requires tx in txs && pool.Valid() && pool.out == Outstanding()
      requires explicitTx != null ==> explicitTx in txs && explicitTx.conn.Some? && autocommitTx == null
      requires autocommitTx != null ==> !autocommitTx.closed && NoEnd(pool.log, autocommitTx.conn)
      requires forall t :: t in txs && t != explicitTx ==> t.conn.None?
      requires closed ==> explicitTx == null && autocommitTx == null
      requires explicitTx != null && explicitTx != tx ==> !explicitTx.err && NoEnd(pool.log, explicitTx.conn.value)
      modifies this`explicitTx, tx, pool
      ensures Valid() && tx.conn.None? && explicitTx == (if old(tx.conn).None? then old(explicitTx) else null)
      ensures pool.log == old(pool.log) && (old(tx.err) ==> tx.err)
    {
      if tx.conn.None? { return; }
      assert tx == explicitTx;
      var bookmarkFails: bool := *;
      pool.Return(tx.conn.value);
      tx.err := tx.err || bookmarkFails;
      tx.conn := None;
      explicitTx := null;
    }

    /** transactionState.onError: the error is recorded and the first handler closes the transaction. */
    method OnError(tx: Tx)
      requires Valid() && tx in txs
      modifies this`explicitTx, tx, pool
      ensures Valid() && tx.conn.None? && (explicitTx == null || explicitTx == old(explicitTx))
      ensures tx.err && pool.log == old(pool.log)
    {
      tx.err := true;
      OnClose(tx);
    }

    method TxRun(tx: Tx) returns (ok: bool)
      requires Valid() && tx in txs
      modifies this`explicitTx, tx, pool
      ensures Valid() && (!ok ==> tx.conn.None?) && (explicitTx == null || explicitTx == old(explicitTx))
      ensures if old(tx.conn).None? then !ok && pool.log == old(pool.log) else pool.log == old(pool.log) + [Event(old(tx.conn).value, Query, ok)]
    {
      if tx.conn.None? { return false; }
      ok := pool.Use(tx.conn.value, Query);
      if !ok { OnError(tx); }
    }

    /** A result of the transaction asks its connection for more, and that may fail. */
    method ResultAdvance(tx: Tx)
      requires Valid() && tx in txs
      modifies this`explicitTx, tx, pool
      ensures Valid() && (explicitTx == null || explicitTx == old(explicitTx))
      ensures pool.log == old(pool.log)
    {
      var fails: bool := *;
      if fails { OnError(tx); }
    }

    /** Commits a transaction that is not over, once; says so only if the server did. */
    method Commit(tx: Tx) returns (ok: bool)
      requires Valid() && tx in txs
      modifies this`explicitTx, tx, pool
      ensures Valid() && tx.conn.None? && (explicitTx == null || explicitTx == old(explicitTx))
      ensures old(tx.conn).None? ==> !ok && pool.log == old(pool.log)
      ensures old(tx.conn).Some? ==>
                && |pool.log| == |old(pool.log)| + 1 && pool.log[..|old(pool.log)|] == old(pool.log)
                && pool.log[|old(pool.log)|] == Event(old(tx.conn).value, Act.Commit, pool.log[|old(pool.log)|].ok)
                && (ok ==> pool.log[|old(pool.log)|].ok)
    {
      if tx.err || tx.conn.None? { return false; }
      var committed := pool.Use(tx.conn.value, Act.Commit);
      tx.err := !committed;
      OnClose(tx);
      ok := !tx.err;
    }

    /** Rolls back a transaction that is not over, unless its connection has failed, which does so by itself. */
    method Rollback(tx: Tx)
      requires Valid() && tx in txs
      modifies this`explicitTx, tx, pool
      ensures Valid() && tx.conn.None? && (explicitTx == null || explicitTx == old(explicitTx))
      ensures Grew(old(pool.log), pool.log, if old(tx.conn).Some? then {Act.Rollback} else {}) && |pool.log| <= |old(pool.log)| + 1
    {
      if tx.err || tx.conn.None? { return; }
      var implicitly: bool := *;
      if implicitly {
        tx.err := false;
      } else {
        var rolledBack := pool.Use(tx.conn.value, Act.Rollback);
        tx.err := !rolledBack;
      }
      OnClose(tx);
    }

    /** Rolls back a transaction that is not over; never commits one. */
    method TxClose(tx: Tx)
      requires Valid() && tx in txs
      modifies this`explicitTx, tx, pool
      ensures Valid() && tx.conn.None? && (explicitTx == null || explicitTx == old(explicitTx))
      ensures Grew(old(pool.log), pool.log, {Act.Rollback})
    {
      if tx.conn.None? { return; }
      Rollback(tx);
    }

    // --- auto-commit and managed transactions --------------------------------------------------

    /** A connection on which the query runs, or none with nothing left out, and whether to try once more. */
    method QueryOnConnection() returns (c: Option<nat>, idempotent: bool)
      requires pool.Valid()
      modifies pool
      ensures pool.Valid() && Grew(old(pool.log), pool.log, {Query}) && |pool.log| <= |old(pool.log)| + 1
      ensures c.None? ==> pool.out == old(pool.out)
      ensures c.Some? ==>
                && pool.out == old(pool.out) + {c.value} && c.value !in old(pool.out) && NoEnd(pool.log, c.value)
                && pool.log == old(pool.log) + [Event(c.value, Query, true)]
      ensures idempotent ==> |pool.log| == |old(pool.log)| + 1 && !pool.log[|old(pool.log)|].ok
    {
      idempotent := false;
      c := GetConnection();
      if c.None? { return; }
      var noBookmarks: bool := *;
      if noBookmarks {
        pool.Return(c.value);
        return None, false;
      }
      var ok := pool.Use(c.value, Query);
      if !ok {
        pool.Return(c.value);
        c := None;
        idempotent := *;
      }
    }

    /** Runs a query in its own transaction; a failure the server calls idempotent is tried once more. */
    method Run() returns (ok: bool)
      requires Valid()
      modifies this, pool, autocommitTx
      ensures Valid() && closed == old(closed) && explicitTx == old(explicitTx) && txs == old(txs)
      ensures ok ==> autocommitTx != null
      ensures autocommitTx == null || autocommitTx == old(autocommitTx) || fresh(autocommitTx)
      ensures Grew(old(pool.log), pool.log, {Drain, Query}) && |pool.log| <= |old(pool.log)| + 3
      ensures ok ==> pool.log != [] && pool.log[|pool.log| - 1] == Event(autocommitTx.conn, Query, true)
    {
      ok := false;
      if closed || explicitTx != null { return; }
      if autocommitTx != null { FinishAutocommit(); }
      var badConfig: bool := *;
      if badConfig { return; }
      var attempt := 0;
      while attempt < 2
        invariant 0 <= attempt <= 2 && Valid() && autocommitTx == null && explicitTx == null && !closed && txs == old(txs)
        invariant Grew(old(pool.log), pool.log, {Drain, Query}) && |pool.log| <= |old(pool.log)| + 1 + attempt
      {
        var conn, idempotent := QueryOnConnection();
        if conn.Some? {
          autocommitTx := new Autocommit(conn.value);
          return true;
        }
        if attempt != 0 || !idempotent { return; }
        attempt := attempt + 1;
      }
    }

    /**
     * One attempt of a transaction function. A commit is asked for just if the transaction began and the
     * work then succeeded, which is `worked`, and the attempt is complete just if the commit succeeded;
     * the connection goes back however it ends, a panic included.
     */
    method Attempt() returns (completed: bool, worked: bool)
      requires pool.Valid()
      modifies pool
      ensures pool.Valid() && pool.out == old(pool.out)
      ensures Grew(old(pool.log), pool.log, {Begin, Act.Commit}) && |pool.log| <= |old(pool.log)| + 2
      ensures Commits(pool.log) == Commits(old(pool.log)) + if completed then 1 else 0
      ensures !worked ==> Grew(old(pool.log), pool.log, {Begin}) && |pool.log| <= |old(pool.log)| + 1
      ensures worked ==>
                && |pool.log| == |old(pool.log)| + 2
                && pool.log[|old(pool.log)|] == Event(pool.log[|old(pool.log)|].conn, Begin, true)
                && pool.log[|old(pool.log)| + 1] == Event(pool.log[|old(pool.log)|].conn, Act.Commit, completed)
    {
      ghost var l := pool.log;
      var conn := GetConnection();
      if conn.None? { return false, false; }
      var noBookmarks: bool := *;
      completed, worked := false, false;
      if !noBookmarks {
        var began := pool.Use(conn.value, Begin);
        CommitsOneMore(l, Event(conn.value, Begin, began));
        if began { worked := *; }
        if worked {
          ghost var m := pool.log;
          completed := pool.Use(conn.value, Act.Commit);
          CommitsOneMore(m, Event(conn.value, Act.Commit, completed));
        }
      }
      pool.Return(conn.value);
    }

    /**
     * ExecuteRead and ExecuteWrite: attempts until one completes or the retry policy gives up. Just
     * one commit succeeds if it says so, and else none.
     */
    method Execute() returns (ok: bool)
      requires Valid()
      modifies this`autocommitTx, autocommitTx, pool
      ensures Valid() && (autocommitTx == null || autocommitTx == old(autocommitTx))
      ensures Grew(old(pool.log), pool.log, {Drain, Begin, Act.Commit})
      ensures Commits(pool.log) == Commits(old(pool.log)) + if ok then 1 else 0
    {
      ok := false;
      if closed || explicitTx != null { return; }
      if autocommitTx != null {
        FinishAutocommit();
        CommitsSame(old(pool.log), pool.log, {Drain});
      }
      var badConfig: bool := *;
      if badConfig { return; }
      var attempts: nat := *;
      while attempts > 0
        invariant Valid() && autocommitTx == null && explicitTx == null && !ok
        invariant Grew(old(pool.log), pool.log, {Drain, Begin, Act.Commit}) && Commits(pool.log) == Commits(old(pool.log))
      {
        var worked;
        ok, worked := Attempt();
        if ok { return; }
        attempts := attempts - 1;
      }
    }

    /** Afterwards nothing is out, and the session takes no more calls. */
    method Close()
      requires Valid()
      modifies this, explicitTx, autocommitTx, pool
      ensures Valid() && closed && pool.out == {} && txs == old(txs)
      ensures Grew(old(pool.log), pool.log, {Act.Rollback, Drain})
    {
      if closed { return; }
      if explicitTx != null { TxClose(explicitTx); }
      if autocommitTx != null { FinishAutocommit(); }
      closed := true;
    }
  }

  // ---------------------------------------------------------------------------------------------
  // Any sequence of calls
  // ---------------------------------------------------------------------------------------------

  /** A call of the session, or of the `i`-th transaction it began, long over or not. */
  datatype Call =
    | RunCall | BeginCall | ExecuteCall | CloseCall
    | TxRunCall(i: nat) | CommitCall(i: nat) | RollbackCall(i: nat) | TxCloseCall(i: nat) | AdvanceCall(i: nat)

  /** A connection was given back exactly once. */
  ghost predicate GivenBackOnce(returned: seq<nat>, c: nat)
  {
    exists i :: 0 <= i < |returned| && returned[i] == c && forall j :: 0 <= j < |returned| && returned[j] == c ==> j == i
  }

  /** How many of the calls may commit something. */
  function CommitCalls(calls: seq<Call>): nat
  {
    if calls == [] then 0
    else CommitCalls(calls[..|calls| - 1]) + if MayCommit(calls[|calls| - 1]) then 1 else 0
  }

  predicate MayCommit(call: Call)
  {
    call.CommitCall? || call.ExecuteCall?
  }

  /** Between two logs at most one commit succeeded, and none unless the call may commit. */
  ghost predicate CommitsFor(l: seq<Event>, m: seq<Event>, call: Call)
  {
    Commits(m) <= Commits(l) + if MayCommit(call) then 1 else 0
  }

  lemma {:induction false} CommitsLogged(l: seq<Event>, m: seq<Event>)
    requires |m| == |l| + 1 && m[..|l|] == l
    ensures Commits(m) <= Commits(l) + 1 && (!m[|l|].act.Commit? ==> Commits(m) == Commits(l))
  {
    assert m == l + [m[|l|]];
    CommitsOneMore(l, m[|l|]);
  }

  method OnTx(s: Session, tx: Tx, call: Call)
    requires s.Valid() && tx in s.txs
    modifies s, tx, s.pool
    ensures s.Valid() && s.txs == old(s.txs) && s.autocommitTx == old(s.autocommitTx) && (s.explicitTx == null || s.explicitTx == old(s.explicitTx))
    ensures CommitsFor(old(s.pool.log), s.pool.log, call)
  {
    ghost var l := s.pool.log;
    match call
    case TxRunCall(_) =>
      var _ := s.TxRun(tx);
      if |s.pool.log| > |l| { CommitsLogged(l, s.pool.log); }
    case CommitCall(_) =>
      var _ := s.Commit(tx);
      if |s.pool.log| > |l| { CommitsLogged(l, s.pool.log); }
    case RollbackCall(_) =>
      s.Rollback(tx);
      CommitsSame(l, s.pool.log, {Rollback});
    case TxCloseCall(_) =>
      s.TxClose(tx);
      CommitsSame(l, s.pool.log, {Rollback});
    case _ => s.ResultAdvance(tx);
  }

  /**
   * A session lived from its creation to its Close, with any calls between in any order and any of
   * their steps failing: every connection it borrowed was given back exactly once, and no other was;
   * it was used only while borrowed, and not at all once its transaction was asked to end; and no
   * more commits succeeded than calls asked for one.
   */
  method LiveSession(calls: seq<Call>) returns (borrowed: nat, returned: seq<nat>, log: seq<Event>)
    ensures forall c: nat :: c < borrowed ==> GivenBackOnce(returned, c)
    ensures forall i :: 0 <= i < |returned| ==> returned[i] < borrowed
    ensures EndsLast(log) && forall i :: 0 <= i < |log| ==> log[i].conn < borrowed
    ensures Commits(log) <= CommitCalls(calls)
  {
    var s := new Session();
    var txs: seq<Tx> := [];
    for n := 0 to |calls|
      invariant s.Valid() && fresh(s) && fresh(s.pool) && (s.autocommitTx != null ==> fresh(s.autocommitTx))
      invariant forall t :: t in s.txs <==> t in txs
      invariant forall t :: t in s.txs ==> fresh(t)
      invariant Commits(s.pool.log) <= CommitCalls(calls[..n])
    {
      ghost var l := s.pool.log;
      txs := OneCall(s, txs, calls[n]);
      assert calls[..n + 1][..n] == calls[..n] && calls[..n + 1][n] == calls[n];
    }
    assert calls[..|calls|] == calls;
    ghost var l := s.pool.log;
    s.Close();
    CommitsSame(l, s.pool.log, {Rollback, Drain});
    borrowed, returned, log := s.pool.next, s.pool.returned, s.pool.log;
    forall c: nat | c < borrowed ensures GivenBackOnce(returned, c) {
      assert c in returned;
      var i :| 0 <= i < |returned| && returned[i] == c;
    }
  }

  /** One of those calls; `txs` are the transactions begun so far. */
  method OneCall(s: Session, txs: seq<Tx>, call: Call) returns (txs': seq<Tx>)
    requires s.Valid() && forall t :: t in s.txs <==> t in txs
    modifies s, s.pool, s.autocommitTx, s.explicitTx, s.txs
    ensures s.Valid() && forall t :: t in s.txs <==> t in txs'
    ensures s.autocommitTx == null || s.autocommitTx == old(s.autocommitTx) || fresh(s.autocommitTx)
    ensures forall t :: t in s.txs && t !in old(s.txs) ==> fresh(t)
    ensures CommitsFor(old(s.pool.log), s.pool.log, call)
  {
    txs' := txs;
    ghost var l := s.pool.log;
    match call
    case RunCall =>
      var _ := s.Run();
      CommitsSame(l, s.pool.log, {Drain, Query});
    case BeginCall =>
      var tx := s.BeginTransaction();
      CommitsSame(l, s.pool.log, {Drain, Begin});
      if tx != null { txs' := txs + [tx]; }
    case ExecuteCall => var _ := s.Execute();
    case CloseCall =>
      s.Close();
      CommitsSame(l, s.pool.log, {Rollback, Drain});
    case other =>
      if other.i < |txs| {
        assert txs[other.i] in txs;
        OnTx(s, txs[other.i], other);
      }
  }
}
