/**
 * The retry loop of transaction functions (state.go, throttler.go, session.go): which failures are
 * tried again, how long it sleeps in between, and that it ends.
 */
module Retry {
  import opened Bytes

  // ---------------------------------------------------------------------------------------------
  // Back-off
  // ---------------------------------------------------------------------------------------------

  /** The next delay: twice the last, less a fifth of it, plus up to two fifths by chance. */
  function NextDelay(delay: nat, random: real): (next: nat)
    requires 0.0 <= random < 1.0
    ensures next as real >= 1.8 * delay as real
    ensures next as real <= 2.2 * delay as real + 1.0
  {
    var jitter := delay as real * 0.2;
    var spread := Spread(jitter, random);
    DelayBounds(delay, jitter, jitter.Floor, spread, spread.Floor);
    2 * delay - jitter.Floor + spread.Floor
  }

  lemma {:induction false} DelayBounds(delay: nat, jitter: real, j: int, spread: real, s: int)
    requires jitter == delay as real * 0.2 && j as real <= jitter < j as real + 1.0
    requires 0.0 <= spread <= 2.0 * jitter && s as real <= spread < s as real + 1.0
    ensures 2 * delay - j + s >= 0
    ensures 1.8 * delay as real <= (2 * delay - j + s) as real <= 2.2 * delay as real + 1.0
  {
    assert s >= 0;
    assert (2 * delay - j + s) as real == 2.0 * delay as real - j as real + s as real;
  }

  function Spread(jitter: real, random: real): (s: real)
    requires jitter >= 0.0 && 0.0 <= random < 1.0
    ensures 0.0 <= s <= 2.0 * jitter
  {
    var gap := 1.0 - random;
    assert jitter * random >= 0.0 && jitter * gap >= 0.0;
    assert jitter * random + jitter * gap == jitter;
    2.0 * (jitter * random)
  }

  /** 1.8^n times the first delay. */
  function Grown(first: nat, n: nat): real
  {
    if n == 0 then first as real else 1.8 * Grown(first, n - 1)
  }

  /** It grows at least as fast as a line, so it passes every bound. */
  lemma {:induction false} GrownFast(first: nat, n: nat)
    requires first > 0
    ensures Grown(first, n) >= 1.0 + 0.8 * n as real
  {
    if n > 0 { GrownFast(first, n - 1); }
  }

  // ---------------------------------------------------------------------------------------------
  // The state
  // ---------------------------------------------------------------------------------------------

  datatype Error =
    | CommitFailedDead
    | PoolTimeout
    | Connectivity
    | Server(retriable: bool)
    | LimitReached
    | OtherError

  predicate IsRetryable(e: Error)
  {
    match e
    case Connectivity => true
    case Server(retriable) => retriable
    case _ => false
  }

  class State {
    var errs: seq<Error>
    const maxRetryTime: int
    const maxDead: int
    var throttle: nat
    var start: Option<int>
    var deadErrors: int
    var skipSleep: bool

    constructor (maxRetryTime: int, throttle: nat, maxDead: int)
      ensures errs == [] && start == None && deadErrors == 0 && !skipSleep && this.throttle == throttle
      ensures this.maxRetryTime == maxRetryTime && this.maxDead == maxDead
    {
      errs, start, deadErrors, skipSleep := [], None, 0, false;
      this.maxRetryTime, this.throttle, this.maxDead := maxRetryTime, throttle, maxDead;
    }

    method OnFailure(err: Error, dead: bool, committing: bool)
      modifies this`errs, this`deadErrors, this`skipSleep
      ensures errs == old(errs) + [if dead && committing then CommitFailedDead else err]
      ensures deadErrors == old(deadErrors) + (if dead then 1 else 0) && skipSleep == dead
    {
      if dead {
        if committing { errs := errs + [CommitFailedDead]; } else { errs := errs + [err]; }
        deadErrors := deadErrors + 1;
        skipSleep := true;
        return;
      }
      errs := errs + [err];
      skipSleep := false;
    }

    /**
     * Whether to make another attempt, at time `now`: the first one always, and one more just when the
     * last failure was one of connectivity or one the server calls retriable, the retry time is not
     * used up and not too many connections died. It is made right away after a dead connection and
     * otherwise after a sleep, which takes at least as long as it was meant to and may be interrupted.
     * `cancelled`, `random`, `overslept` and `interrupted` are what the context, chance and the clock
     * decide.
     */
    method Continue(now: int, cancelled: bool, random: real, overslept: nat, interrupted: bool)
      returns (again: bool, slept: Option<nat>, later: int)
      requires 0.0 <= random < 1.0
      modifies this`errs, this`throttle, this`start
      ensures start == Some(if old(start).Some? then old(start).value else now)
      ensures old(errs) == [] ==> again == !cancelled
      ensures old(errs) != [] ==>
                again == (&& !cancelled && (old(errs)[|old(errs)| - 1] == Connectivity || old(errs)[|old(errs)| - 1] == Server(true))
                          && now - start.value <= maxRetryTime && deadErrors <= maxDead && (skipSleep || !interrupted))
      ensures again ==> errs == old(errs)
      ensures !again ==> errs != []
      ensures slept == (if again && errs != [] && !skipSleep then Some(NextDelay(old(throttle), random)) else None)
      ensures again ==> throttle == (if slept.Some? then slept.value else old(throttle))
      ensures throttle == old(throttle) || throttle == NextDelay(old(throttle), random)
      ensures later >= now && (slept.Some? ==> later >= now + slept.value)
    {
      slept, later := None, now;
      if start.None? { start := Some(now); }
      if cancelled {
        errs := errs + [OtherError];
        return false, None, now;
      }
      if errs == [] { return true, None, now; }
      if !IsRetryable(errs[|errs| - 1]) { return false, None, now; }
      if now - start.value > maxRetryTime {
        errs := [LimitReached];
        return false, None, now;
      }
      if deadErrors > maxDead {
        errs := [LimitReached];
        return false, None, now;
      }
      if !skipSleep {
        throttle := NextDelay(throttle, random);
        later := now + throttle + overslept;
        if interrupted {
          errs := [LimitReached];
          return false, None, later;
        }
        slept := Some(throttle);
      }
      again := true;
    }
  }

  // ---------------------------------------------------------------------------------------------
  // The loop
  // ---------------------------------------------------------------------------------------------

  function Sum(l: seq<nat>): nat
  {
    if l == [] then 0 else Sum(l[..|l| - 1]) + l[|l| - 1]
  }

  /** The j-th sleep, counted from one, is at least 1.8^j times the first delay. */
  ghost predicate Spaced(sleeps: seq<nat>, first: nat)
  {
    forall j :: 0 <= j < |sleeps| ==> sleeps[j] as real >= Grown(first, j + 1)
  }

  /** Enough sleeps that the last would exceed the retry time. */
  function MaxSleeps(maxRetryTime: int, first: nat): nat
    requires first > 0
  {
    if maxRetryTime < 0 then 1 else 2 * maxRetryTime + 2
  }

  lemma {:induction false} SleepsBounded(sleeps: seq<nat>, first: nat, maxRetryTime: int)
    requires first > 0 && Spaced(sleeps, first) && sleeps != [] && Sum(sleeps) <= maxRetryTime
    ensures Grown(first, |sleeps|) <= maxRetryTime as real && |sleeps| < MaxSleeps(maxRetryTime, first)
  {
    var n := |sleeps|;
    assert sleeps[n - 1] <= Sum(sleeps);
    assert sleeps[n - 1] as real >= Grown(first, n - 1 + 1);
    assert sleeps[n - 1] as real <= maxRetryTime as real;
    GrownFast(first, n);
    assert n as real <= 2.0 * maxRetryTime as real;
  }

  lemma {:induction false} SpacedOneMore(sleeps: seq<nat>, first: nat, last: nat, next: nat)
    requires Spaced(sleeps, first) && last as real >= Grown(first, |sleeps|) && next as real >= 1.8 * last as real
    ensures Spaced(sleeps + [next], first) && next as real >= Grown(first, |sleeps| + 1)
  {
    assert Grown(first, |sleeps| + 1) == 1.8 * Grown(first, |sleeps|);
  }

  /** The sleeps so far: well spaced, no longer than the time that has passed, and all but the last within the limit. */
  ghost predicate Paced(sleeps: seq<nat>, first: nat, throttle: nat, elapsed: int, maxRetryTime: int)
  {
    && Spaced(sleeps, first) && throttle as real >= Grown(first, |sleeps|) && elapsed >= Sum(sleeps)
    && (|sleeps| > 1 ==> Sum(sleeps[..|sleeps| - 1]) <= maxRetryTime)
  }

  lemma {:induction false} PacedSleep(sleeps: seq<nat>, first: nat, throttle: nat, elapsed: int, maxRetryTime: int, next: nat, elapsed': int)
    requires Paced(sleeps, first, throttle, elapsed, maxRetryTime) && elapsed <= maxRetryTime
    requires next as real >= 1.8 * throttle as real && elapsed' >= elapsed + next
    ensures Paced(sleeps + [next], first, next, elapsed', maxRetryTime)
  {
    SpacedOneMore(sleeps, first, throttle, next);
    assert (sleeps + [next])[..|sleeps|] == sleeps;
  }

  lemma {:induction false} PacedFew(sleeps: seq<nat>, first: nat, throttle: nat, elapsed: int, maxRetryTime: int)
    requires first > 0 && Paced(sleeps, first, throttle, elapsed, maxRetryTime)
    ensures |sleeps| <= MaxSleeps(maxRetryTime, first) + 1
    ensures |sleeps| > 1 ==> Grown(first, |sleeps| - 1) <= maxRetryTime as real
  {
    if |sleeps| > 1 { SleepsBounded(sleeps[..|sleeps| - 1], first, maxRetryTime); }
  }

  /** The failures after which the work is tried again. */
  predicate GoesOn(e: Error)
  {
    e == Connectivity || e == Server(true)
  }

  /** Continue, with whatever the context, chance and the clock decide. */
  method Proceed(s: State, now: int) returns (again: bool, slept: Option<nat>, later: int, stopped: bool)
    modifies s
    ensures s.deadErrors == old(s.deadErrors) && s.skipSleep == old(s.skipSleep)
    ensures later >= now && s.throttle >= old(s.throttle) && s.start == Some(if old(s.start).Some? then old(s.start).value else now)
    ensures slept.Some? ==> again
    ensures stopped ==> !again
    ensures !again && !stopped ==>
              old(s.errs) != [] && !(GoesOn(old(s.errs)[|old(s.errs)| - 1]) && now - s.start.value <= s.maxRetryTime && s.deadErrors <= s.maxDead)
    ensures again && old(s.errs) == [] ==> slept.None? && s.errs == [] && s.throttle == old(s.throttle)
    ensures again && old(s.errs) != [] ==>
              && GoesOn(old(s.errs)[|old(s.errs)| - 1]) && now - s.start.value <= s.maxRetryTime && s.deadErrors <= s.maxDead
              && s.errs == old(s.errs) && (slept.None? <==> s.skipSleep)
              && (slept.None? ==> s.throttle == old(s.throttle))
              && (slept.Some? ==> s.throttle == slept.value && s.throttle as real >= 1.8 * old(s.throttle) as real && later >= now + slept.value)
  {
    var cancelled: bool := *;
    var interrupted: bool := *;
    var random: real :| 0.0 <= random < 1.0;
    var overslept: nat :| overslept >= 0;
    again, slept, later := s.Continue(now, cancelled, random, overslept, interrupted);
    stopped := !again && (cancelled || (interrupted && !s.skipSleep));
  }

  /**
   * runRetriable, with any outcome of every attempt and any delay anywhere. It ends. At most one
   * attempt more than allowed fails on a dead connection; the j-th sleep is at least 1.8^j times the
   * first delay, and all but the last together fit the retry time, so their number is logarithmic in
   * it; every further attempt is paid for by a dead connection or a sleep; and the work is not run
   * again once a commit was lost with its connection. `errs` are the failures, in order: the work is
   * tried again only after one of connectivity or one the server calls retriable, and after such a
   * one always, unless the caller stopped it, the time is used up or too many connections died.
   */
  method RunRetriable(maxRetryTime: int, first: nat, maxDead: nat)
    returns (completed: bool, attempts: nat, deaths: nat, sleeps: seq<nat>, lostCommits: nat, afterLostCommit: nat,
             errs: seq<Error>, stopped: bool, elapsed: int)
    requires first > 0
    ensures deaths <= maxDead + 1
    ensures Spaced(sleeps, first)
    ensures |sleeps| > 1 ==> Sum(sleeps[..|sleeps| - 1]) <= maxRetryTime && Grown(first, |sleeps| - 1) <= maxRetryTime as real
    ensures attempts <= deaths + |sleeps| + 1
    ensures lostCommits <= 1 && afterLostCommit == 0 && (completed ==> lostCommits == 0)
    ensures |errs| == attempts - (if completed then 1 else 0)
    ensures forall i :: 0 <= i < |errs| && i + 1 < attempts ==> errs[i] == Connectivity || errs[i] == Server(true)
    ensures !completed && !stopped ==>
              errs != [] && (errs[|errs| - 1] == Connectivity || errs[|errs| - 1] == Server(true) ==> elapsed > maxRetryTime || deaths > maxDead)
  {
    var s := new State(maxRetryTime, first, maxDead);
    var now: int := *;
    completed, attempts, deaths, sleeps, lostCommits, afterLostCommit := false, 0, 0, [], 0, 0;
    errs, elapsed := [], 0;
    var again, slept, later;
    again, slept, later, stopped := Proceed(s, now);
    now := later;
    ghost var bound := MaxSleeps(maxRetryTime, first) + 1;
    while again
      invariant s.maxRetryTime == maxRetryTime && s.maxDead == maxDead && s.start.Some?
      invariant deaths == s.deadErrors && deaths <= maxDead + 1 && (again ==> deaths <= maxDead)
      invariant Paced(sleeps, first, s.throttle, now - s.start.value, maxRetryTime) && |sleeps| <= bound
      invariant attempts <= deaths + |sleeps| + (if again then 0 else 1)
      invariant lostCommits <= 1 && afterLostCommit == 0 && (again ==> lostCommits == 0)
      invariant again ==> s.errs == errs
      invariant |errs| == attempts && forall i :: 0 <= i < |errs| && (again || i + 1 < attempts) ==> GoesOn(errs[i])
      invariant !again && !stopped ==> errs != [] && (GoesOn(errs[|errs| - 1]) ==> elapsed > maxRetryTime || deaths > maxDead)
      decreases again, maxDead + 1 - deaths + bound - |sleeps|
    {
      attempts := attempts + 1;
      afterLostCommit := afterLostCommit + lostCommits;
      var fails: bool := *;
      if !fails {
        completed := true;
        break;
      }
      var err: Error := *;
      var dead: bool := *;
      var committing: bool := *;
      var took :| took >= 0;
      s.OnFailure(err, dead, committing);
      if dead { deaths := deaths + 1; }
      if dead && committing { lostCommits := lostCommits + 1; }
      errs := s.errs;
      now := now + took;
      ghost var throttle := s.throttle;
      elapsed := now - s.start.value;
      again, slept, later, stopped := Proceed(s, now);
      now := later;
      if slept.Some? {
        PacedSleep(sleeps, first, throttle, elapsed, maxRetryTime, slept.value, now - s.start.value);
        sleeps := sleeps + [slept.value];
      }
      PacedFew(sleeps, first, s.throttle, now - s.start.value, maxRetryTime);
    }
    PacedFew(sleeps, first, s.throttle, now - s.start.value, maxRetryTime);
  }
}
