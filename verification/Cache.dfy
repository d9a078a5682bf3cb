/**
 * The cache of keys (cache.go): at most so many entries, each for so long, least recently used out
 * first. A list of distinct keys in order of use says what it holds; the map and list of the driver
 * refine it, and a history of uses says what may be missing from it.
 */
module Cache {
  import opened Bytes

  type Key = string

  /** Most recently used first. */
  datatype Item<V> = Item(key: Key, value: V, expires: int)

  type Items<V> = seq<Item<V>>

  predicate Distinct<V>(c: Items<V>)
  {
    forall i, j :: 0 <= i < j < |c| ==> c[i].key != c[j].key
  }

  function Keys<V>(c: Items<V>): set<Key>
  {
    set i | 0 <= i < |c| :: c[i].key
  }

  function WithoutKey<V>(c: Items<V>, k: Key): (r: Items<V>)
    ensures |r| <= |c|
  {
    if c == [] then [] else if c[0].key == k then c[1..] else [c[0]] + WithoutKey(c[1..], k)
  }

  function Find<V>(c: Items<V>, k: Key): Option<Item<V>>
  {
    if c == [] then None else if c[0].key == k then Some(c[0]) else Find(c[1..], k)
  }

  /** Without what has expired. */
  function Purged<V>(c: Items<V>, now: int): (r: Items<V>)
    ensures |r| <= |c|
  {
    if c == [] then [] else (if now >= c[0].expires then [] else [c[0]]) + Purged(c[1..], now)
  }

  function Trimmed<V>(c: Items<V>, maxSize: nat): Items<V>
  {
    if |c| > maxSize then c[..maxSize] else c
  }

  function Get<V>(c: Items<V>, k: Key, now: int): (Option<V>, Items<V>)
  {
    match Find(c, k)
    case None => (None, c)
    case Some(e) => if now >= e.expires then (None, WithoutKey(c, k)) else (Some(e.value), [e] + WithoutKey(c, k))
  }

  function Put<V>(c: Items<V>, k: Key, v: V, now: int, ttl: int, maxSize: nat): Items<V>
  {
    Placed(Purged(c, now), Item(k, v, now + ttl), maxSize)
  }

  /** An entry put in front, in place of the one its key had or pushing out the last. */
  function Placed<V>(p: Items<V>, e: Item<V>, maxSize: nat): Items<V>
  {
    if e.key in Keys(p) then [e] + WithoutKey(p, e.key) else Trimmed([e] + p, maxSize)
  }

  // ---------------------------------------------------------------------------------------------
  // The list's operations, entry by entry
  // ---------------------------------------------------------------------------------------------

  lemma {:induction false} FindIn<V>(c: Items<V>, k: Key)
    ensures Find(c, k).Some? <==> k in Keys(c)
    ensures Find(c, k).Some? ==> Find(c, k).value in c && Find(c, k).value.key == k
  {
    if c != [] {
      FindIn(c[1..], k);
      assert forall i :: 0 <= i < |c[1..]| ==> c[1..][i] == c[i + 1];
      assert Keys(c) == {c[0].key} + Keys(c[1..]);
    }
  }

  lemma {:induction false} WithoutAt<V>(c: Items<V>, k: Key, i: nat)
    requires i < |c| && c[i].key == k && forall j :: 0 <= j < i ==> c[j].key != k
    ensures WithoutKey(c, k) == c[..i] + c[i + 1..]
  {
    if i > 0 {
      WithoutAt(c[1..], k, i - 1);
      assert c[1..][..i - 1] == c[1..i] && c[1..][i..] == c[i + 1..];
      assert [c[0]] + (c[1..i] + c[i + 1..]) == c[..i] + c[i + 1..];
    }
  }

  lemma {:induction false} WithoutNone<V>(c: Items<V>, k: Key)
    requires k !in Keys(c)
    ensures WithoutKey(c, k) == c
  {
    if c != [] {
      assert c[0].key in Keys(c);
      assert forall i :: 0 <= i < |c[1..]| ==> c[1..][i] == c[i + 1];
      WithoutNone(c[1..], k);
    }
  }

  predicate Within<V(==)>(r: Items<V>, c: Items<V>)
  {
    forall i :: 0 <= i < |r| ==> r[i] in c
  }

  /** Taking an entry out leaves the others in their order. */
  lemma {:induction false} WithoutIs<V>(c: Items<V>, k: Key)
    requires Distinct(c)
    ensures Distinct(WithoutKey(c, k)) && Within(WithoutKey(c, k), c)
    ensures |WithoutKey(c, k)| == if k in Keys(c) then |c| - 1 else |c|
    ensures Keys(WithoutKey(c, k)) == Keys(c) - {k}
  {
    if k in Keys(c) {
      var i :| 0 <= i < |c| && c[i].key == k;
      WithoutAt(c, k, i);
      CutOut(c, i);
    } else {
      WithoutNone(c, k);
    }
  }

  lemma {:induction false} CutOut<V>(c: Items<V>, i: nat)
    requires Distinct(c) && i < |c|
    ensures var r := c[..i] + c[i + 1..]; Distinct(r) && Within(r, c) && Keys(r) == Keys(c) - {c[i].key}
  {
    var r := c[..i] + c[i + 1..];
    assert forall j :: 0 <= j < |r| ==> r[j] == if j < i then c[j] else c[j + 1];
    forall x | x in Keys(c) && x != c[i].key ensures x in Keys(r) {
      var j :| 0 <= j < |c| && c[j].key == x;
      assert r[if j < i then j else j - 1].key == x;
    }
  }

  lemma {:induction false} ConsDistinct<V>(e: Item<V>, r: Items<V>)
    requires Distinct(r) && e.key !in Keys(r)
    ensures Distinct([e] + r) && Keys([e] + r) == {e.key} + Keys(r)
  {
    forall i, j | 0 <= i < j < |[e] + r| ensures ([e] + r)[i].key != ([e] + r)[j].key {
      if i == 0 { assert r[j - 1].key in Keys(r); }
    }
    assert forall i :: 0 < i < |[e] + r| ==> ([e] + r)[i] == r[i - 1];
    forall k | k in Keys(r) ensures k in Keys([e] + r) {
      var i :| 0 <= i < |r| && r[i].key == k;
      assert ([e] + r)[i + 1].key == k;
    }
    assert ([e] + r)[0].key == e.key;
  }

  lemma {:induction false} KeysCons<V>(e: Item<V>, r: Items<V>)
    ensures Keys([e] + r) == {e.key} + Keys(r)
  {
    var d := [e] + r;
    assert d[0] == e && forall i :: 0 <= i < |r| ==> d[i + 1] == r[i];
    forall k | k in Keys(r) ensures k in Keys(d) {
      var i :| 0 <= i < |r| && r[i].key == k;
      assert d[i + 1].key == k;
    }
  }

  lemma {:induction false} PurgedIs<V>(c: Items<V>, now: int)
    requires Distinct(c)
    ensures Distinct(Purged(c, now)) && Within(Purged(c, now), c) && Keys(Purged(c, now)) <= Keys(c)
  {
    if c != [] {
      var t := c[1..];
      PurgedIs(t, now);
      assert c == [c[0]] + t;
      KeysCons(c[0], t);
      assert c[0].key !in Keys(t);
      var r := Purged(t, now);
      assert Within(r, c) by { forall i | 0 <= i < |r| ensures r[i] in c { assert r[i] in t; } }
      if now >= c[0].expires {
        assert [] + r == r;
      } else {
        ConsDistinct(c[0], r);
        assert Within([c[0]] + r, c);
      }
    }
  }

  lemma {:induction false} PurgedKeeps<V>(c: Items<V>, now: int)
    ensures forall i :: 0 <= i < |c| && now < c[i].expires ==> c[i].key in Keys(Purged(c, now))
  {
    if c != [] {
      var t := c[1..];
      PurgedKeeps(t, now);
      var r := Purged(t, now);
      KeysCons(c[0], r);
      assert [] + r == r;
      forall i | 0 <= i < |c| && now < c[i].expires ensures c[i].key in Keys(Purged(c, now)) {
        if i > 0 { assert c[i] == t[i - 1]; }
      }
    }
  }

  // ---------------------------------------------------------------------------------------------
  // The history
  // ---------------------------------------------------------------------------------------------

  /**
   * `uses` are the keys put or found, in time; `live` is what was last put under each key and neither
   * removed nor cleared since.
   */
  datatype History<V> = History(uses: seq<Key>, live: map<Key, Item<V>>)

  /** The keys used after the last use of `k`. */
  function UsedSince(uses: seq<Key>, k: Key): set<Key>
  {
    if uses == [] || uses[|uses| - 1] == k then {}
    else {uses[|uses| - 1]} + UsedSince(uses[..|uses| - 1], k)
  }

  lemma {:induction false} UseOne(uses: seq<Key>, x: Key)
    ensures UsedSince(uses + [x], x) == {}
    ensures forall k :: k != x ==> UsedSince(uses + [x], k) == {x} + UsedSince(uses, k)
  {
    assert (uses + [x])[..|uses|] == uses;
  }

  lemma {:induction false} NotSinceItself(uses: seq<Key>, k: Key)
    ensures k !in UsedSince(uses, k)
  {
    if uses != [] { NotSinceItself(uses[..|uses| - 1], k); }
  }

  datatype Op<V> = GetOp(k: Key) | PutOp(k: Key, v: V) | RemoveOp(k: Key) | ClearOp

  datatype Config = Config(ttl: int, maxSize: nat)

  function Run<V>(c: Items<V>, op: Op<V>, now: int, cfg: Config): Items<V>
  {
    match op
    case GetOp(k) => Get(c, k, now).1
    case PutOp(k, v) => Put(c, k, v, now, cfg.ttl, cfg.maxSize)
    case RemoveOp(k) => WithoutKey(c, k)
    case ClearOp => []
  }

  function Record<V>(h: History<V>, c: Items<V>, op: Op<V>, now: int, cfg: Config): History<V>
  {
    match op
    case GetOp(k) => if Get(c, k, now).0.Some? then h.(uses := h.uses + [k]) else h
    case PutOp(k, v) => History(h.uses + [k], h.live[k := Item(k, v, now + cfg.ttl)])
    case RemoveOp(k) => h.(live := h.live - {k})
    case ClearOp => h.(live := map[])
  }

  /** Entries stand in order of use: each was used since the ones behind it. */
  predicate InOrder<V>(c: Items<V>, uses: seq<Key>)
  {
    forall i, j :: 0 <= i < j < |c| ==> c[i].key in UsedSince(uses, c[j].key)
  }

  predicate Held<V(==)>(c: Items<V>, live: map<Key, Item<V>>)
  {
    forall i :: 0 <= i < |c| ==> c[i].key in live && live[c[i].key] == c[i]
  }

  /** What is live, has not expired and yet is missing. */
  predicate Missing<V>(c: Items<V>, live: map<Key, Item<V>>, now: int, k: Key)
  {
    k in live && now < live[k].expires && k !in Keys(c)
  }

  /**
   * At time `now` the cache holds only what was last put; its entries stand in order of use; and what
   * is missing was pushed out by at least `maxSize` other keys used since its own last use.
   */
  ghost predicate Explained<V>(c: Items<V>, h: History<V>, now: int, maxSize: nat)
  {
    && Distinct(c) && |c| <= maxSize && Held(c, h.live) && InOrder(c, h.uses)
    && (forall k :: Missing(c, h.live, now, k) ==> |UsedSince(h.uses, k)| >= maxSize)
  }

  // --- sublists --------------------------------------------------------------------------------

  lemma {:induction false} WithoutInOrder<V>(c: Items<V>, k: Key, uses: seq<Key>)
    requires Distinct(c) && InOrder(c, uses)
    ensures InOrder(WithoutKey(c, k), uses)
  {
    if c != [] && c[0].key != k {
      var t := c[1..];
      WithoutInOrder(t, k, uses);
      WithoutIs(t, k);
      FrontInOrder(c, WithoutKey(t, k), uses);
    }
  }

  lemma {:induction false} PurgedInOrder<V>(c: Items<V>, now: int, uses: seq<Key>)
    requires Distinct(c) && InOrder(c, uses)
    ensures InOrder(Purged(c, now), uses)
  {
    if c != [] {
      var t := c[1..];
      PurgedInOrder(t, now, uses);
      PurgedIs(t, now);
      if now >= c[0].expires { assert Purged(c, now) == Purged(t, now); } else { FrontInOrder(c, Purged(t, now), uses); }
    }
  }

  lemma {:induction false} FrontInOrder<V>(c: Items<V>, r: Items<V>, uses: seq<Key>)
    requires c != [] && InOrder(c, uses) && InOrder(r, uses) && Within(r, c[1..])
    ensures InOrder([c[0]] + r, uses)
  {
    var d := [c[0]] + r;
    forall i, j | 0 <= i < j < |d| ensures d[i].key in UsedSince(uses, d[j].key) {
      if i == 0 {
        assert r[j - 1] in c[1..];
        var m :| 0 <= m < |c[1..]| && c[1..][m] == r[j - 1];
        assert c[m + 1] == d[j];
      } else {
        assert d[i] == r[i - 1] && d[j] == r[j - 1];
      }
    }
  }

  /** Using a key puts it in front of what was behind it. */
  lemma {:induction false} UsedInOrder<V>(e: Item<V>, r: Items<V>, uses: seq<Key>)
    requires InOrder(r, uses) && e.key !in Keys(r)
    ensures InOrder([e] + r, uses + [e.key])
  {
    UseOne(uses, e.key);
    var d := [e] + r;
    forall i, j | 0 <= i < j < |d| ensures d[i].key in UsedSince(uses + [e.key], d[j].key) {
      assert r[j - 1].key in Keys(r);
    }
  }

  lemma {:induction false} HeldIn<V>(c: Items<V>, r: Items<V>, live: map<Key, Item<V>>)
    requires Held(c, live) && Within(r, c)
    ensures Held(r, live)
  {
    forall i | 0 <= i < |r| ensures r[i].key in live && live[r[i].key] == r[i] {
      assert r[i] in c;
    }
  }

  lemma {:induction false} GrowsSince(uses: seq<Key>, x: Key, k: Key, n: nat)
    requires |UsedSince(uses, k)| >= n && k != x
    ensures |UsedSince(uses + [x], k)| >= n
  {
    UseOne(uses, x);
    Bigger(UsedSince(uses, k), UsedSince(uses + [x], k));
  }

  lemma {:induction false} Bigger(a: set<Key>, b: set<Key>)
    requires a <= b
    ensures |a| <= |b|
  {
    assert b == a + (b - a);
  }

  // --- each operation --------------------------------------------------------------------------

  lemma {:induction false} FoundIsLive<V>(c: Items<V>, live: map<Key, Item<V>>)
    requires Held(c, live)
    ensures forall k :: k in Keys(c) ==> k in live && Find(c, k) == Some(live[k])
  {
    forall k | k in Keys(c) ensures k in live && Find(c, k) == Some(live[k]) {
      FindIn(c, k);
      var e := Find(c, k).value;
      var i :| 0 <= i < |c| && c[i] == e;
    }
  }

  lemma {:induction false} GetMisses<V>(c: Items<V>, h: History<V>, k: Key, t: int, now: int, cfg: Config)
    requires Explained(c, h, t, cfg.maxSize) && t <= now && Get(c, k, now).0.None?
    ensures Explained(Run(c, GetOp(k), now, cfg), Record(h, c, GetOp(k), now, cfg), now, cfg.maxSize)
  {
    var d := Get(c, k, now).1;
    FindIn(c, k);
    WithoutIs(c, k);
    WithoutInOrder(c, k, h.uses);
    HeldIn(c, WithoutKey(c, k), h.live);
    FoundIsLive(c, h.live);
    forall x | Missing(d, h.live, now, x) ensures |UsedSince(h.uses, x)| >= cfg.maxSize {
      assert Missing(c, h.live, t, x);
    }
  }

  lemma {:induction false} GetFinds<V>(c: Items<V>, h: History<V>, k: Key, t: int, now: int, cfg: Config)
    requires Explained(c, h, t, cfg.maxSize) && t <= now && Get(c, k, now).0.Some?
    ensures Explained(Run(c, GetOp(k), now, cfg), Record(h, c, GetOp(k), now, cfg), now, cfg.maxSize)
  {
    var e := Find(c, k).value;
    var r := WithoutKey(c, k);
    FindIn(c, k);
    WithoutIs(c, k);
    WithoutInOrder(c, k, h.uses);
    HeldIn(c, [e] + r, h.live);
    ConsDistinct(e, r);
    UsedInOrder(e, r, h.uses);
    forall x | Missing([e] + r, h.live, now, x) ensures |UsedSince(h.uses + [k], x)| >= cfg.maxSize {
      assert Missing(c, h.live, t, x);
      GrowsSince(h.uses, k, x, cfg.maxSize);
    }
  }

  lemma {:induction false} PutHeld<V>(p: Items<V>, e: Item<V>, live: map<Key, Item<V>>)
    requires Held(p, live) && e.key !in Keys(p)
    ensures Held([e] + p, live[e.key := e])
  {
    var d := [e] + p;
    forall i | 0 <= i < |d| ensures d[i].key in live[e.key := e] && live[e.key := e][d[i].key] == d[i] {
      if i > 0 { assert p[i - 1].key in Keys(p); }
    }
  }

  /** Purging leaves what is explained and makes nothing unexpired go missing. */
  lemma {:induction false} PurgeExplained<V>(c: Items<V>, h: History<V>, t: int, now: int, maxSize: nat)
    requires Explained(c, h, t, maxSize) && t <= now
    ensures Explained(Purged(c, now), h, now, maxSize)
  {
    var p := Purged(c, now);
    PurgedIs(c, now);
    PurgedInOrder(c, now, h.uses);
    HeldIn(c, p, h.live);
    PurgedKeeps(c, now);
    assert forall x :: x in Keys(c) && now < h.live[x].expires ==> x in Keys(p);
    forall x | Missing(p, h.live, now, x) ensures |UsedSince(h.uses, x)| >= maxSize {
      assert Missing(c, h.live, t, x);
    }
  }

  lemma {:induction false} PutReplaces<V>(p: Items<V>, h: History<V>, k: Key, v: V, now: int, cfg: Config)
    requires Explained(p, h, now, cfg.maxSize) && k in Keys(p)
    ensures var e := Item(k, v, now + cfg.ttl);
            Explained([e] + WithoutKey(p, k), History(h.uses + [k], h.live[k := e]), now, cfg.maxSize)
  {
    var e := Item(k, v, now + cfg.ttl);
    var r := WithoutKey(p, k);
    WithoutIs(p, k);
    WithoutInOrder(p, k, h.uses);
    HeldIn(p, r, h.live);
    ConsDistinct(e, r);
    UsedInOrder(e, r, h.uses);
    PutHeld(r, e, h.live);
    forall x | Missing([e] + r, h.live[k := e], now, x) ensures |UsedSince(h.uses + [k], x)| >= cfg.maxSize {
      assert Missing(p, h.live, now, x);
      GrowsSince(h.uses, k, x, cfg.maxSize);
    }
  }

  lemma {:induction false} PutAdds<V>(p: Items<V>, h: History<V>, k: Key, v: V, now: int, cfg: Config)
    requires Explained(p, h, now, cfg.maxSize) && k !in Keys(p)
    ensures var e := Item(k, v, now + cfg.ttl);
            Explained(Trimmed([e] + p, cfg.maxSize), History(h.uses + [k], h.live[k := e]), now, cfg.maxSize)
  {
    var e := Item(k, v, now + cfg.ttl);
    var d := [e] + p;
    var q := Trimmed(d, cfg.maxSize);
    ConsDistinct(e, p);
    UsedInOrder(e, p, h.uses);
    PutHeld(p, e, h.live);
    HeldIn(d, q, h.live[k := e]);
    forall x | Missing(q, h.live[k := e], now, x) ensures |UsedSince(h.uses + [k], x)| >= cfg.maxSize {
      if x in Keys(d) {
        PushedOut(d, h.uses + [k], cfg.maxSize, x);
      } else {
        assert Missing(p, h.live, now, x);
        GrowsSince(h.uses, k, x, cfg.maxSize);
      }
    }
  }

  /** The one entry that no longer fits is the last, and all the others were used since. */
  lemma {:induction false} PushedOut<V>(d: Items<V>, uses: seq<Key>, maxSize: nat, x: Key)
    requires Distinct(d) && InOrder(d, uses) && |d| <= maxSize + 1 && x in Keys(d) && x !in Keys(Trimmed(d, maxSize))
    ensures |UsedSince(uses, x)| >= maxSize
  {
    var i :| 0 <= i < |d| && d[i].key == x;
    var q := Trimmed(d, maxSize);
    assert forall m :: 0 <= m < |q| ==> q[m] == d[m] && q[m].key in Keys(q);
    assert |d| == maxSize + 1 && i == maxSize;
    var ahead := d[..maxSize];
    DistinctCount(ahead);
    forall y | y in Keys(ahead) ensures y in UsedSince(uses, x) {
      var j :| 0 <= j < |ahead| && ahead[j].key == y;
      assert d[j].key == y;
    }
    Bigger(Keys(ahead), UsedSince(uses, x));
  }

  lemma {:induction false} DistinctCount<V>(c: Items<V>)
    requires Distinct(c)
    ensures |Keys(c)| == |c|
  {
    if c == [] {
      assert Keys(c) == {};
    } else {
      DistinctCount(c[1..]);
      assert c == [c[0]] + c[1..];
      assert c[0].key !in Keys(c[1..]);
      ConsDistinct(c[0], c[1..]);
    }
  }

  lemma {:induction false} DropExplained<V>(c: Items<V>, h: History<V>, k: Key, t: int, now: int, maxSize: nat)
    requires Explained(c, h, t, maxSize) && t <= now
    ensures Explained(WithoutKey(c, k), h.(live := h.live - {k}), now, maxSize)
  {
    WithoutIs(c, k);
    WithoutInOrder(c, k, h.uses);
    var r := WithoutKey(c, k);
    HeldIn(c, r, h.live);
    forall i | 0 <= i < |r| ensures r[i].key in h.live - {k} && (h.live - {k})[r[i].key] == r[i] { assert r[i] in r; }
    forall x | Missing(r, h.live - {k}, now, x) ensures |UsedSince(h.uses, x)| >= maxSize { assert Missing(c, h.live, t, x); }
  }

  lemma {:induction false} PutExplained<V>(c: Items<V>, h: History<V>, k: Key, v: V, t: int, now: int, cfg: Config)
    requires Explained(c, h, t, cfg.maxSize) && t <= now
    ensures Explained(Run(c, PutOp(k, v), now, cfg), Record(h, c, PutOp(k, v), now, cfg), now, cfg.maxSize)
  {
    PurgeExplained(c, h, t, now, cfg.maxSize);
    var p := Purged(c, now);
    if k in Keys(p) { PutReplaces(p, h, k, v, now, cfg); } else { PutAdds(p, h, k, v, now, cfg); }
  }

  /** Every operation, at any later time, keeps the cache explained by its history. */
  lemma {:induction false} StepExplained<V>(c: Items<V>, h: History<V>, op: Op<V>, t: int, now: int, cfg: Config)
    requires Explained(c, h, t, cfg.maxSize) && t <= now
    ensures Explained(Run(c, op, now, cfg), Record(h, c, op, now, cfg), now, cfg.maxSize)
  {
    match op
    case GetOp(k) => if Get(c, k, now).0.None? { GetMisses(c, h, k, t, now, cfg); } else { GetFinds(c, h, k, t, now, cfg); }
    case PutOp(k, v) =>
      PutExplained(c, h, k, v, t, now, cfg);
    case RemoveOp(k) => DropExplained(c, h, k, t, now, cfg.maxSize);
    case ClearOp =>
  }

  // ---------------------------------------------------------------------------------------------
  // Every run
  // ---------------------------------------------------------------------------------------------

  datatype Timed<V> = Timed(op: Op<V>, now: int)

  /** The clock does not go back. */
  predicate Monotone<V>(run: seq<Timed<V>>, from: int)
  {
    (run != [] ==> from <= run[0].now) && forall i, j :: 0 <= i < j < |run| ==> run[i].now <= run[j].now
  }

  function RunAll<V>(c: Items<V>, h: History<V>, run: seq<Timed<V>>, cfg: Config): (Items<V>, History<V>)
    decreases |run|
  {
    if run == [] then (c, h) else
    RunAll(Run(c, run[0].op, run[0].now, cfg), Record(h, c, run[0].op, run[0].now, cfg), run[1..], cfg)
  }

  lemma {:induction false} RunAllExplained<V>(c: Items<V>, h: History<V>, run: seq<Timed<V>>, from: int, cfg: Config)
    requires Explained(c, h, from, cfg.maxSize) && Monotone(run, from)
    ensures var (d, g) := RunAll(c, h, run, cfg);
            Explained(d, g, if run == [] then from else run[|run| - 1].now, cfg.maxSize)
    decreases |run|
  {
    if run != [] {
      var now := run[0].now;
      StepExplained(c, h, run[0].op, from, now, cfg);
      assert forall i :: 0 <= i < |run[1..]| ==> run[1..][i] == run[i + 1];
      RunAllExplained(Run(c, run[0].op, now, cfg), Record(h, c, run[0].op, now, cfg), run[1..], now, cfg);
    }
  }

  /**
   * After any sequence of operations: the size is within bounds; what Get returns was last put under
   * that key, is not superseded, removed or expired; and when Get misses a key that is live and
   * unexpired, at least `maxSize` distinct other keys were used since that key was.
   */
  lemma {:induction false} CacheTells<V>(run: seq<Timed<V>>, cfg: Config, from: int, k: Key, now: int)
    requires Monotone(run, from) && (if run == [] then from else run[|run| - 1].now) <= now
    ensures var (c, h) := RunAll<V>([], History([], map[]), run, cfg);
            var r := Get(c, k, now).0;
            && |c| <= cfg.maxSize
            && (r.Some? ==> k in h.live && r.value == h.live[k].value && now < h.live[k].expires)
            && (r.None? && k in h.live && now < h.live[k].expires ==>
                  |UsedSince(h.uses, k)| >= cfg.maxSize && k !in UsedSince(h.uses, k))
  {
    var t := if run == [] then from else run[|run| - 1].now;
    RunAllExplained<V>([], History([], map[]), run, from, cfg);
    var (c, h) := RunAll<V>([], History([], map[]), run, cfg);
    FindIn(c, k);
    NotSinceItself(h.uses, k);
    FoundIsLive(c, h.live);
    assert Find(c, k).None? && k in h.live && now < h.live[k].expires ==> Missing(c, h.live, t, k);
  }

  // ---------------------------------------------------------------------------------------------
  // The map and the list
  // ---------------------------------------------------------------------------------------------

  /** What the map holds of a key; the list holds the keys, most recently used first. */
  datatype Stored<V> = Stored(value: V, expires: int)

  ghost predicate Agree<V>(entries: map<Key, Stored<V>>, order: seq<Key>)
  {
    && (forall i, j :: 0 <= i < j < |order| ==> order[i] != order[j])
    && (forall k :: k in order <==> k in entries)
  }

  function ItemsOf<V>(entries: map<Key, Stored<V>>, order: seq<Key>): (c: Items<V>)
    requires forall k :: k in order ==> k in entries
    ensures |c| == |order|
    ensures forall i :: 0 <= i < |order| ==> c[i] == Item(order[i], entries[order[i]].value, entries[order[i]].expires)
  {
    if order == [] then [] else
    [Item(order[0], entries[order[0]].value, entries[order[0]].expires)] + ItemsOf(entries, order[1..])
  }

  lemma {:induction false} DetachedIs(order: seq<Key>, k: Key)
    requires forall i, j :: 0 <= i < j < |order| ==> order[i] != order[j]
    ensures var r := Without(order, k);
            (forall i, j :: 0 <= i < j < |r| ==> r[i] != r[j]) && forall x :: x in r <==> x in order && x != k
  {
    if order != [] {
      var t := order[1..];
      DetachedIs(t, k);
      assert forall x :: x in order <==> x == order[0] || x in t;
      assert order[0] !in t;
      var r := Without(t, k);
      assert forall x :: x in [order[0]] + r <==> x == order[0] || x in r;
    }
  }

  /** Items only look at the map where the list points. */
  lemma {:induction false} ItemsSame<V>(entries: map<Key, Stored<V>>, entries': map<Key, Stored<V>>, order: seq<Key>)
    requires forall k :: k in order ==> k in entries && k in entries' && entries[k] == entries'[k]
    ensures ItemsOf(entries, order) == ItemsOf(entries', order)
  {
  }

  lemma {:induction false} DetachedItems<V>(entries: map<Key, Stored<V>>, order: seq<Key>, k: Key)
    requires forall x :: x in order ==> x in entries
    ensures forall x :: x in Without(order, k) ==> x in order
    ensures ItemsOf(entries, Without(order, k)) == WithoutKey(ItemsOf(entries, order), k)
  {
    if order != [] && order[0] != k {
      DetachedItems(entries, order[1..], k);
      var r := Without(order[1..], k);
      assert ([order[0]] + r)[1..] == r;
    } else if order != [] {
      assert ItemsOf(entries, order)[1..] == ItemsOf(entries, order[1..]);
    }
  }

  lemma {:induction false} KeysAre<V>(entries: map<Key, Stored<V>>, order: seq<Key>)
    requires forall x :: x in order ==> x in entries
    ensures Keys(ItemsOf(entries, order)) == set k | k in order
  {
    var c := ItemsOf(entries, order);
    forall k | k in order ensures k in Keys(c) {
      var i :| 0 <= i < |order| && order[i] == k;
      assert c[i].key == k;
    }
  }

  lemma {:induction false} FindIs<V>(entries: map<Key, Stored<V>>, order: seq<Key>, k: Key)
    requires forall x :: x in order ==> x in entries
    ensures Find(ItemsOf(entries, order), k) == if k in order then Some(Item(k, entries[k].value, entries[k].expires)) else None
  {
    if order != [] { FindIs(entries, order[1..], k); }
  }

  /** What a purge comes to that has got as far as `i`. */
  function PurgedFrom<V>(c: Items<V>, i: nat, now: int): Items<V>
    requires i <= |c|
  {
    c[..i] + Purged(c[i..], now)
  }

  lemma {:induction false} PurgedFromEnds<V>(c: Items<V>, now: int)
    ensures PurgedFrom(c, 0, now) == Purged(c, now) && PurgedFrom(c, |c|, now) == c
  {
    assert c[..0] == [] && c[0..] == c && c[..|c|] == c && c[|c|..] == [];
  }

  lemma {:induction false} PurgeDrops<V>(c: Items<V>, i: nat, now: int)
    requires i < |c| && now >= c[i].expires
    ensures PurgedFrom(c[..i] + c[i + 1..], i, now) == PurgedFrom(c, i, now)
  {
    var d := c[..i] + c[i + 1..];
    assert d[..i] == c[..i] && d[i..] == c[i + 1..] && c[i..][1..] == c[i + 1..];
    assert [] + Purged(c[i + 1..], now) == Purged(c[i + 1..], now);
  }

  lemma {:induction false} PurgeKeeps<V>(c: Items<V>, i: nat, now: int)
    requires i < |c| && now < c[i].expires
    ensures PurgedFrom(c, i + 1, now) == PurgedFrom(c, i, now)
  {
    assert c[..i + 1] == c[..i] + [c[i]] && c[i..][1..] == c[i + 1..];
    assert c[..i] + ([c[i]] + Purged(c[i + 1..], now)) == (c[..i] + [c[i]]) + Purged(c[i + 1..], now);
  }

  class Cache<V> {
    const ttl: int
    const maxSize: nat
    var entries: map<Key, Stored<V>>
    var order: seq<Key>

    ghost predicate Valid()
      reads this
    {
      Agree(entries, order)
    }

    ghost function Abs(): Items<V>
      requires Valid()
      reads this
    {
      ItemsOf(entries, order)
    }

    constructor (ttl: int, maxSize: nat)
      ensures Valid() && Abs() == [] && this.ttl == ttl && this.maxSize == maxSize
    {
      this.ttl, this.maxSize, entries, order := ttl, maxSize, map[], [];
    }

    method RemoveElement(k: Key)
      requires Valid()
      modifies this`entries, this`order
      ensures Valid() && Abs() == WithoutKey(old(Abs()), k) && order == Without(old(order), k)
    {
      DetachedIs(order, k);
      DetachedItems(entries, order, k);
      ItemsSame(entries, entries - {k}, Without(order, k));
      entries := entries - {k};
      order := Without(order, k);
    }

    method MoveToFront(k: Key)
      requires Valid() && k in entries
      modifies this`order
      ensures Valid() && order == [k] + Without(old(order), k)
      ensures Abs() == [Item(k, entries[k].value, entries[k].expires)] + WithoutKey(old(Abs()), k)
    {
      DetachedIs(order, k);
      DetachedItems(entries, order, k);
      var r := Without(order, k);
      assert ([k] + r)[1..] == r;
      order := [k] + r;
    }

    method DoGet(k: Key, now: int) returns (v: Option<V>)
      requires Valid()
      modifies this`entries, this`order
      ensures Valid() && (v, Abs()) == Get(old(Abs()), k, now)
    {
      FindIs(entries, order, k);
      if k !in entries { return None; }
      if now >= entries[k].expires {
        RemoveElement(k);
        return None;
      }
      MoveToFront(k);
      v := Some(entries[k].value);
    }

    /** Walks the list from the front, remembering each element's successor before it may be removed. */
    method PurgeExpired(now: int)
      requires Valid()
      modifies this`entries, this`order
      ensures Valid() && Abs() == Purged(old(Abs()), now)
    {
      var i := 0;
      PurgedFromEnds(Abs(), now);
      while i < |order|
        invariant Valid() && 0 <= i <= |order|
        invariant PurgedFrom(Abs(), i, now) == Purged(old(Abs()), now)
        decreases |order| - i
      {
        i := PurgeAt(i, now);
      }
      PurgedFromEnds(Abs(), now);
    }

    /** Looks at one element; `next` is where its successor is then. */
    method PurgeAt(i: nat, now: int) returns (next: nat)
      requires Valid() && i < |order|
      modifies this`entries, this`order
      ensures Valid() && next <= |order| && |order| - next < old(|order|) - i
      ensures PurgedFrom(Abs(), next, now) == PurgedFrom(old(Abs()), i, now)
    {
      ghost var c := Abs();
      var k := order[i];
      assert c[i] == Item(k, entries[k].value, entries[k].expires);
      if now >= entries[k].expires {
        WithoutAt(c, k, i);
        RemoveElement(k);
        PurgeDrops(c, i, now);
        next := i;
      } else {
        PurgeKeeps(c, i, now);
        next := i + 1;
      }
    }

    method Evict()
      requires Valid()
      modifies this`entries, this`order
      ensures Valid() && Abs() == Trimmed(old(Abs()), maxSize)
    {
      ghost var c := Abs();
      assert c[..|c|] == c;
      while |order| > maxSize
        invariant Valid() && |order| <= |c| && Abs() == c[..|order|] && (|order| < |c| ==> |order| >= maxSize)
        decreases |order|
      {
        var last := |order| - 1;
        WithoutAt(Abs(), order[last], last);
        RemoveElement(order[last]);
        assert Abs() == c[..last];
      }
    }

    method DoPut(k: Key, v: V, now: int)
      requires Valid()
      modifies this`entries, this`order
      ensures Valid() && Abs() == Put(old(Abs()), k, v, now, ttl, maxSize)
    {
      PurgeExpired(now);
      Store(k, v, now + ttl);
    }

    method Store(k: Key, v: V, expires: int)
      requires Valid()
      modifies this`entries, this`order
      ensures Valid() && Abs() == Placed(old(Abs()), Item(k, v, expires), maxSize)
    {
      KeysAre(entries, order);
      if k in entries {
        Renew(k, v, expires);
        return;
      }
      PushFront(k, v, expires);
      Evict();
    }

    method Renew(k: Key, v: V, expires: int)
      requires Valid() && k in entries
      modifies this`entries, this`order
      ensures Valid() && Abs() == [Item(k, v, expires)] + WithoutKey(old(Abs()), k)
    {
      DetachedIs(order, k);
      DetachedItems(entries, order, k);
      ItemsSame(entries, entries[k := Stored(v, expires)], Without(order, k));
      entries := entries[k := Stored(v, expires)];
      DetachedItems(entries, order, k);
      MoveToFront(k);
    }

    method PushFront(k: Key, v: V, expires: int)
      requires Valid() && k !in entries
      modifies this`entries, this`order
      ensures Valid() && Abs() == [Item(k, v, expires)] + old(Abs())
    {
      ItemsSame(entries, entries[k := Stored(v, expires)], order);
      assert ([k] + order)[1..] == order;
      order := [k] + order;
      entries := entries[k := Stored(v, expires)];
    }

    method DoRemove(k: Key)
      requires Valid()
      modifies this`entries, this`order
      ensures Valid() && Abs() == WithoutKey(old(Abs()), k)
    {
      KeysAre(entries, order);
      if k in entries { RemoveElement(k); } else { WithoutNone(Abs(), k); }
    }

    method DoClear()
      modifies this`entries, this`order
      ensures Valid() && Abs() == []
    {
      entries, order := map[], [];
    }
  }
}
