/**
 * Key lookups that overlap (encryption.go). Each cache has a lock of its own and the repository is
 * asked outside of both, so every call is several steps, and steps of other calls may come between
 * any two: a lookup notes what it found some time after it found it.
 */
module KeyOverlap {
  import opened Bytes
  import opened Cache
  import opened KeyResolution

  /** Where a call is. The last of a resolution is its answer. */
  datatype Pc =
    | IndexHit(alias: Alias, id: Id)
    | Forgetting(alias: Alias)
    | Looking(ref: Reference)
    | NotingAlias(alias: Alias, id: Id, key: DataKey)
    | NotingKey(id: Id, key: DataKey)
    | Done(answer: Resolved)
    | Removing(id: Id)
    | Clearing

  datatype Limits = Limits(aliasTtl: int, aliasSize: nat, keyTtl: int, keySize: nat)

  datatype State = State(repo: Repository, index: Items<Id>, keys: Items<DataKey>, threads: map<nat, Pc>, limits: Limits)

  function Init(repo: Repository, limits: Limits): State
  {
    State(repo, [], [], map[], limits)
  }

  /**
   * One critical section or one call of the repository. `found` is what the repository answers a
   * lookup. SetAlias, Delete and Create are the moment the repository changes; what they do to the
   * caches afterwards are steps of their own.
   */
  datatype Step =
    | Start(t: nat, ref: Reference, now: int)
    | KeyOfHit(t: nat, now: int)
    | Forget(t: nat)
    | LookUp(t: nat, found: Option<Id>)
    | GiveUp(t: nat)
    | Note(t: nat, now: int)
    | Create(t: nat, alias: Alias, id: Id, key: DataKey)
    | SetAlias(t: nat, id: Id, alias: Alias)
    | Delete(t: nat, id: Id)
    | Remove(t: nat)
    | Clear(t: nat)

  predicate Noting(pc: Pc)
  {
    pc.NotingAlias? || pc.NotingKey?
  }

  ghost predicate Enabled(s: State, a: Step)
  {
    match a
    case Start(t, _, _) => t !in s.threads
    case KeyOfHit(t, _) => t in s.threads && s.threads[t].IndexHit?
    case Forget(t) => t in s.threads && s.threads[t].Forgetting?
    case LookUp(t, found) =>
      && t in s.threads && s.threads[t].Looking?
      && (found.Some? ==> found.value in s.repo)
      && IsFresh(s.repo, s.threads[t].ref, if found.Some? then Found(found.value, s.repo[found.value].key) else NotFound)
    case GiveUp(t) => t in s.threads && s.threads[t].Looking?
    case Note(t, _) => t in s.threads && Noting(s.threads[t])
    case Create(t, alias, id, _) => t !in s.threads && id != "" && id !in s.repo && !AliasTaken(s.repo, alias, id)
    case SetAlias(t, id, alias) => t !in s.threads && id in s.repo && !AliasTaken(s.repo, alias, id)
    case Delete(t, id) => t !in s.threads && id in s.repo
    case Remove(t) => t in s.threads && s.threads[t].Removing?
    case Clear(t) => t in s.threads && s.threads[t].Clearing?
  }

  function At(s: State, t: nat, pc: Pc): State
  {
    s.(threads := s.threads[t := pc])
  }

  ghost function Apply(s: State, a: Step): State
    requires Enabled(s, a)
  {
    match a
    case Start(t, ref, now) =>
      (match ref
       case ById(id) =>
         var (key, keys) := Get(s.keys, id, now);
         At(s, t, if key.Some? then Done(Found(id, key.value)) else Looking(ref)).(keys := keys)
       case ByAlias(alias) =>
         var (id, index) := Get(s.index, alias, now);
         At(s, t, if id.Some? then IndexHit(alias, id.value) else Looking(ref)).(index := index))
    case KeyOfHit(t, now) =>
      var id := s.threads[t].id;
      var (key, keys) := Get(s.keys, id, now);
      At(s, t, if key.Some? then Done(Found(id, key.value)) else Forgetting(s.threads[t].alias)).(keys := keys)
    case Forget(t) =>
      At(s, t, Looking(ByAlias(s.threads[t].alias))).(index := WithoutKey(s.index, s.threads[t].alias))
    case LookUp(t, found) =>
      At(s, t, if found.None? then Done(NotFound)
               else match s.threads[t].ref
                    case ById(_) => NotingKey(found.value, s.repo[found.value].key)
                    case ByAlias(alias) => NotingAlias(alias, found.value, s.repo[found.value].key))
    case GiveUp(t) => At(s, t, Done(Failed))
    case Note(t, now) =>
      (match s.threads[t]
       case NotingAlias(alias, id, key) =>
         At(s, t, NotingKey(id, key)).(index := Put(s.index, alias, id, now, s.limits.aliasTtl, s.limits.aliasSize))
       case NotingKey(id, key) =>
         At(s, t, Done(Found(id, key))).(keys := Put(s.keys, id, key, now, s.limits.keyTtl, s.limits.keySize)))
    case Create(t, alias, id, key) =>
      At(s, t, if alias != "" then NotingAlias(alias, id, key) else NotingKey(id, key)).(repo := s.repo[id := KeyRecord(alias, key)])
    case SetAlias(t, id, alias) => At(s, t, Clearing).(repo := s.repo[id := s.repo[id].(alias := alias)])
    case Delete(t, id) => At(s, t, Removing(id)).(repo := s.repo - {id})
    case Remove(t) => At(s, t, Clearing).(keys := WithoutKey(s.keys, s.threads[t].id))
    case Clear(t) => s.(threads := s.threads - {t}, index := [])
  }

  // ---------------------------------------------------------------------------------------------
  // Caches that are right, or about to be put right
  // ---------------------------------------------------------------------------------------------

  predicate Clearer(pc: Pc)
  {
    pc.Clearing? || pc.Removing?
  }

  /** Some call has yet to clear the index. */
  predicate Clears(threads: map<nat, Pc>)
  {
    exists t :: t in threads && Clearer(threads[t])
  }

  /** Some call has yet to remove that key. */
  predicate Removes(threads: map<nat, Pc>, id: Id)
  {
    exists t :: t in threads && threads[t] == Removing(id)
  }

  predicate KeyRight(e: Item<DataKey>, repo: Repository)
  {
    e.key in repo && repo[e.key].key == e.value
  }

  ghost predicate KeysSound(keys: Items<DataKey>, repo: Repository, threads: map<nat, Pc>)
  {
    forall i :: 0 <= i < |keys| ==> KeyRight(keys[i], repo) || Removes(threads, keys[i].key)
  }

  ghost predicate IndexSound(index: Items<Id>, repo: Repository, threads: map<nat, Pc>)
  {
    Clears(threads) || AliasesRight(index, repo)
  }

  predicate Fits<V>(c: Items<V>, maxSize: nat)
  {
    Distinct(c) && |c| <= maxSize
  }

  /** Every cached entry is as in the repository, unless a call still under way will take it out. */
  ghost predicate Sound(s: State)
  {
    && RepositoryOk(s.repo) && Fits(s.index, s.limits.aliasSize) && Fits(s.keys, s.limits.keySize)
    && IndexSound(s.index, s.repo, s.threads) && KeysSound(s.keys, s.repo, s.threads)
  }

  lemma {:induction false} Bystander(threads: map<nat, Pc>, t: nat, pc: Pc)
    requires !Clearer(pc) && (t in threads ==> !Clearer(threads[t]))
    ensures Clears(threads[t := pc]) == Clears(threads)
    ensures forall id :: Removes(threads[t := pc], id) == Removes(threads, id)
  {
    var after := threads[t := pc];
    if u :| u in threads && Clearer(threads[u]) { assert u in after && Clearer(after[u]); }
    forall id ensures Removes(after, id) == Removes(threads, id) {
      if u :| u in threads && threads[u] == Removing(id) { assert u in after && after[u] == Removing(id); }
    }
  }

  lemma {:induction false} GetFits<V>(c: Items<V>, k: Key, now: int, maxSize: nat)
    requires Fits(c, maxSize)
    ensures Fits(Get(c, k, now).1, maxSize) && Within(Get(c, k, now).1, c)
  {
    FindIn(c, k);
    WithoutIs(c, k);
    GetWithin(c, k, now);
    if Get(c, k, now).0.Some? { ConsDistinct(Find(c, k).value, WithoutKey(c, k)); }
  }

  lemma {:induction false} PutFits<V>(c: Items<V>, k: Key, v: V, now: int, ttl: int, maxSize: nat)
    requires Fits(c, maxSize)
    ensures Fits(Put(c, k, v, now, ttl, maxSize), maxSize)
  {
    var p := Purged(c, now);
    var e := Item(k, v, now + ttl);
    PurgedIs(c, now);
    WithoutIs(p, k);
    if k in Keys(p) { ConsDistinct(e, WithoutKey(p, k)); } else { ConsDistinct(e, p); }
  }

  /** What was put is found at once. */
  lemma {:induction false} PutThenGet<V>(c: Items<V>, k: Key, v: V, now: int, ttl: int, maxSize: nat)
    requires maxSize >= 1
    ensures Put(c, k, v, now, ttl, maxSize) != [] && Put(c, k, v, now, ttl, maxSize)[0] == Item(k, v, now + ttl)
    ensures ttl > 0 ==> Get(Put(c, k, v, now, ttl, maxSize), k, now).0 == Some(v)
  {
  }

  lemma {:induction false} KeysWithinSound(keys: Items<DataKey>, r: Items<DataKey>, repo: Repository, threads: map<nat, Pc>)
    requires KeysSound(keys, repo, threads) && Within(r, keys)
    ensures KeysSound(r, repo, threads)
  {
    forall i | 0 <= i < |r| ensures KeyRight(r[i], repo) || Removes(threads, r[i].key) {
      assert r[i] in keys;
      var j :| 0 <= j < |keys| && keys[j] == r[i];
    }
  }

  // ---------------------------------------------------------------------------------------------
  // Noting
  // ---------------------------------------------------------------------------------------------

  /**
   * At the moment of noting, the repository still has what was found; or a call that changed it has
   * yet to take out what is noted.
   */
  ghost predicate NoteSafe(s: State, pc: Pc)
  {
    match pc
    case NotingAlias(alias, id, _) => (alias != "" && id in s.repo && s.repo[id].alias == alias) || Clears(s.threads)
    case NotingKey(id, key) => (id in s.repo && s.repo[id].key == key) || Removes(s.threads, id)
    case _ => true
  }

  predicate Room(limits: Limits, pc: Pc)
  {
    (pc.NotingAlias? ==> limits.aliasSize >= 1) && (pc.NotingKey? ==> limits.keySize >= 1)
  }

  lemma {:induction false} NoteAliasExact(c: Items<Id>, alias: Alias, id: Id, repo: Repository, now: int, ttl: int, maxSize: nat)
    requires AliasesRight(c, repo) && |c| <= maxSize
    ensures AliasesRight(Put(c, alias, id, now, ttl, maxSize), repo) <==> (maxSize == 0 || (alias != "" && id in repo && repo[id].alias == alias))
  {
    if maxSize >= 1 {
      PutThenGet(c, alias, id, now, ttl, maxSize);
      if alias != "" && id in repo && repo[id].alias == alias { AliasesPut(c, alias, id, repo, now, ttl, maxSize); }
    } else {
      assert c == [];
    }
  }

  lemma {:induction false} NoteKeyExact(c: Items<DataKey>, id: Id, key: DataKey, repo: Repository, threads: map<nat, Pc>, now: int, ttl: int, maxSize: nat)
    requires KeysSound(c, repo, threads) && |c| <= maxSize
    ensures KeysSound(Put(c, id, key, now, ttl, maxSize), repo, threads)
            <==> (maxSize == 0 || (id in repo && repo[id].key == key) || Removes(threads, id))
  {
    var r := Put(c, id, key, now, ttl, maxSize);
    var e := Item(id, key, now + ttl);
    PutWithin(c, id, key, now, ttl, maxSize);
    if KeyRight(e, repo) || Removes(threads, id) {
      forall i | 0 <= i < |r| ensures KeyRight(r[i], repo) || Removes(threads, r[i].key) {
        if r[i] != e { var j :| 0 <= j < |c| && c[j] == r[i]; }
      }
    } else if maxSize >= 1 {
      PutThenGet(c, id, key, now, ttl, maxSize);
    } else {
      assert c == [];
    }
  }

  lemma {:induction false} SameIndex(s: State, r: State, t: nat, pc: Pc)
    requires Sound(s) && r == At(s, t, pc).(index := r.index, keys := r.keys) && !Clearer(pc) && (t in s.threads ==> !Clearer(s.threads[t]))
    requires Fits(r.index, s.limits.aliasSize) && Within(r.index, s.index) && Fits(r.keys, s.limits.keySize) && Within(r.keys, s.keys)
    ensures Sound(r)
  {
    Bystander(s.threads, t, pc);
    if !Clears(s.threads) { AliasesWithin(s.index, r.index, s.repo); }
    KeysWithinSound(s.keys, r.keys, s.repo, s.threads);
    KeysSoundSame(r.keys, s.repo, s.threads, r.threads);
  }

  lemma {:induction false} KeysSoundSame(keys: Items<DataKey>, repo: Repository, threads: map<nat, Pc>, threads': map<nat, Pc>)
    requires KeysSound(keys, repo, threads) && forall id :: Removes(threads, id) ==> Removes(threads', id)
    ensures KeysSound(keys, repo, threads')
  {
  }

  lemma {:induction false} WithinItself<V>(c: Items<V>)
    ensures Within(c, c)
  {
  }

  /**
   * The exact condition: noting what was found leaves the caches sound just if the repository still
   * has it, or what is noted is yet to be taken out, or there is no room to note anything.
   */
  lemma {:induction false} NoteExact(s: State, t: nat, now: int)
    requires Sound(s) && Enabled(s, Note(t, now))
    ensures Sound(Apply(s, Note(t, now))) <==> (NoteSafe(s, s.threads[t]) || !Room(s.limits, s.threads[t]))
  {
    var r := Apply(s, Note(t, now));
    Bystander(s.threads, t, r.threads[t]);
    match s.threads[t]
    case NotingAlias(alias, id, key) =>
      PutFits(s.index, alias, id, now, s.limits.aliasTtl, s.limits.aliasSize);
      KeysSoundSame(s.keys, s.repo, s.threads, r.threads);
      if !Clears(s.threads) { NoteAliasExact(s.index, alias, id, s.repo, now, s.limits.aliasTtl, s.limits.aliasSize); }
    case NotingKey(id, key) =>
      PutFits(s.keys, id, key, now, s.limits.keyTtl, s.limits.keySize);
      NoteKeyExact(s.keys, id, key, s.repo, s.threads, now, s.limits.keyTtl, s.limits.keySize);
      if KeysSound(r.keys, s.repo, s.threads) { KeysSoundSame(r.keys, s.repo, s.threads, r.threads); }
      if KeysSound(r.keys, s.repo, r.threads) { KeysSoundSame(r.keys, s.repo, r.threads, s.threads); }
  }

  // ---------------------------------------------------------------------------------------------
  // Every other step
  // ---------------------------------------------------------------------------------------------

  lemma {:induction false} ReadSound(s: State, a: Step)
    requires Sound(s) && Enabled(s, a) && (a.Start? || a.KeyOfHit? || a.Forget? || a.LookUp? || a.GiveUp?)
    ensures Sound(Apply(s, a))
  {
    var r := Apply(s, a);
    WithinItself(s.index);
    WithinItself(s.keys);
    match a {
      case Start(t, ref, now) =>
        if ref.ById? { GetFits(s.keys, ref.id, now, s.limits.keySize); } else { GetFits(s.index, ref.alias, now, s.limits.aliasSize); }
      case KeyOfHit(t, now) => GetFits(s.keys, s.threads[t].id, now, s.limits.keySize);
      case Forget(t) =>
        WithoutIs(s.index, s.threads[t].alias);
      case LookUp(t, found) =>
      case GiveUp(t) =>
    }
    SameIndex(s, r, a.t, r.threads[a.t]);
  }

  lemma {:induction false} CreateSound(s: State, a: Step)
    requires Sound(s) && Enabled(s, a) && a.Create?
    ensures Sound(Apply(s, a))
  {
    var r := Apply(s, a);
    Bystander(s.threads, a.t, r.threads[a.t]);
    assert RepositoryOk(r.repo) by { CreatedOk(s.repo, a.alias, a.id, a.key); }
    forall i | 0 <= i < |r.keys| ensures KeyRight(r.keys[i], r.repo) || Removes(r.threads, r.keys[i].key) {
      assert KeyRight(s.keys[i], s.repo) || Removes(s.threads, s.keys[i].key);
    }
  }

  lemma {:induction false} SetAliasSound(s: State, a: Step)
    requires Sound(s) && Enabled(s, a) && a.SetAlias?
    ensures Sound(Apply(s, a))
  {
    var r := Apply(s, a);
    assert a.t in r.threads && Clearer(r.threads[a.t]);
    forall i | 0 <= i < |r.keys| ensures KeyRight(r.keys[i], r.repo) || Removes(r.threads, r.keys[i].key) {
      if u :| u in s.threads && s.threads[u] == Removing(s.keys[i].key) { assert u in r.threads && r.threads[u] == Removing(r.keys[i].key); }
    }
  }

  lemma {:induction false} DeleteSound(s: State, a: Step)
    requires Sound(s) && Enabled(s, a) && a.Delete?
    ensures Sound(Apply(s, a))
  {
    var r := Apply(s, a);
    assert a.t in r.threads && Clearer(r.threads[a.t]) && r.threads[a.t] == Removing(a.id);
    forall i | 0 <= i < |r.keys| ensures KeyRight(r.keys[i], r.repo) || Removes(r.threads, r.keys[i].key) {
      if u :| u in s.threads && s.threads[u] == Removing(s.keys[i].key) { assert u in r.threads && r.threads[u] == Removing(r.keys[i].key); }
    }
  }

  lemma {:induction false} RemoveSound(s: State, a: Step)
    requires Sound(s) && Enabled(s, a) && a.Remove?
    ensures Sound(Apply(s, a))
  {
    var r := Apply(s, a);
    var id := s.threads[a.t].id;
    assert a.t in r.threads && Clearer(r.threads[a.t]);
    WithoutIs(s.keys, id);
    KeysWithinSound(s.keys, r.keys, s.repo, s.threads);
    forall i | 0 <= i < |r.keys| ensures KeyRight(r.keys[i], r.repo) || Removes(r.threads, r.keys[i].key) {
      assert r.keys[i].key in Keys(r.keys);
      if u :| u in s.threads && s.threads[u] == Removing(r.keys[i].key) { assert u in r.threads && r.threads[u] == Removing(r.keys[i].key); }
    }
  }

  lemma {:induction false} ClearSound(s: State, a: Step)
    requires Sound(s) && Enabled(s, a) && a.Clear?
    ensures Sound(Apply(s, a))
  {
    var r := Apply(s, a);
    forall i | 0 <= i < |r.keys| ensures KeyRight(r.keys[i], r.repo) || Removes(r.threads, r.keys[i].key) {
      if u :| u in s.threads && s.threads[u] == Removing(s.keys[i].key) { assert u in r.threads && r.threads[u] == Removing(r.keys[i].key); }
    }
  }

  /** Every step but an unsafe note keeps the caches sound. */
  lemma {:induction false} StepSound(s: State, a: Step)
    requires Sound(s) && Enabled(s, a) && (a.Note? ==> NoteSafe(s, s.threads[a.t]) || !Room(s.limits, s.threads[a.t]))
    ensures Sound(Apply(s, a))
  {
    match a
    case Note(t, now) => NoteExact(s, t, now);
    case Create(_, _, _, _) => CreateSound(s, a);
    case SetAlias(_, _, _) => SetAliasSound(s, a);
    case Delete(_, _) => DeleteSound(s, a);
    case Remove(_) => RemoveSound(s, a);
    case Clear(_) => ClearSound(s, a);
    case _ => ReadSound(s, a);
  }

  // ---------------------------------------------------------------------------------------------
  // Whole runs
  // ---------------------------------------------------------------------------------------------

  ghost predicate Runs(s: State, run: seq<Step>)
    decreases |run|
  {
    run == [] || (Enabled(s, run[0]) && Runs(Apply(s, run[0]), run[1..]))
  }

  ghost function After(s: State, run: seq<Step>): State
    requires Runs(s, run)
    decreases |run|
  {
    if run == [] then s else After(Apply(s, run[0]), run[1..])
  }

  /** What a lookup found is what the repository has. */
  ghost predicate StillThere(pc: Pc, repo: Repository)
  {
    match pc
    case NotingAlias(alias, id, key) => alias != "" && id in repo && repo[id] == KeyRecord(alias, key)
    case NotingKey(id, key) => id in repo && repo[id].key == key
    case _ => true
  }

  ghost predicate NotesRight(s: State)
  {
    forall t :: t in s.threads ==> StillThere(s.threads[t], s.repo)
  }

  /**
   * The change does not come between a lookup of that key and the noting of what it found: an alias
   * is moved while nobody is about to note it, a key deleted while nobody is about to note the key.
   */
  ghost predicate Apart(s: State, a: Step)
  {
    match a
    case SetAlias(_, id, _) => forall t :: t in s.threads && s.threads[t].NotingAlias? ==> s.threads[t].id != id
    case Delete(_, id) => forall t :: t in s.threads && Noting(s.threads[t]) ==> s.threads[t].id != id
    case _ => true
  }

  lemma {:induction false} StepNotesRight(s: State, a: Step)
    requires NotesRight(s) && Enabled(s, a) && Apart(s, a)
    ensures NotesRight(Apply(s, a))
  {
    var r := Apply(s, a);
    forall t | t in r.threads ensures StillThere(r.threads[t], r.repo) {
      if t != a.t { assert r.threads[t] == s.threads[t]; }
    }
  }

  ghost predicate ApartRun(s: State, run: seq<Step>)
    requires Runs(s, run)
    decreases |run|
  {
    run == [] || (Apart(s, run[0]) && ApartRun(Apply(s, run[0]), run[1..]))
  }

  lemma {:induction false} ApartRunSound(s: State, run: seq<Step>)
    requires Sound(s) && NotesRight(s) && Runs(s, run) && ApartRun(s, run)
    ensures Sound(After(s, run)) && NotesRight(After(s, run))
    decreases |run|
  {
    if run != [] {
      if run[0].Note? { assert StillThere(s.threads[run[0].t], s.repo); }
      StepSound(s, run[0]);
      StepNotesRight(s, run[0]);
      ApartRunSound(Apply(s, run[0]), run[1..]);
    }
  }

  /** A resolution nothing interrupts, with no change of the repository half done: what it reads in the caches is fresh. */
  lemma {:induction false} QuietAnswer(s: State, t: nat, ref: Reference, now: int)
    requires Sound(s) && !Clears(s.threads) && t !in s.threads
    ensures var r := Apply(s, Start(t, ref, now));
            && (r.threads[t].Done? ==> IsFresh(s.repo, ref, r.threads[t].answer))
            && (r.threads[t].IndexHit? ==>
                  var q := Apply(r, KeyOfHit(t, now)); q.threads[t].Done? ==> IsFresh(s.repo, ref, q.threads[t].answer))
  {
    NoRemoval(s);
    match ref
    case ById(id) => GetWithin(s.keys, id, now);
    case ByAlias(alias) =>
      GetWithin(s.index, alias, now);
      var r := Apply(s, Start(t, ref, now));
      if r.threads[t].IndexHit? { GetWithin(s.keys, r.threads[t].id, now); }
  }

  lemma {:induction false} NoRemoval(s: State)
    requires KeysSound(s.keys, s.repo, s.threads) && !Clears(s.threads)
    ensures forall i :: 0 <= i < |s.keys| ==> KeyRight(s.keys[i], s.repo)
  {
    forall i | 0 <= i < |s.keys| ensures KeyRight(s.keys[i], s.repo) {
      assert Removes(s.threads, s.keys[i].key) ==> Clears(s.threads);
    }
  }

  /**
   * Any calls, overlapping in any way, in which no alias is moved and no key deleted between a lookup
   * that found it and the noting of it: whenever no change is half done, a resolution answers from
   * the caches what the repository would.
   */
  lemma {:induction false} OverlapsStayRight(repo: Repository, limits: Limits, run: seq<Step>, t: nat, ref: Reference, now: int)
    requires RepositoryOk(repo) && Runs(Init(repo, limits), run) && ApartRun(Init(repo, limits), run)
    requires !Clears(After(Init(repo, limits), run).threads) && t !in After(Init(repo, limits), run).threads
    ensures var s := After(Init(repo, limits), run);
            var r := Apply(s, Start(t, ref, now));
            && (r.threads[t].Done? ==> IsFresh(s.repo, ref, r.threads[t].answer))
            && (r.threads[t].IndexHit? ==>
                  var q := Apply(r, KeyOfHit(t, now)); q.threads[t].Done? ==> IsFresh(s.repo, ref, q.threads[t].answer))
  {
    ApartRunSound(Init(repo, limits), run);
    QuietAnswer(After(Init(repo, limits), run), t, ref, now);
  }

  // ---------------------------------------------------------------------------------------------
  // What the next caller is told
  // ---------------------------------------------------------------------------------------------

  predicate Keeps(limits: Limits)
  {
    limits.aliasSize >= 1 && limits.keySize >= 1 && limits.aliasTtl > 0 && limits.keyTtl > 0
  }

  /**
   * Whatever came between a lookup and its noting, the next one to ask is told what was noted; and
   * that is the repository's answer just if the repository still has that key.
   */
  lemma {:induction false} NotedKeyAnswers(s: State, t: nat, u: nat, now: int)
    requires t in s.threads && s.threads[t].NotingKey? && u !in s.threads && Keeps(s.limits)
    ensures var id, key := s.threads[t].id, s.threads[t].key;
            var r := Apply(Apply(s, Note(t, now)), Start(u, ById(id), now));
            && r.repo == s.repo && r.threads[u] == Done(Found(id, key))
            && (IsFresh(s.repo, ById(id), Found(id, key)) <==> id in s.repo && s.repo[id].key == key)
  {
    PutThenGet(s.keys, s.threads[t].id, s.threads[t].key, now, s.limits.keyTtl, s.limits.keySize);
  }

  /** The same by alias: just if the alias is still bound to that key. */
  lemma {:induction false} NotedAliasAnswers(s: State, t: nat, u: nat, now: int)
    requires t in s.threads && s.threads[t].NotingAlias? && u !in s.threads && Keeps(s.limits)
    ensures var alias, id, key := s.threads[t].alias, s.threads[t].id, s.threads[t].key;
            var r := Apply(Apply(s, Note(t, now)), Note(t, now));
            var q := Apply(r, Start(u, ByAlias(alias), now));
            && q.threads[u] == IndexHit(alias, id)
            && Apply(q, KeyOfHit(u, now)).threads[u] == Done(Found(id, key)) && Apply(q, KeyOfHit(u, now)).repo == s.repo
            && (IsFresh(s.repo, ByAlias(alias), Found(id, key)) <==> alias != "" && id in s.repo && s.repo[id] == KeyRecord(alias, key))
  {
    var alias, id, key := s.threads[t].alias, s.threads[t].id, s.threads[t].key;
    PutThenGet(s.index, alias, id, now, s.limits.aliasTtl, s.limits.aliasSize);
    PutThenGet(s.keys, id, key, now, s.limits.keyTtl, s.limits.keySize);
  }

  // ---------------------------------------------------------------------------------------------
  // Runs that go wrong
  // ---------------------------------------------------------------------------------------------

  lemma {:induction false} StepThen(s: State, a: Step, rest: seq<Step>)
    requires Enabled(s, a) && Runs(Apply(s, a), rest)
    ensures Runs(s, [a] + rest) && After(s, [a] + rest) == After(Apply(s, a), rest)
  {
    assert ([a] + rest)[0] == a && ([a] + rest)[1..] == rest;
  }

  /** Two steps of thread 0: nothing is cached, so the repository is asked. */
  lemma {:induction false} Asks(s: State, ref: Reference, id: Id, now: int, rest: seq<Step>)
    requires s.index == [] && s.keys == [] && 0 !in s.threads && id in s.repo && IsFresh(s.repo, ref, Found(id, s.repo[id].key))
    requires var pc := if ref.ById? then NotingKey(id, s.repo[id].key) else NotingAlias(ref.alias, id, s.repo[id].key); Runs(At(s, 0, pc), rest)
    ensures var pc := if ref.ById? then NotingKey(id, s.repo[id].key) else NotingAlias(ref.alias, id, s.repo[id].key);
            var run := [Start(0, ref, now)] + ([LookUp(0, Some(id))] + rest);
            Runs(s, run) && After(s, run) == After(At(s, 0, pc), rest)
  {
    var r := Apply(s, Start(0, ref, now));
    assert r == At(s, 0, Looking(ref));
    var pc := if ref.ById? then NotingKey(id, s.repo[id].key) else NotingAlias(ref.alias, id, s.repo[id].key);
    assert Apply(r, LookUp(0, Some(id))) == At(s, 0, pc) by { assert s.threads[0 := Looking(ref)][0 := pc] == s.threads[0 := pc]; }
    StepThen(r, LookUp(0, Some(id)), rest);
    StepThen(s, Start(0, ref, now), [LookUp(0, Some(id))] + rest);
  }

  /** Three steps of thread 1: a key is deleted, from the repository and from the caches. */
  lemma {:induction false} Deletes(s: State, id: Id, rest: seq<Step>)
    requires s.index == [] && s.keys == [] && 1 !in s.threads && id in s.repo && Runs(s.(repo := s.repo - {id}), rest)
    ensures var run := [Delete(1, id)] + ([Remove(1)] + ([Clear(1)] + rest));
            Runs(s, run) && After(s, run) == After(s.(repo := s.repo - {id}), rest)
  {
    var r := Apply(s, Delete(1, id));
    var q := Apply(r, Remove(1));
    assert Apply(q, Clear(1)) == s.(repo := s.repo - {id}) by { assert s.threads[1 := Removing(id)][1 := Clearing] - {1} == s.threads; }
    StepThen(q, Clear(1), rest);
    StepThen(r, Remove(1), [Clear(1)] + rest);
    StepThen(s, Delete(1, id), [Remove(1)] + ([Clear(1)] + rest));
  }

  /** Two steps of thread 1: a key's alias is unbound and the index cleared. */
  lemma {:induction false} Unbinds(s: State, id: Id, rest: seq<Step>)
    requires s.index == [] && 1 !in s.threads && id in s.repo && Runs(s.(repo := s.repo[id := s.repo[id].(alias := "")]), rest)
    ensures var run := [SetAlias(1, id, "")] + ([Clear(1)] + rest);
            Runs(s, run) && After(s, run) == After(s.(repo := s.repo[id := s.repo[id].(alias := "")]), rest)
  {
    var r := Apply(s, SetAlias(1, id, ""));
    assert Apply(r, Clear(1)) == s.(repo := s.repo[id := s.repo[id].(alias := "")]) by { assert s.threads[1 := Clearing] - {1} == s.threads; }
    StepThen(r, Clear(1), rest);
    StepThen(s, SetAlias(1, id, ""), [Clear(1)] + rest);
  }

  function DeletedMeanwhile(id: Id, now: int): seq<Step>
  {
    [Start(0, ById(id), now)] + ([LookUp(0, Some(id))]
      + ([Delete(1, id)] + ([Remove(1)] + ([Clear(1)]
      + ([Note(0, now)] + ([Start(2, ById(id), now)] + []))))))
  }

  /**
   * For every key of every repository: looked up, then deleted by another call from beginning to end,
   * then noted. Whoever asks next is given the key that no longer is.
   */
  lemma {:induction false} DeletedKeyServed(repo: Repository, limits: Limits, id: Id, now: int)
    requires id in repo && Keeps(limits)
    ensures var s, run := Init(repo, limits), DeletedMeanwhile(id, now);
            && Runs(s, run) && 2 in After(s, run).threads && After(s, run).threads[2] == Done(Found(id, repo[id].key))
            && id !in After(s, run).repo && !IsFresh(After(s, run).repo, ById(id), Found(id, repo[id].key))
  {
    var s := Init(repo, limits);
    var noting := At(s, 0, NotingKey(id, repo[id].key));
    var gone := noting.(repo := repo - {id});
    NotedKeyAnswers(gone, 0, 2, now);
    var noted := Apply(gone, Note(0, now));
    StepThen(noted, Start(2, ById(id), now), []);
    StepThen(gone, Note(0, now), [Start(2, ById(id), now)] + []);
    Deletes(noting, id, [Note(0, now)] + ([Start(2, ById(id), now)] + []));
    Asks(s, ById(id), id, now, [Delete(1, id)] + ([Remove(1)] + ([Clear(1)] + ([Note(0, now)] + ([Start(2, ById(id), now)] + [])))));
  }

  function UnboundMeanwhile(alias: Alias, id: Id, now: int): seq<Step>
  {
    [Start(0, ByAlias(alias), now)] + ([LookUp(0, Some(id))]
      + ([SetAlias(1, id, "")] + ([Clear(1)]
      + ([Note(0, now)] + ([Note(0, now)] + ([Start(2, ByAlias(alias), now)] + ([KeyOfHit(2, now)] + [])))))))
  }

  /** For every alias of every repository: looked up, then unbound by another call, then noted. Whoever asks next is told of it still. */
  lemma {:induction false} UnboundAliasServed(repo: Repository, limits: Limits, id: Id, now: int)
    requires id in repo && repo[id].alias != "" && Keeps(limits)
    ensures var s, run := Init(repo, limits), UnboundMeanwhile(repo[id].alias, id, now);
            && Runs(s, run) && 2 in After(s, run).threads && After(s, run).threads[2] == Done(Found(id, repo[id].key))
            && !IsFresh(After(s, run).repo, ByAlias(repo[id].alias), Found(id, repo[id].key))
  {
    var alias := repo[id].alias;
    var s := Init(repo, limits);
    var noting := At(s, 0, NotingAlias(alias, id, repo[id].key));
    var moved := noting.(repo := repo[id := repo[id].(alias := "")]);
    NotedAliasAnswers(moved, 0, 2, now);
    var noted := Apply(moved, Note(0, now));
    var both := Apply(noted, Note(0, now));
    var hit := Apply(both, Start(2, ByAlias(alias), now));
    StepThen(hit, KeyOfHit(2, now), []);
    StepThen(both, Start(2, ByAlias(alias), now), [KeyOfHit(2, now)] + []);
    StepThen(noted, Note(0, now), [Start(2, ByAlias(alias), now)] + ([KeyOfHit(2, now)] + []));
    StepThen(moved, Note(0, now), [Note(0, now)] + ([Start(2, ByAlias(alias), now)] + ([KeyOfHit(2, now)] + [])));
    Unbinds(noting, id, [Note(0, now)] + ([Note(0, now)] + ([Start(2, ByAlias(alias), now)] + ([KeyOfHit(2, now)] + []))));
    Asks(s, ByAlias(alias), id, now,
         [SetAlias(1, id, "")] + ([Clear(1)] + ([Note(0, now)] + ([Note(0, now)] + ([Start(2, ByAlias(alias), now)] + ([KeyOfHit(2, now)] + []))))));
  }
}
