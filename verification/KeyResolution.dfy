/**
 * Which key a reference names (encryption.go). Two caches stand before the repository; as long as
 * the repository changes only through the profile's own calls, asking them is as good as asking it.
 */
module KeyResolution {
  import opened Bytes
  import opened C = Cache

  type Id = string
  type Alias = string

  /** A usable key, made from the bytes the encapsulation service unwrapped. */
  datatype DataKey = DataKey(bytes: seq<Byte>)

  /** What the repository holds under an id; an empty alias is none. */
  datatype KeyRecord = KeyRecord(alias: Alias, key: DataKey)

  type Repository = map<Id, KeyRecord>

  ghost predicate RepositoryOk(repo: Repository)
  {
    && "" !in repo
    && forall i, j :: i in repo && j in repo && repo[i].alias != "" && repo[i].alias == repo[j].alias ==> i == j
  }

  datatype Reference = ById(id: Id) | ByAlias(alias: Alias)

  datatype Resolved = Found(id: Id, key: DataKey) | NotFound | Failed

  /** What asking the repository itself comes to. */
  ghost predicate IsFresh(repo: Repository, ref: Reference, r: Resolved)
  {
    match r
    case Failed => false
    case Found(id, key) => id in repo && repo[id].key == key && (match ref case ById(i) => i == id case ByAlias(a) => a != "" && repo[id].alias == a)
    case NotFound => match ref case ById(i) => i !in repo case ByAlias(a) => a == "" || forall i :: i in repo ==> repo[i].alias != a
  }

  /** The repository gives one answer, so two that are fresh are the same. */
  lemma {:induction false} FreshIsUnique(repo: Repository, ref: Reference, r: Resolved, s: Resolved)
    requires RepositoryOk(repo) && IsFresh(repo, ref, r) && IsFresh(repo, ref, s)
    ensures r == s
  {
  }

  // ---------------------------------------------------------------------------------------------
  // Caches that agree with the repository
  // ---------------------------------------------------------------------------------------------

  ghost predicate AliasesRight(c: Items<Id>, repo: Repository)
  {
    forall i :: 0 <= i < |c| ==> c[i].key != "" && c[i].value in repo && repo[c[i].value].alias == c[i].key
  }

  ghost predicate KeysRight(c: Items<DataKey>, repo: Repository)
  {
    forall i :: 0 <= i < |c| ==> c[i].key in repo && repo[c[i].key].key == c[i].value
  }

  lemma {:induction false} WithoutWithin<V>(c: Items<V>, k: Key)
    ensures Within(WithoutKey(c, k), c)
  {
    if c != [] {
      WithoutWithin(c[1..], k);
      var r := WithoutKey(c, k);
      forall i | 0 <= i < |r| ensures r[i] in c {
        if c[0].key == k { assert r[i] == c[i + 1]; } else if i > 0 { assert r[i] in c[1..]; }
      }
    }
  }

  lemma {:induction false} PurgedWithin<V>(c: Items<V>, now: int)
    ensures Within(Purged(c, now), c)
  {
    if c != [] {
      PurgedWithin(c[1..], now);
      var t := Purged(c[1..], now);
      var r := Purged(c, now);
      forall i | 0 <= i < |r| ensures r[i] in c {
        if now >= c[0].expires { assert r == t; assert r[i] in c[1..]; } else if i > 0 { assert r[i] == t[i - 1]; assert t[i - 1] in c[1..]; }
      }
    }
  }

  lemma {:induction false} GetWithin<V>(c: Items<V>, k: Key, now: int)
    ensures Within(Get(c, k, now).1, c)
    ensures Get(c, k, now).0.Some? ==> exists i :: 0 <= i < |c| && c[i].key == k && c[i].value == Get(c, k, now).0.value
  {
    FindIn(c, k);
    WithoutWithin(c, k);
    if Get(c, k, now).0.Some? {
      var e := Find(c, k).value;
      var i :| 0 <= i < |c| && c[i] == e;
    }
  }

  /** After a Put there is the new entry, and otherwise only what was there before. */
  lemma {:induction false} PutWithin<V>(c: Items<V>, k: Key, v: V, now: int, ttl: int, maxSize: nat)
    ensures var r := Put(c, k, v, now, ttl, maxSize); forall i :: 0 <= i < |r| ==> r[i] == Item(k, v, now + ttl) || r[i] in c
  {
    var p := Purged(c, now);
    var e := Item(k, v, now + ttl);
    PurgedWithin(c, now);
    WithoutWithin(p, k);
    var r := Put(c, k, v, now, ttl, maxSize);
    forall i | 0 <= i < |r| ensures r[i] == e || r[i] in c {
      if i > 0 {
        if k in Keys(p) { assert r[i] == WithoutKey(p, k)[i - 1]; assert r[i] in p; } else { assert r[i] == p[i - 1]; }
        var j :| 0 <= j < |p| && p[j] == r[i];
      }
    }
  }

  lemma {:induction false} AliasesWithin(c: Items<Id>, r: Items<Id>, repo: Repository)
    requires AliasesRight(c, repo) && Within(r, c)
    ensures AliasesRight(r, repo)
  {
    forall i | 0 <= i < |r| ensures r[i].key != "" && r[i].value in repo && repo[r[i].value].alias == r[i].key { assert r[i] in c; }
  }

  lemma {:induction false} KeysWithin(c: Items<DataKey>, r: Items<DataKey>, repo: Repository)
    requires KeysRight(c, repo) && Within(r, c)
    ensures KeysRight(r, repo)
  {
    forall i | 0 <= i < |r| ensures r[i].key in repo && repo[r[i].key].key == r[i].value { assert r[i] in c; }
  }

  lemma {:induction false} AliasesPut(c: Items<Id>, a: Alias, id: Id, repo: Repository, now: int, ttl: int, maxSize: nat)
    requires AliasesRight(c, repo) && a != "" && id in repo && repo[id].alias == a
    ensures AliasesRight(Put(c, a, id, now, ttl, maxSize), repo)
  {
    PutWithin(c, a, id, now, ttl, maxSize);
    var r := Put(c, a, id, now, ttl, maxSize);
    forall i | 0 <= i < |r| ensures r[i].key != "" && r[i].value in repo && repo[r[i].value].alias == r[i].key {
      if r[i] in c { var j :| 0 <= j < |c| && c[j] == r[i]; }
    }
  }

  lemma {:induction false} KeysPut(c: Items<DataKey>, id: Id, key: DataKey, repo: Repository, now: int, ttl: int, maxSize: nat)
    requires KeysRight(c, repo) && id in repo && repo[id].key == key
    ensures KeysRight(Put(c, id, key, now, ttl, maxSize), repo)
  {
    PutWithin(c, id, key, now, ttl, maxSize);
    var r := Put(c, id, key, now, ttl, maxSize);
    forall i | 0 <= i < |r| ensures r[i].key in repo && repo[r[i].key].key == r[i].value {
      if r[i] in c { var j :| 0 <= j < |c| && c[j] == r[i]; }
    }
  }

  // ---------------------------------------------------------------------------------------------
  // The profile
  // ---------------------------------------------------------------------------------------------

  /** Which of the services outside fails during a call, if any. */
  datatype Fault = NoFault | RepositoryFault | ServiceFault

  class Profile {
    const aliasIndex: C.Cache<Id>
    const keyCache: C.Cache<DataKey>
    var repo: Repository

    ghost predicate Valid()
      reads this, aliasIndex, keyCache
    {
      && (aliasIndex as object) != keyCache && (aliasIndex as object) != this && (keyCache as object) != this
      && aliasIndex.Valid() && keyCache.Valid() && RepositoryOk(repo)
      && AliasesRight(aliasIndex.Abs(), repo) && KeysRight(keyCache.Abs(), repo)
    }

    constructor (aliasTtl: int, aliasSize: nat, keyTtl: int, keySize: nat, repo: Repository)
      requires RepositoryOk(repo)
      ensures Valid() && this.repo == repo && fresh(aliasIndex) && fresh(keyCache)
    {
      aliasIndex := new C.Cache(aliasTtl, aliasSize);
      keyCache := new C.Cache(keyTtl, keySize);
      this.repo := repo;
    }

    method FindAlias(alias: Alias) returns (id: Option<Id>)
      requires Valid()
      ensures id.Some? ==> alias != "" && id.value in repo && repo[id.value].alias == alias
      ensures id.None? ==> alias == "" || forall i :: i in repo ==> repo[i].alias != alias
    {
      var ids := repo.Keys;
      if alias == "" { return None; }
      while ids != {}
        invariant forall i :: i in repo && i !in ids ==> repo[i].alias != alias
        invariant ids <= repo.Keys
        decreases |ids|
      {
        var i :| i in ids;
        if repo[i].alias == alias { return Some(i); }
        ids := ids - {i};
      }
      id := None;
    }

    method CachedKey(id: Id, now: int) returns (key: Option<DataKey>)
      requires Valid()
      modifies keyCache
      ensures Valid() && (key.Some? ==> id in repo && repo[id].key == key.value)
    {
      GetWithin(keyCache.Abs(), id, now);
      KeysWithin(keyCache.Abs(), Get(keyCache.Abs(), id, now).1, repo);
      key := keyCache.DoGet(id, now);
    }

    method CacheKey(id: Id, key: DataKey, now: int)
      requires Valid() && id in repo && repo[id].key == key
      modifies keyCache
      ensures Valid()
    {
      KeysPut(keyCache.Abs(), id, key, repo, now, keyCache.ttl, keyCache.maxSize);
      keyCache.DoPut(id, key, now);
    }

    method CachedAlias(alias: Alias, now: int) returns (id: Option<Id>)
      requires Valid()
      modifies aliasIndex
      ensures Valid() && (id.Some? ==> alias != "" && id.value in repo && repo[id.value].alias == alias)
    {
      GetWithin(aliasIndex.Abs(), alias, now);
      AliasesWithin(aliasIndex.Abs(), Get(aliasIndex.Abs(), alias, now).1, repo);
      id := aliasIndex.DoGet(alias, now);
    }

    method CacheAlias(alias: Alias, id: Id, now: int)
      requires Valid() && alias != "" && id in repo && repo[id].alias == alias
      modifies aliasIndex
      ensures Valid()
    {
      AliasesPut(aliasIndex.Abs(), alias, id, repo, now, aliasIndex.ttl, aliasIndex.maxSize);
      aliasIndex.DoPut(alias, id, now);
    }

    method ResolveById(id: Id, now: int, fault: Fault) returns (r: Resolved)
      requires Valid()
      modifies aliasIndex, keyCache
      ensures Valid() && (r == Failed || IsFresh(repo, ById(id), r)) && (fault == NoFault ==> r != Failed)
    {
      var cached := CachedKey(id, now);
      if cached.Some? { return Found(id, cached.value); }
      if fault == RepositoryFault { return Failed; }
      if id !in repo { return NotFound; }
      if fault == ServiceFault { return Failed; }
      CacheKey(id, repo[id].key, now);
      r := Found(id, repo[id].key);
    }

    method ResolveByAlias(alias: Alias, now: int, fault: Fault) returns (r: Resolved)
      requires Valid()
      modifies aliasIndex, keyCache
      ensures Valid() && (r == Failed || IsFresh(repo, ByAlias(alias), r)) && (fault == NoFault ==> r != Failed)
    {
      var cached := CachedAlias(alias, now);
      if cached.Some? {
        var key := CachedKey(cached.value, now);
        if key.Some? { return Found(cached.value, key.value); }
        ForgetAlias(alias);
      }
      if fault == RepositoryFault { return Failed; }
      var id := FindAlias(alias);
      if id.None? { return NotFound; }
      if fault == ServiceFault { return Failed; }
      CacheAlias(alias, id.value, now);
      CacheKey(id.value, repo[id.value].key, now);
      r := Found(id.value, repo[id.value].key);
    }

    method ForgetAlias(alias: Alias)
      requires Valid()
      modifies aliasIndex
      ensures Valid()
    {
      WithoutWithin(aliasIndex.Abs(), alias);
      AliasesWithin(aliasIndex.Abs(), WithoutKey(aliasIndex.Abs(), alias), repo);
      aliasIndex.DoRemove(alias);
    }

    /** Resolves a reference, from the caches or from the repository: the outcome is the same. */
    method Resolve(ref: Reference, now: int, fault: Fault) returns (r: Resolved)
      requires Valid()
      modifies aliasIndex, keyCache
      ensures Valid() && (r == Failed || IsFresh(repo, ref, r)) && (fault == NoFault ==> r != Failed)
    {
      match ref
      case ById(id) => r := ResolveById(id, now, fault);
      case ByAlias(alias) => r := ResolveByAlias(alias, now, fault);
    }

    /** The repository gives the new key an id of its own and refuses an alias another key has. */
    method Create(alias: Alias, id: Id, key: DataKey, now: int, fault: Fault) returns (ok: bool)
      requires Valid() && id !in repo && id != ""
      modifies this`repo, aliasIndex, keyCache
      ensures Valid() && ok == (fault == NoFault && (alias == "" || forall i :: i in old(repo) ==> old(repo)[i].alias != alias))
      ensures repo == if ok then old(repo)[id := KeyRecord(alias, key)] else old(repo)
    {
      if fault != NoFault { return false; }
      var holder := FindAlias(alias);
      if holder.Some? { return false; }
      assert !AliasTaken(repo, alias, id);
      CreatedOk(repo, alias, id, key);
      CreatedRight(aliasIndex.Abs(), keyCache.Abs(), repo, alias, id, key);
      repo := repo[id := KeyRecord(alias, key)];
      if alias != "" { CacheAlias(alias, id, now); }
      CacheKey(id, key, now);
      ok := true;
    }

    /** Binds a key's alias, or with an empty one unbinds it; whatever mappings were cached are forgotten. */
    method SetAlias(id: Id, alias: Alias, fault: Fault) returns (ok: bool)
      requires Valid()
      modifies this`repo, aliasIndex
      ensures Valid() && ok == (fault == NoFault && id in old(repo) && !AliasTaken(old(repo), alias, id))
      ensures repo == if ok then old(repo)[id := old(repo)[id].(alias := alias)] else old(repo)
    {
      if id == "" || fault != NoFault || id !in repo { return false; }
      var holder := FindAlias(alias);
      if holder.Some? && holder.value != id { return false; }
      repo := repo[id := repo[id].(alias := alias)];
      aliasIndex.DoClear();
      ok := true;
    }

    method DeleteById(id: Id, fault: Fault) returns (ok: bool)
      requires Valid()
      modifies this`repo, aliasIndex, keyCache
      ensures Valid() && ok == (fault == NoFault && id in old(repo)) && repo == if ok then old(repo) - {id} else old(repo)
    {
      if id == "" || fault != NoFault || id !in repo { return false; }
      DeletedKey(keyCache.entries, keyCache.order, id, repo);
      repo := repo - {id};
      keyCache.DoRemove(id);
      aliasIndex.DoClear();
      ok := true;
    }
  }

  lemma {:induction false} CreatedOk(repo: Repository, alias: Alias, id: Id, key: DataKey)
    requires RepositoryOk(repo) && id != "" && id !in repo && !AliasTaken(repo, alias, id)
    ensures RepositoryOk(repo[id := KeyRecord(alias, key)])
  {
  }

  lemma {:induction false} CreatedRight(index: Items<Id>, keys: Items<DataKey>, repo: Repository, alias: Alias, id: Id, key: DataKey)
    requires AliasesRight(index, repo) && KeysRight(keys, repo) && id !in repo
    ensures AliasesRight(index, repo[id := KeyRecord(alias, key)]) && KeysRight(keys, repo[id := KeyRecord(alias, key)])
  {
  }

  lemma {:induction false} DeletedKey(entries: map<Key, Stored<DataKey>>, order: seq<Key>, id: Id, repo: Repository)
    requires Agree(entries, order) && KeysRight(ItemsOf(entries, order), repo)
    ensures KeysRight(WithoutKey(ItemsOf(entries, order), id), repo - {id})
  {
    var c := ItemsOf(entries, order);
    WithoutIs(c, id);
    var r := WithoutKey(c, id);
    KeysWithin(c, r, repo);
    forall i | 0 <= i < |r| ensures r[i].key in repo - {id} { assert r[i].key in Keys(r); }
  }

  // ---------------------------------------------------------------------------------------------
  // Any sequence of calls
  // ---------------------------------------------------------------------------------------------

  datatype Call =
    | ResolveCall(ref: Reference, now: int, fault: Fault)
    | CreateCall(alias: Alias, id: Id, key: DataKey, now: int, fault: Fault)
    | SetAliasCall(id: Id, alias: Alias, fault: Fault)
    | DeleteCall(id: Id, fault: Fault)

  ghost predicate AliasTaken(repo: Repository, alias: Alias, own: Id)
  {
    alias != "" && exists i :: i in repo && i != own && repo[i].alias == alias
  }

  /** What a call does to the repository, the caches left aside. */
  ghost function NextRepository(repo: Repository, call: Call): Repository
  {
    match call
    case ResolveCall(_, _, _) => repo
    case CreateCall(alias, id, key, _, fault) =>
      if fault == NoFault && id != "" && id !in repo && !AliasTaken(repo, alias, id) then repo[id := KeyRecord(alias, key)] else repo
    case SetAliasCall(id, alias, fault) =>
      if fault == NoFault && id in repo && id != "" && !AliasTaken(repo, alias, id) then repo[id := repo[id].(alias := alias)] else repo
    case DeleteCall(id, fault) => if fault == NoFault && id in repo then repo - {id} else repo
  }

  ghost function RepositoryAfter(repo: Repository, calls: seq<Call>): Repository
  {
    if calls == [] then repo else NextRepository(RepositoryAfter(repo, calls[..|calls| - 1]), calls[|calls| - 1])
  }

  /** A resolution is answered as the repository would answer it, or not at all if a service failed. */
  ghost predicate RightAnswer(repo: Repository, call: Call, answer: Resolved)
  {
    call.ResolveCall? ==> (answer == Failed || IsFresh(repo, call.ref, answer)) && (call.fault == NoFault ==> answer != Failed)
  }

  ghost predicate RightAnswers(repo: Repository, calls: seq<Call>, answers: seq<Resolved>)
    requires |answers| <= |calls|
  {
    forall i :: 0 <= i < |answers| ==> RightAnswer(RepositoryAfter(repo, calls[..i]), calls[i], answers[i])
  }

  lemma {:induction false} OneMoreAnswer(repo: Repository, calls: seq<Call>, answers: seq<Resolved>, answer: Resolved)
    requires |answers| < |calls| && RightAnswers(repo, calls, answers)
    requires RightAnswer(RepositoryAfter(repo, calls[..|answers|]), calls[|answers|], answer)
    ensures RightAnswers(repo, calls, answers + [answer])
    ensures RepositoryAfter(repo, calls[..|answers| + 1]) == NextRepository(RepositoryAfter(repo, calls[..|answers|]), calls[|answers|])
  {
    var n := |answers|;
    assert calls[..n + 1][..n] == calls[..n];
    var more := answers + [answer];
    forall i | 0 <= i < |more| ensures RightAnswer(RepositoryAfter(repo, calls[..i]), calls[i], more[i]) {
      assert i < n ==> more[i] == answers[i];
    }
  }

  /**
   * Runs the calls one after another. Every resolution answers as the repository itself would at that
   * moment, or fails because a service outside failed, whatever expired or was evicted meanwhile.
   */
  method RunCalls(repo: Repository, calls: seq<Call>, aliasTtl: int, aliasSize: nat, keyTtl: int, keySize: nat)
    returns (answers: seq<Resolved>)
    requires RepositoryOk(repo)
    ensures |answers| == |calls| && RightAnswers(repo, calls, answers)
  {
    var p := new Profile(aliasTtl, aliasSize, keyTtl, keySize, repo);
    answers := [];
    assert calls[..0] == [];
    for n := 0 to |calls|
      invariant p.Valid() && fresh(p) && fresh(p.aliasIndex) && fresh(p.keyCache)
      invariant |answers| == n && p.repo == RepositoryAfter(repo, calls[..n]) && RightAnswers(repo, calls, answers)
    {
      var answer := RunCall(p, calls[n]);
      OneMoreAnswer(repo, calls, answers, answer);
      answers := answers + [answer];
    }
  }

  method RunCall(p: Profile, call: Call) returns (answer: Resolved)
    requires p.Valid()
    modifies p, p.aliasIndex, p.keyCache
    ensures p.Valid() && p.repo == NextRepository(old(p.repo), call)
    ensures RightAnswer(old(p.repo), call, answer)
  {
    answer := NotFound;
    match call
    case ResolveCall(ref, now, fault) => answer := p.Resolve(ref, now, fault);
    case CreateCall(alias, id, key, now, fault) =>
      if id != "" && id !in p.repo { var _ := p.Create(alias, id, key, now, fault); }
    case SetAliasCall(id, alias, fault) => var _ := p.SetAlias(id, alias, fault);
    case DeleteCall(id, fault) => var _ := p.DeleteById(id, fault);
  }
}
