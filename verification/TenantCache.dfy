/** The 30-second cache in front of the tenant store, with the fetch of a lookup and
    its put as separate steps (src/tenant.rs). */
module TenantCache {
  import opened Identifiers
  import TenantStore

  type Hash = TenantStore.Hash
  type Tenant = TenantStore.Tenant
  type Records = map<Hash, Tenant>

  const CACHE_TTL := 30_000

  function Fetch(r: Records, h: Hash): Option<Tenant> {
    if h in r then Some(r[h]) else None
  }

  /** A lookup result on its way to the cache: the value, the store version it was
      read from, and whether the read failed (a failed read counts as "no tenant"). */
  datatype Flight = Flight(h: Hash, value: Option<Tenant>, version: nat, failed: bool)

  datatype Entry = Entry(value: Option<Tenant>, at: int, version: nat, failed: bool)

  type Task = nat

  /** `versions` are all the stores there have been, the current one last; `dirty` says
      that a mutation has not been followed by an invalidation yet. */
  datatype State = State(
    clock: int,
    versions: seq<Records>,
    cache: map<Hash, Entry>,
    flights: map<Task, Flight>,
    dirty: bool)

  function Start(r: Records): State {
    State(0, [r], map[], map[], false)
  }

  datatype Event =
    | Miss(t: Task, h: Hash, fails: bool)   // fetch_by_hash
    | Put(t: Task, now: int)                // cache.put
    | Mutate(r: Records)                    // any change of the store
    | Invalidate                            // invalidate_all
    | Tick(now: int)

  predicate Enabled(s: State, e: Event) {
    match e
    case Miss(t, _, _) => t !in s.flights && s.versions != []
    case Put(t, now) => t in s.flights && now >= s.clock
    case Tick(now) => now >= s.clock
    case _ => true
  }

  function Current(s: State): Records
    requires s.versions != []
  {
    s.versions[|s.versions| - 1]
  }

  function Step(s: State, e: Event): State
    requires Enabled(s, e)
  {
    match e
    case Miss(t, h, fails) =>
      s.(flights := s.flights[t := Flight(h, if fails then None else Fetch(Current(s), h), |s.versions| - 1, fails)])
    case Put(t, now) =>
      var f := s.flights[t];
      s.(clock := now, cache := s.cache[f.h := Entry(f.value, now, f.version, f.failed)], flights := s.flights - {t})
    case Mutate(r) => s.(versions := s.versions + [r], dirty := true)
    case Invalidate => s.(cache := map[], dirty := false)
    case Tick(now) => s.(clock := now)
  }

  /** `TenantCache::get`: entries older than the TTL are misses. */
  function Lookup(s: State, h: Hash): Option<Option<Tenant>> {
    if h in s.cache && s.clock - s.cache[h].at <= CACHE_TTL then Some(s.cache[h].value) else None
  }

  ghost predicate Leads(P: (State, Event) -> bool, s: State, es: seq<Event>, t: State)
    decreases |es|
  {
    if es == [] then s == t
    else Enabled(s, es[0]) && P(s, es[0]) && Leads(P, Step(s, es[0]), es[1..], t)
  }

  ghost predicate Anything(s: State, e: Event) { true }

  // ---------------------------------------------------------------- bounded staleness

  /** `value` is what version `version` of the store held, or None after a failed read. */
  ghost predicate ReadFrom(s: State, h: Hash, value: Option<Tenant>, version: nat, failed: bool) {
    version < |s.versions| && value == if failed then None else Fetch(s.versions[version], h)
  }

  ghost predicate Honest(s: State) {
    && s.versions != []
    && (forall t :: t in s.flights ==>
        ReadFrom(s, s.flights[t].h, s.flights[t].value, s.flights[t].version, s.flights[t].failed))
    && (forall h :: h in s.cache ==>
        ReadFrom(s, h, s.cache[h].value, s.cache[h].version, s.cache[h].failed) && s.cache[h].at <= s.clock)
  }

  lemma HonestStep(s: State, e: Event)
    requires Honest(s) && Enabled(s, e)
    ensures Honest(Step(s, e))
  {
  }

  lemma {:induction false} HonestRun(s: State, es: seq<Event>, t: State)
    requires Leads(Anything, s, es, t) && Honest(s)
    ensures Honest(t)
    decreases |es|
  {
    if es != [] {
      HonestStep(s, es[0]);
      HonestRun(Step(s, es[0]), es[1..], t);
    }
  }

  /** Whatever the cache answers was read from a store there has been (or is the None of
      a failed read), and was put there at most 30 seconds ago. */
  lemma BoundedStaleness(r: Records, es: seq<Event>, s: State, h: Hash)
    requires Leads(Anything, Start(r), es, s) && Lookup(s, h).Some?
    ensures h in s.cache && 0 <= s.clock - s.cache[h].at <= CACHE_TTL
    ensures ReadFrom(s, h, Lookup(s, h).value, s.cache[h].version, s.cache[h].failed)
  {
    HonestRun(Start(r), es, s);
  }

  /** A put is answered from the cache for 30 seconds, until the next put for its key or the next
      invalidation, and then no longer. */
  lemma PutIsHitIff(s: State, t: Task, now: int, later: int)
    requires Enabled(s, Put(t, now)) && later >= now
    ensures var f := s.flights[t];
      Lookup(Step(Step(s, Put(t, now)), Tick(later)), f.h) == if later - now <= 30_000 then Some(f.value) else None
    ensures forall h :: Lookup(Step(s, Invalidate), h) == None
  {
  }

  // ---------------------------------------------------------------- agreement with the store

  ghost predicate EntryAgrees(s: State, h: Hash)
    requires s.versions != [] && h in s.cache
  {
    (s.cache[h].failed && s.cache[h].value == None) || s.cache[h].value == Fetch(Current(s), h)
  }

  /** Every cached value is the store's, or the None of a failed read. */
  ghost predicate Coherent(s: State) {
    s.versions != [] && forall h :: h in s.cache ==> EntryAgrees(s, h)
  }

  /** What the lookup read is still what the store holds, or it read nothing. */
  predicate Harmless(s: State, f: Flight)
    requires s.versions != []
  {
    f.failed || (f.version < |s.versions| && Fetch(s.versions[f.version], f.h) == Fetch(Current(s), f.h))
  }

  /** No lookup in flight has been overtaken by a change of its record. */
  ghost predicate NoneOvertaken(s: State) {
    s.versions != [] && forall t :: t in s.flights ==> Harmless(s, s.flights[t])
  }

  /** Exactly which puts keep a coherent cache coherent: failed reads, and those whose
      record is the same now as in the version they read. */
  lemma PutKeepsCoherentIff(s: State, t: Task, now: int)
    requires Honest(s) && Coherent(s) && Enabled(s, Put(t, now))
    ensures Coherent(Step(s, Put(t, now))) <==> Harmless(s, s.flights[t])
  {
    var f := s.flights[t];
    var s' := Step(s, Put(t, now));
    assert ReadFrom(s, f.h, f.value, f.version, f.failed);
    if Harmless(s, f) {
      forall h | h in s'.cache ensures EntryAgrees(s', h) {
        assert h != f.h ==> EntryAgrees(s, h);
      }
    } else {
      assert !EntryAgrees(s', f.h);
    }
  }

  /** Nothing changes in the store. */
  predicate Unchanging(s: State, e: Event) {
    !e.Mutate?
  }

  lemma UnchangingStep(s: State, e: Event)
    requires Honest(s) && Coherent(s) && NoneOvertaken(s) && Enabled(s, e) && Unchanging(s, e)
    ensures Honest(Step(s, e)) && Coherent(Step(s, e)) && NoneOvertaken(Step(s, e))
  {
    HonestStep(s, e);
    if e.Put? {
      PutKeepsCoherentIff(s, e.t, e.now);
    } else {
      forall h | h in Step(s, e).cache ensures EntryAgrees(Step(s, e), h) {
        assert EntryAgrees(s, h);
      }
    }
  }

  lemma {:induction false} UnchangingRun(s: State, es: seq<Event>, t: State)
    requires Leads(Unchanging, s, es, t) && Honest(s) && Coherent(s) && NoneOvertaken(s)
    ensures Coherent(t)
    decreases |es|
  {
    if es != [] {
      UnchangingStep(s, es[0]);
      UnchangingRun(Step(s, es[0]), es[1..], t);
    }
  }

  /** The cache agrees with the store until the next change of it, whatever lookups do. */
  ghost predicate AgreesFromNowOn(s: State) {
    forall es, t :: Leads(Unchanging, s, es, t) ==> Coherent(t)
  }

  /** After an invalidation: whatever lookups do until the next change of the store, the cache
      agrees with it, exactly if no lookup in flight at the invalidation was overtaken. */
  lemma InvalidationTakesEffectIff(s: State)
    requires Honest(s)
    ensures AgreesFromNowOn(Step(s, Invalidate)) <==> NoneOvertaken(s)
  {
    var s' := Step(s, Invalidate);
    HonestStep(s, Invalidate);
    if NoneOvertaken(s) {
      assert forall t :: t in s'.flights ==> Harmless(s, s'.flights[t]) == Harmless(s', s'.flights[t]);
      forall es, t | Leads(Unchanging, s', es, t) ensures Coherent(t) {
        UnchangingRun(s', es, t);
      }
    } else {
      var k :| k in s.flights && !Harmless(s, s.flights[k]);
      assert !Harmless(s', s'.flights[k]);
      PutKeepsCoherentIff(s', k, s'.clock);
      var u := Step(s', Put(k, s'.clock));
      assert !Coherent(u);
      var es := [Put(k, s'.clock)];
      assert es[1..] == [] && Leads(Unchanging, u, [], u);
      assert Leads(Unchanging, s', es, u);
      assert !AgreesFromNowOn(s');
    }
  }

  /** Invalidations overtake no lookup whose record has changed. */
  ghost predicate Quiet(s: State, e: Event) {
    e.Invalidate? ==> NoneOvertaken(s)
  }

  ghost predicate Settled(s: State) {
    Honest(s) && (!s.dirty ==> Coherent(s) && NoneOvertaken(s))
  }

  lemma SettledStep(s: State, e: Event)
    requires Settled(s) && Enabled(s, e) && Quiet(s, e)
    ensures Settled(Step(s, e))
  {
    HonestStep(s, e);
    if e.Invalidate? {
      var s' := Step(s, e);
      assert forall t :: t in s'.flights ==> Harmless(s, s'.flights[t]) == Harmless(s', s'.flights[t]);
    } else if !s.dirty && !e.Mutate? {
      UnchangingStep(s, e);
    }
  }

  /** In quiet runs, mutations included, the cache agrees with the store whenever every
      mutation has been followed by its invalidation. */
  lemma {:induction false} CoherentRun(s: State, es: seq<Event>, t: State)
    requires Leads(Quiet, s, es, t) && Settled(s)
    ensures Settled(t) && (!t.dirty ==> Coherent(t))
    decreases |es|
  {
    if es != [] {
      SettledStep(s, es[0]);
      CoherentRun(Step(s, es[0]), es[1..], t);
    }
  }

  /** A lookup overtaken by a deletion and its invalidation puts the deleted tenant back. */
  lemma DeletedTenantStillServed(h: Hash, tenant: Tenant)
    ensures var es := [Miss(0, h, false), Mutate(map[]), Invalidate, Put(0, 5)];
      exists s :: (
        && Leads(Anything, Start(map[h := tenant]), es, s)
        && !s.dirty && s.versions != [] && Fetch(Current(s), h) == None && Lookup(s, h) == Some(Some(tenant)))
  {
    var es := [Miss(0, h, false), Mutate(map[]), Invalidate, Put(0, 5)];
    var f := Flight(h, Some(tenant), 0, false);
    var r: Records := map[h := tenant];
    var s0 := Start(r);
    var s1 := State(0, [r], map[], map[0 := f], false);
    var s2 := State(0, [r, map[]], map[], map[0 := f], true);
    var s3 := State(0, [r, map[]], map[], map[0 := f], false);
    var s4 := State(5, [r, map[]], map[h := Entry(Some(tenant), 5, 0, false)], map[], false);
    assert Step(s0, es[0]) == s1;
    assert [r] + [map[]] == [r, map[]];
    assert Step(s1, es[1]) == s2 && Step(s2, es[2]) == s3 && Step(s3, es[3]) == s4;
    assert es[1..] == [Mutate(map[]), Invalidate, Put(0, 5)];
    assert es[1..][1..] == [Invalidate, Put(0, 5)] && es[1..][1..][1..] == [Put(0, 5)];
    assert es[1..][1..][1..][1..] == [];
    assert Leads(Anything, s4, [], s4);
    assert Leads(Anything, s3, [Put(0, 5)], s4);
    assert Leads(Anything, s2, [Invalidate, Put(0, 5)], s4);
    assert Leads(Anything, s1, [Mutate(map[]), Invalidate, Put(0, 5)], s4);
  }

  // ---------------------------------------------------------------- the cache in place

  class Cache {
    var inner: map<Hash, (Option<Tenant>, int)>

    constructor ()
      ensures inner == map[]
    {
      inner := map[];
    }

    method Get(h: Hash, now: int) returns (r: Option<Option<Tenant>>)
      ensures r == if h in inner && now - inner[h].1 <= CACHE_TTL then Some(inner[h].0) else None
    {
      if h !in inner || now - inner[h].1 > CACHE_TTL {
        return None;
      }
      return Some(inner[h].0);
    }

    method Put(h: Hash, value: Option<Tenant>, now: int)
      modifies this
      ensures inner == old(inner)[h := (value, now)]
    {
      inner := inner[h := (value, now)];
    }

    method InvalidateAll()
      modifies this
      ensures inner == map[]
    {
      inner := map[];
    }

    /** `resolve_api_key` without interference; `fetched` is what Redis answers, None on error. */
    method ResolveApiKey(h: Hash, fetched: Option<Tenant>, now: int) returns (r: Option<Tenant>)
      modifies this
      ensures r.Some? ==> r.value.active
      ensures var hit := h in old(inner) && now - old(inner)[h].1 <= CACHE_TTL;
        && (inner == if hit then old(inner) else old(inner)[h := (fetched, now)])
        && var value := if hit then old(inner)[h].0 else fetched;
           r == if value.Some? && value.value.active then value else None
    {
      var cached := Get(h, now);
      var value := fetched;
      if cached.Some? {
        value := cached.value;
      } else {
        Put(h, fetched, now);
      }
      r := if value.Some? && value.value.active then value else None;
    }
  }

  // ---------------------------------------------------------------- the operator's and the clients' side together

  /** A server process: the store behind its cache.  Each method is one handler, undisturbed. */
  class Gateway {
    const store: TenantStore.Redis
    const cache: Cache

    /** Every cached value is the store's. */
    ghost predicate Agrees()
      reads store, cache
    {
      forall h :: h in cache.inner ==> cache.inner[h].0 == TenantStore.FetchByHash(store.Contents(), h)
    }

    constructor (store: TenantStore.Redis)
      ensures this.store == store && fresh(cache) && Agrees()
    {
      this.store := store;
      cache := new Cache();
    }

    /** What a connecting client gets is what the store says now, cached or not. */
    method Connect(h: Hash, now: int) returns (r: Option<Tenant>)
      requires Agrees()
      modifies cache
      ensures Agrees() && r == TenantStore.Resolve(store.Contents(), h)
    {
      var fetched := if h in store.byHash then Some(store.byHash[h]) else None;
      r := cache.ResolveApiKey(h, fetched, now);
    }

    /** Rotation and invalidation: the old key is refused from here on, the new one admits
        the same tenant, and every other key is as before. */
    method RotateKey(id: TenantStore.TenantId, h: Hash) returns (rotated: bool)
      requires Agrees() && TenantStore.Mutual(store.Contents()) && h !in store.byHash
      modifies store, cache
      ensures Agrees() && TenantStore.Mutual(store.Contents())
      ensures rotated <==> id in old(store.byId)
      ensures !rotated ==> store.Contents() == old(store.Contents())
      ensures rotated ==>
        forall k ::
          TenantStore.Resolve(store.Contents(), k)
          == if k == old(store.byId)[id] then None
             else TenantStore.Resolve(old(store.Contents()), if k == h then old(store.byId)[id] else k)
    {
      ghost var before := store.Contents();
      TenantStore.MutualStep(store.norm, before, TenantStore.ERotate(id, h));
      rotated := store.RotateApiKey(id, h);
      if rotated {
        cache.InvalidateAll();
        forall k ensures TenantStore.Resolve(store.Contents(), k)
          == if k == before.byId[id] then None
             else TenantStore.Resolve(before, if k == h then before.byId[id] else k)
        {
          TenantStore.RotateRetiresExactly(before, id, h, k);
        }
      }
    }
  }
}
