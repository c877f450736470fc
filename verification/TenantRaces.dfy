/** The tenant operations one Redis round trip at a time: each reads the indexes first and
    writes later, and another operation may come between (src/tenant.rs). */
module TenantRaces {
  import opened Identifiers
  import opened TenantStore

  type Task = nat

  /** What an operation has read so far. */
  datatype Job =
    | Updating(t: Tenant, h: Hash)                    // SET of the record to come
    | Rotating(id: TenantId, h: Hash)                 // GET of the record to come
    | Rekeying(id: TenantId, h: Hash, t: Tenant)      // pipeline to come
    | Deleting(id: TenantId, h: Hash)                 // GET of the record to come
    | Erasing(id: TenantId, h: Hash, email: Option<string>)   // pipeline to come

  /** `owner` is a ledger of the keys ever minted; no step reads it. */
  datatype State = State(store: Store, jobs: map<Task, Job>, owner: map<Hash, TenantId>)

  const START := State(INIT, map[], map[])

  datatype Event =
    | Make(t: Tenant, h: Hash)
    | BeginUpdate(k: Task, t: Tenant)
    | BeginRotate(k: Task, id: TenantId)
    | BeginDelete(k: Task, id: TenantId)
    | Read(k: Task)
    | Write(k: Task, h: Hash)     // `h` is the new key of a rotation

  predicate Enabled(s: State, e: Event) {
    match e
    case Make(t, h) => t.id !in s.store.byId && h !in s.owner
    case Read(k) => k in s.jobs && (s.jobs[k].Rotating? || s.jobs[k].Deleting?)
    case Write(k, h) => k in s.jobs && !s.jobs[k].Rotating? && !s.jobs[k].Deleting? && h !in s.owner
    case _ => e.k !in s.jobs
  }

  function JobId(j: Job): TenantId { if j.Updating? then j.t.id else j.id }

  /** The GET of the id index with which every operation begins. */
  function Begin(s: State, k: Task, id: TenantId, j: Hash -> Job): State {
    if id in s.store.byId then s.(jobs := s.jobs[k := j(s.store.byId[id])]) else s
  }

  /** A rotation that finds no record gives up; a deletion goes on without an email. */
  function ReadRecord(s: State, k: Task, j: Job): State
    requires j.Rotating? || j.Deleting?
  {
    var found := FetchByHash(s.store, j.h);
    if j.Deleting? then
      s.(jobs := s.jobs[k := Erasing(j.id, j.h, if found.Some? then found.value.email else None)])
    else if found.None? then s.(jobs := s.jobs - {k})
    else s.(jobs := s.jobs[k := Rekeying(j.id, j.h, found.value)])
  }

  function Written(norm: string -> string, r: Store, j: Job, h: Hash): Store
    requires !j.Rotating? && !j.Deleting?
  {
    match j
    case Updating(t, at) => r.(byHash := r.byHash[at := t])
    case Rekeying(id, was, t) => r.(byHash := r.byHash[h := t] - {was}, byId := r.byId[id := h])
    case Erasing(id, was, email) =>
      Store(r.byHash - {was}, r.byId - {id}, if email.Some? then r.byEmail - {norm(email.value)} else r.byEmail)
  }

  function Step(norm: string -> string, s: State, e: Event): State
    requires Enabled(s, e)
  {
    match e
    case Make(t, h) => s.(store := Create(norm, s.store, t, h), owner := s.owner[h := t.id])
    case BeginUpdate(k, t) => Begin(s, k, t.id, h => Updating(t, h))
    case BeginRotate(k, id) => Begin(s, k, id, h => Rotating(id, h))
    case BeginDelete(k, id) => Begin(s, k, id, h => Deleting(id, h))
    case Read(k) => ReadRecord(s, k, s.jobs[k])
    case Write(k, h) =>
      var j := s.jobs[k];
      State(Written(norm, s.store, j, h), s.jobs - {k}, if j.Rekeying? then s.owner[h := j.id] else s.owner)
  }

  /** Whatever the state of the indexes, an operation goes on exactly if its id is known, with the
      hash the id index names. */
  lemma BeginsIff(s: State, k: Task, id: TenantId, j: Hash -> Job)
    requires k !in s.jobs
    ensures var s' := Begin(s, k, id, j);
      && (k in s'.jobs <==> id in s.store.byId) && (k in s'.jobs ==> s'.jobs[k] == j(s.store.byId[id]))
      && s'.store == s.store
  {
  }

  // ---------------------------------------------------------------- alone, the steps are the operation

  /** Read and write of an operation that nobody overtakes are its step in the store. */
  lemma UndisturbedIsStep(norm: string -> string, s: State, k: Task, id: TenantId, t: Tenant, h: Hash)
    requires Mutual(s.store) && k !in s.jobs && h !in s.owner && id in s.store.byId && t.id == id
    ensures var at := s.store.byId[id];
      var rec := s.store.byHash[at];
      && Begin(s, k, id, x => Updating(t, x)).jobs[k] == Updating(t, at)
      && Written(norm, s.store, Updating(t, at), h) == Update(s.store, t)
      && ReadRecord(s, k, Rotating(id, at)).jobs[k] == Rekeying(id, at, rec)
      && Written(norm, s.store, Rekeying(id, at, rec), h) == Rotate(s.store, id, h)
      && ReadRecord(s, k, Deleting(id, at)).jobs[k] == Erasing(id, at, rec.email)
      && Written(norm, s.store, Erasing(id, at, rec.email), h) == Delete(norm, s.store, id)
  {
  }

  // ---------------------------------------------------------------- keys have one owner

  ghost predicate JobOwned(s: State, j: Job) {
    j.h in s.owner && s.owner[j.h] == JobId(j) && (j.Rekeying? ==> j.t.id == j.id)
  }

  /** Every key belongs to one tenant for ever, whoever overtakes whom. */
  ghost predicate Owned(s: State) {
    && (forall h :: h in s.store.byHash ==> h in s.owner && s.owner[h] == s.store.byHash[h].id)
    && (forall id :: id in s.store.byId ==> s.store.byId[id] in s.owner && s.owner[s.store.byId[id]] == id)
    && (forall k :: k in s.jobs ==> JobOwned(s, s.jobs[k]))
  }

  lemma WrittenOwned(norm: string -> string, s: State, k: Task, h: Hash)
    requires Owned(s) && Enabled(s, Write(k, h))
    ensures Owned(Step(norm, s, Write(k, h)))
  {
    var j := s.jobs[k];
    assert JobOwned(s, j);
    var s' := Step(norm, s, Write(k, h));
    forall x | x in s'.jobs ensures JobOwned(s', s'.jobs[x]) {
      assert JobOwned(s, s.jobs[x]);
    }
  }

  lemma ReadOwned(norm: string -> string, s: State, k: Task)
    requires Owned(s) && Enabled(s, Read(k))
    ensures Owned(Step(norm, s, Read(k)))
  {
    var s' := Step(norm, s, Read(k));
    assert JobOwned(s, s.jobs[k]);
    forall x | x in s'.jobs ensures JobOwned(s', s'.jobs[x]) {
      assert JobOwned(s, s.jobs[x]);
    }
  }

  lemma OwnedStep(norm: string -> string, s: State, e: Event)
    requires Owned(s) && Enabled(s, e)
    ensures Owned(Step(norm, s, e))
  {
    var s' := Step(norm, s, e);
    match e
    case Read(k) => ReadOwned(norm, s, k);
    case Write(k, h) => WrittenOwned(norm, s, k, h);
    case _ =>
      forall x | x in s'.jobs ensures JobOwned(s', s'.jobs[x]) {
        assert x in s.jobs ==> JobOwned(s, s.jobs[x]);
      }
  }

  // ---------------------------------------------------------------- exactly which writes are safe

  /** The tenant still has the key the operation read; a rotation or a deletion may also
      find the tenant gone. */
  predicate NotOvertaken(r: Store, j: Job) {
    if JobId(j) in r.byId then r.byId[JobId(j)] == j.h else !j.Updating?
  }

  lemma UpdateMutualIff(r: Store, t: Tenant, h: Hash)
    requires Mutual(r)
    ensures Mutual(r.(byHash := r.byHash[h := t])) <==> t.id in r.byId && r.byId[t.id] == h
  {
    var r' := r.(byHash := r.byHash[h := t]);
    assert r'.byHash[h].id == t.id;
  }

  lemma RekeyMutualIff(r: Store, id: TenantId, was: Hash, t: Tenant, h: Hash)
    requires Mutual(r) && t.id == id && h !in r.byHash && h != was && (was in r.byHash ==> r.byHash[was].id == id)
    ensures Mutual(r.(byHash := r.byHash[h := t] - {was}, byId := r.byId[id := h]))
       <==> (id in r.byId ==> r.byId[id] == was)
  {
    var r' := r.(byHash := r.byHash[h := t] - {was}, byId := r.byId[id := h]);
    if id in r.byId && r.byId[id] != was {
      assert r'.byHash[r.byId[id]].id == id;
    }
  }

  lemma EraseMutualIff(r: Store, id: TenantId, was: Hash, emails: map<string, TenantId>)
    requires Mutual(r) && (was in r.byHash ==> r.byHash[was].id == id)
    ensures Mutual(Store(r.byHash - {was}, r.byId - {id}, emails)) <==> (id in r.byId ==> r.byId[id] == was)
  {
    var r' := Store(r.byHash - {was}, r.byId - {id}, emails);
    if id in r.byId && r.byId[id] != was {
      assert r'.byHash[r.byId[id]].id == id;
    }
  }

  lemma WrittenMutualIff(norm: string -> string, s: State, j: Job, h: Hash)
    requires Owned(s) && JobOwned(s, j) && Mutual(s.store) && h !in s.owner && !j.Rotating? && !j.Deleting?
    ensures Mutual(Written(norm, s.store, j, h)) <==> NotOvertaken(s.store, j)
  {
    match j
    case Updating(t, at) => UpdateMutualIff(s.store, t, at);
    case Rekeying(id, was, t) => RekeyMutualIff(s.store, id, was, t, h);
    case Erasing(id, was, email) => EraseMutualIff(s.store, id, was, Written(norm, s.store, j, h).byEmail);
  }

  predicate Timely(s: State, e: Event) {
    e.Write? && e.k in s.jobs ==> NotOvertaken(s.store, s.jobs[e.k])
  }

  /** A step keeps the indexes mutually inverse exactly if it is no write of an overtaken operation. */
  lemma MutualStepIff(norm: string -> string, s: State, e: Event)
    requires Owned(s) && Mutual(s.store) && Enabled(s, e)
    ensures Mutual(Step(norm, s, e).store) <==> Timely(s, e)
  {
    if e.Write? {
      assert JobOwned(s, s.jobs[e.k]);
      WrittenMutualIff(norm, s, s.jobs[e.k], e.h);
    } else if e.Make? {
      assert e.h !in s.store.byHash;
      MutualStep(norm, s.store, ECreate(e.t, e.h));
    } else {
      assert Step(norm, s, e).store == s.store;
    }
  }

  ghost predicate Leads(norm: string -> string, P: (State, Event) -> bool, s: State, es: seq<Event>, t: State)
    decreases |es|
  {
    if es == [] then s == t
    else Enabled(s, es[0]) && P(s, es[0]) && Leads(norm, P, Step(norm, s, es[0]), es[1..], t)
  }

  ghost predicate Anything(s: State, e: Event) { true }

  /** The indexes are mutually inverse at every moment of the run. */
  ghost predicate MutualThroughout(norm: string -> string, s: State, es: seq<Event>)
    decreases |es|
  {
    && Mutual(s.store)
    && (es == [] || (Enabled(s, es[0]) && MutualThroughout(norm, Step(norm, s, es[0]), es[1..])))
  }

  /** Over all interleavings with fresh ids and keys: id to hash and hash to tenant stay mutually
      inverse throughout exactly if no operation writes after another changed the tenant's key. */
  lemma {:induction false} MutualThroughoutIff(norm: string -> string, s: State, es: seq<Event>, t: State)
    requires Leads(norm, Anything, s, es, t) && Owned(s) && Mutual(s.store)
    ensures MutualThroughout(norm, s, es) <==> Leads(norm, Timely, s, es, t)
    decreases |es|
  {
    if es != [] {
      MutualStepIff(norm, s, es[0]);
      OwnedStep(norm, s, es[0]);
      if Timely(s, es[0]) {
        MutualThroughoutIff(norm, Step(norm, s, es[0]), es[1..], t);
      } else {
        assert !Mutual(Step(norm, s, es[0]).store);
      }
    }
  }

  /** An update that read the old key and writes after a rotation brings the retired key back. */
  lemma UpdateRevivesRetiredKey(norm: string -> string)
    ensures var t := Tenant(TenantId("a"), true, None, None, "");
      var k0, k1 := HashApiKey("old"), HashApiKey("new");
      var es := [Make(t, k0), BeginUpdate(1, t), BeginRotate(2, t.id), Read(2), Write(2, k1), Write(1, HashApiKey(""))];
      exists s :: (
        && Leads(norm, Anything, START, es, s) && s.jobs == map[]
        && Resolve(s.store, k0) == Some(t) && Resolve(s.store, k1) == Some(t) && s.store.byId == map[t.id := k1])
  {
    var t := Tenant(TenantId("a"), true, None, None, "");
    var k0, k1 := HashApiKey("old"), HashApiKey("new");
    assert "old"[0] != "new"[0];
    var es := [Make(t, k0), BeginUpdate(1, t), BeginRotate(2, t.id), Read(2), Write(2, k1), Write(1, HashApiKey(""))];
    var r := Store(map[k0 := t], map[t.id := k0], map[]);
    var s1 := State(r, map[], map[k0 := t.id]);
    var s2 := s1.(jobs := map[1 := Updating(t, k0)]);
    var s3 := s1.(jobs := map[1 := Updating(t, k0), 2 := Rotating(t.id, k0)]);
    var s4 := s1.(jobs := map[1 := Updating(t, k0), 2 := Rekeying(t.id, k0, t)]);
    var owner := map[k0 := t.id, k1 := t.id];
    var s5 := State(Store(map[k1 := t], map[t.id := k1], map[]), map[1 := Updating(t, k0)], owner);
    var s6 := State(Store(map[k1 := t, k0 := t], map[t.id := k1], map[]), map[], owner);
    assert Step(norm, START, es[0]) == s1;
    assert Step(norm, s1, es[1]) == s2;
    assert s2.jobs[2 := Rotating(t.id, k0)] == s3.jobs;
    assert Step(norm, s2, es[2]) == s3;
    assert s3.jobs[2 := Rekeying(t.id, k0, t)] == s4.jobs;
    assert Step(norm, s3, es[3]) == s4;
    assert r.byHash[k1 := t] - {k0} == map[k1 := t];
    assert s4.jobs - {2} == s5.jobs;
    assert Step(norm, s4, es[4]) == s5;
    assert s5.store.byHash[k0 := t] == s6.store.byHash;
    assert Step(norm, s5, es[5]) == s6;
    LastSteps(norm, s3, s4, s5, s6, es[3..]);
    assert es[1..][0] == es[1] && es[1..][1..] == es[2..] && es[2..][0] == es[2] && es[2..][1..] == es[3..];
    assert Leads(norm, Anything, s2, es[2..], s6);
    assert Leads(norm, Anything, s1, es[1..], s6);
  }

  lemma LastSteps(norm: string -> string, s: State, s1: State, s2: State, s3: State, es: seq<Event>)
    requires |es| == 3 && Enabled(s, es[0]) && Enabled(s1, es[1]) && Enabled(s2, es[2])
    requires Step(norm, s, es[0]) == s1 && Step(norm, s1, es[1]) == s2 && Step(norm, s2, es[2]) == s3
    ensures Leads(norm, Anything, s, es, s3)
  {
    assert es[1..][0] == es[1] && es[1..][1..][0] == es[2] && es[1..][1..][1..] == [];
    assert Leads(norm, Anything, s3, [], s3);
    assert Leads(norm, Anything, s2, es[1..][1..], s3);
    assert Leads(norm, Anything, s1, es[1..], s3);
  }
}
