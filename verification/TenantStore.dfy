/** The three tenant indexes in Redis and the operations that keep them together
    (src/tenant.rs).  API keys appear only as hashes. */
module TenantStore {
  import opened Identifiers

  /** SHA-256 of an API key, taken to be injective. */
  datatype Hash = HashApiKey(key: string)

  datatype TenantId = TenantId(name: string)

  /** `profile` stands for the fields no operation here looks at. */
  datatype Tenant = Tenant(id: TenantId, active: bool, email: Option<string>, jwtSecret: Option<string>,
                           profile: string)

  datatype Store = Store(
    byHash: map<Hash, Tenant>,
    byId: map<TenantId, Hash>,
    byEmail: map<string, TenantId>)

  const INIT := Store(map[], map[], map[])

  function FetchByHash(s: Store, h: Hash): Option<Tenant> {
    if h in s.byHash then Some(s.byHash[h]) else None
  }

  /** Unknown keys and suspended tenants resolve to nothing. */
  function Resolve(s: Store, h: Hash): Option<Tenant> {
    if h in s.byHash && s.byHash[h].active then Some(s.byHash[h]) else None
  }

  // `norm` is the trimming and lower-casing of email addresses; any function will do.

  function Create(norm: string -> string, s: Store, t: Tenant, h: Hash): Store {
    Store(s.byHash[h := t], s.byId[t.id := h],
          if t.email.Some? then s.byEmail[norm(t.email.value) := t.id] else s.byEmail)
  }

  /** The email index is not touched. */
  function Update(s: Store, t: Tenant): Store {
    if t.id !in s.byId then s else s.(byHash := s.byHash[s.byId[t.id] := t])
  }

  function Rotate(s: Store, id: TenantId, h: Hash): Store {
    if id !in s.byId || s.byId[id] !in s.byHash then s
    else
      var was := s.byId[id];
      s.(byHash := s.byHash[h := s.byHash[was]] - {was}, byId := s.byId[id := h])
  }

  /** The email entry goes whoever it points at. */
  function Delete(norm: string -> string, s: Store, id: TenantId): Store {
    if id !in s.byId then s
    else
      var h := s.byId[id];
      var email := if h in s.byHash then s.byHash[h].email else None;
      Store(s.byHash - {h}, s.byId - {id}, if email.Some? then s.byEmail - {norm(email.value)} else s.byEmail)
  }

  datatype Event =
    | ECreate(t: Tenant, h: Hash)
    | EUpdate(t: Tenant)
    | ERotate(id: TenantId, h: Hash)
    | EDelete(id: TenantId)

  function Step(norm: string -> string, s: Store, e: Event): Store {
    match e
    case ECreate(t, h) => Create(norm, s, t, h)
    case EUpdate(t) => Update(s, t)
    case ERotate(id, h) => Rotate(s, id, h)
    case EDelete(id) => Delete(norm, s, id)
  }

  /** New ids and keys are unused, and updates keep the email (they re-store a
      loaded tenant with a new JWT secret). */
  predicate Fresh(s: Store, e: Event) {
    match e
    case ECreate(t, h) => t.id !in s.byId && h !in s.byHash
    case EUpdate(t) => t.id in s.byId && s.byId[t.id] in s.byHash ==> s.byHash[s.byId[t.id]].email == t.email
    case ERotate(id, h) => h !in s.byHash
    case EDelete(id) => true
  }

  ghost predicate Leads(norm: string -> string, P: (Store, Event) -> bool, s: Store, es: seq<Event>, t: Store)
    decreases |es|
  {
    if es == [] then s == t
    else P(s, es[0]) && Leads(norm, P, Step(norm, s, es[0]), es[1..], t)
  }

  // ---------------------------------------------------------------- invariants

  /** id to hash and hash to tenant are mutually inverse on ids. */
  ghost predicate Mutual(s: Store) {
    && (forall id :: id in s.byId ==> s.byId[id] in s.byHash && s.byHash[s.byId[id]].id == id)
    && (forall h :: h in s.byHash ==> s.byHash[h].id in s.byId && s.byId[s.byHash[h].id] == h)
  }

  /** An email entry points at an existing tenant that has that email. */
  ghost predicate EmailPointsHome(norm: string -> string, s: Store, e: string)
    requires e in s.byEmail
  {
    && s.byEmail[e] in s.byId && s.byId[s.byEmail[e]] in s.byHash
    && var t := s.byHash[s.byId[s.byEmail[e]]]; t.email.Some? && norm(t.email.value) == e
  }

  ghost predicate NoDangling(norm: string -> string, s: Store) {
    forall e :: e in s.byEmail ==> EmailPointsHome(norm, s, e)
  }

  lemma MutualStep(norm: string -> string, s: Store, e: Event)
    requires Mutual(s) && Fresh(s, e)
    ensures Mutual(Step(norm, s, e))
  {
    match e
    case ECreate(t, h) =>
    case EUpdate(t) =>
    case ERotate(id, h) =>
    case EDelete(id) =>
  }

  lemma NoDanglingCreate(norm: string -> string, s: Store, t: Tenant, h: Hash)
    requires Mutual(s) && NoDangling(norm, s) && t.id !in s.byId && h !in s.byHash
    ensures NoDangling(norm, Create(norm, s, t, h))
  {
    var s' := Create(norm, s, t, h);
    forall x | x in s'.byEmail ensures EmailPointsHome(norm, s', x) {
      assert x in s.byEmail ==> EmailPointsHome(norm, s, x);
    }
  }

  lemma NoDanglingDelete(norm: string -> string, s: Store, id: TenantId)
    requires Mutual(s) && NoDangling(norm, s)
    ensures NoDangling(norm, Delete(norm, s, id))
  {
    var s' := Delete(norm, s, id);
    forall x | x in s'.byEmail ensures EmailPointsHome(norm, s', x) {
      assert EmailPointsHome(norm, s, x);
    }
  }

  lemma NoDanglingStep(norm: string -> string, s: Store, e: Event)
    requires Mutual(s) && NoDangling(norm, s) && Fresh(s, e)
    ensures NoDangling(norm, Step(norm, s, e))
  {
    match e
    case ECreate(t, h) => NoDanglingCreate(norm, s, t, h);
    case EDelete(id) => NoDanglingDelete(norm, s, id);
    case _ =>
      var s' := Step(norm, s, e);
      forall x | x in s'.byEmail ensures EmailPointsHome(norm, s', x) {
        assert EmailPointsHome(norm, s, x);
      }
  }

  /** Over all runs with fresh ids and keys the indexes stay consistent. */
  lemma {:induction false} ConsistentRun(norm: string -> string, s: Store, es: seq<Event>, t: Store)
    requires Leads(norm, Fresh, s, es, t) && Mutual(s) && NoDangling(norm, s)
    ensures Mutual(t) && NoDangling(norm, t)
    decreases |es|
  {
    if es != [] {
      MutualStep(norm, s, es[0]);
      NoDanglingStep(norm, s, es[0]);
      ConsistentRun(norm, Step(norm, s, es[0]), es[1..], t);
    }
  }

  function FindByEmail(norm: string -> string, s: Store, email: string): Option<TenantId> {
    if norm(email) in s.byEmail then Some(s.byEmail[norm(email)]) else None
  }

  function KeyOf(s: Store, id: TenantId): Option<Hash> {
    if id in s.byId then Some(s.byId[id]) else None
  }

  /** Creation makes the new key resolve to the tenant given, all of it, if it is active; its id
      and its email lead to it, and every other key, id and email to what they did. */
  lemma CreateAddsExactly(norm: string -> string, s: Store, t: Tenant, h: Hash,
                          other: Hash, id: TenantId, email: string)
    ensures var s' := Create(norm, s, t, h);
      && Resolve(s', other) == (if other != h then Resolve(s, other) else if t.active then Some(t) else None)
      && KeyOf(s', id) == (if id == t.id then Some(h) else KeyOf(s, id))
      && FindByEmail(norm, s', email)
         == if t.email.Some? && norm(t.email.value) == norm(email) then Some(t.id) else FindByEmail(norm, s, email)
  {
  }

  /** An update replaces what the tenant's own key resolves to, and nothing else. */
  lemma UpdateReplacesExactly(s: Store, t: Tenant, other: Hash)
    requires Mutual(s)
    ensures Resolve(Update(s, t), other)
         == if other in s.byHash && s.byHash[other].id == t.id then (if t.active then Some(t) else None)
            else Resolve(s, other)
    ensures Update(s, t).byId == s.byId && Update(s, t).byEmail == s.byEmail
  {
  }

  /** Rotation retires exactly the old key: the new one resolves to the same tenant,
      every other key to what it did before. */
  lemma RotateRetiresExactly(s: Store, id: TenantId, h: Hash, other: Hash)
    requires Mutual(s) && id in s.byId && h !in s.byHash
    ensures var was := s.byId[id];
      Resolve(Rotate(s, id, h), other)
      == if other == was then None else if other == h then Resolve(s, was) else Resolve(s, other)
    ensures FetchByHash(Rotate(s, id, h), h) == FetchByHash(s, s.byId[id])
  {
  }

  /** Deletion revokes the tenant's key and nobody else's. */
  lemma DeleteRevokesExactly(norm: string -> string, s: Store, id: TenantId, other: Hash)
    requires Mutual(s)
    ensures Resolve(Delete(norm, s, id), other)
         == if other in s.byHash && s.byHash[other].id == id then None else Resolve(s, other)
  {
  }

  // ---------------------------------------------------------------- emails shared by tenants

  /** Every tenant with an email can be found by it. */
  ghost predicate Findable(norm: string -> string, s: Store) {
    forall h :: h in s.byHash && s.byHash[h].email.Some? ==> FoundBy(norm, s, h)
  }

  ghost predicate FoundBy(norm: string -> string, s: Store, h: Hash)
    requires h in s.byHash && s.byHash[h].email.Some?
  {
    var e := norm(s.byHash[h].email.value);
    e in s.byEmail && s.byEmail[e] == s.byHash[h].id
  }

  /** Nobody in the store has this email. */
  predicate EmailUnused(norm: string -> string, s: Store, email: Option<string>) {
    email.Some? ==> forall h :: h in s.byHash && s.byHash[h].email.Some? ==>
      norm(s.byHash[h].email.value) != norm(email.value)
  }

  /** Creation keeps everybody findable exactly when the email is unused. */
  lemma CreateKeepsFindableIff(norm: string -> string, s: Store, t: Tenant, h: Hash)
    requires Mutual(s) && Findable(norm, s) && t.id !in s.byId && h !in s.byHash
    ensures Findable(norm, Create(norm, s, t, h)) <==> EmailUnused(norm, s, t.email)
  {
    var s' := Create(norm, s, t, h);
    if EmailUnused(norm, s, t.email) {
      forall x | x in s'.byHash && s'.byHash[x].email.Some? ensures FoundBy(norm, s', x) {
        assert x != h ==> FoundBy(norm, s, x);
      }
    } else {
      var x :| x in s.byHash && s.byHash[x].email.Some? && norm(s.byHash[x].email.value) == norm(t.email.value);
      assert s'.byHash[x] == s.byHash[x];
      assert s.byHash[x].id in s.byId;
      assert !FoundBy(norm, s', x);
    }
  }

  predicate FreshEmails(norm: string -> string, s: Store, e: Event) {
    Fresh(s, e) && (e.ECreate? ==> EmailUnused(norm, s, e.t.email))
  }

  lemma FindableStep(norm: string -> string, s: Store, e: Event)
    requires Mutual(s) && Findable(norm, s) && FreshEmails(norm, s, e)
    ensures Findable(norm, Step(norm, s, e))
  {
    var t := Step(norm, s, e);
    if e.ECreate? {
      CreateKeepsFindableIff(norm, s, e.t, e.h);
    } else {
      forall x | x in t.byHash && t.byHash[x].email.Some? ensures FoundBy(norm, t, x) {
        match e
        case EUpdate(u) => assert x in s.byHash && FoundBy(norm, s, x);
        case ERotate(id, h) =>
          if x == h && t != s {
            assert FoundBy(norm, s, s.byId[id]);
          } else {
            assert FoundBy(norm, s, x);
          }
        case EDelete(id) =>
          assert FoundBy(norm, s, x);
          if id in s.byId && s.byHash[s.byId[id]].email.Some? {
            assert FoundBy(norm, s, s.byId[id]);
          }
      }
    }
  }

  lemma {:induction false} FindableRun(norm: string -> string, s: Store, es: seq<Event>, t: Store)
    requires Leads(norm, (x, e) => FreshEmails(norm, x, e), s, es, t) && Mutual(s) && Findable(norm, s)
    ensures Mutual(t) && Findable(norm, t)
    decreases |es|
  {
    if es != [] {
      MutualStep(norm, s, es[0]);
      FindableStep(norm, s, es[0]);
      FindableRun(norm, Step(norm, s, es[0]), es[1..], t);
    }
  }

  /** Two tenants with one email: deleting the first takes the second one's sign-in away. */
  lemma SharedEmailLosesLogin(norm: string -> string, email: string)
    ensures var a := Tenant(TenantId("a"), true, Some(email), None, "");
      var b := Tenant(TenantId("b"), true, Some(email), None, "");
      var es := [ECreate(a, HashApiKey("ka")), ECreate(b, HashApiKey("kb")), EDelete(TenantId("a"))];
      exists t :: (
        && Leads(norm, Fresh, INIT, es, t)
        && Resolve(t, HashApiKey("kb")) == Some(b) && norm(email) !in t.byEmail && !Findable(norm, t))
  {
    var a := Tenant(TenantId("a"), true, Some(email), None, "");
    var b := Tenant(TenantId("b"), true, Some(email), None, "");
    var ka, kb := HashApiKey("ka"), HashApiKey("kb");
    var es := [ECreate(a, ka), ECreate(b, kb), EDelete(a.id)];
    var s1 := Store(map[ka := a], map[a.id := ka], map[norm(email) := a.id]);
    var s2 := Store(map[ka := a, kb := b], map[a.id := ka, b.id := kb], map[norm(email) := b.id]);
    var s3 := Store(map[kb := b], map[b.id := kb], map[]);
    assert a.id != b.id && ka != kb;
    assert Step(norm, INIT, es[0]) == s1;
    assert Step(norm, s1, es[1]) == s2;
    assert Step(norm, s2, es[2]) == s3;
    assert es[1..][1..][1..] == [] && es[1..][0] == es[1] && es[1..][1..][0] == es[2];
    assert Leads(norm, Fresh, s3, [], s3);
    assert Leads(norm, Fresh, s2, es[1..][1..], s3);
    assert Leads(norm, Fresh, s1, es[1..], s3);
    assert !FoundBy(norm, s3, kb);
  }

  // ---------------------------------------------------------------- the operations in place

  class Redis {
    const norm: string -> string
    var byHash: map<Hash, Tenant>
    var byId: map<TenantId, Hash>
    var byEmail: map<string, TenantId>

    ghost function Contents(): Store
      reads this
    {
      Store(byHash, byId, byEmail)
    }

    constructor (norm: string -> string)
      ensures this.norm == norm && Contents() == INIT
    {
      this.norm := norm;
      byHash, byId, byEmail := map[], map[], map[];
    }

    method CreateTenant(t: Tenant, h: Hash)
      modifies this
      ensures Contents() == Create(norm, old(Contents()), t, h)
    {
      byHash := byHash[h := t];
      byId := byId[t.id := h];
      if t.email.Some? {
        byEmail := byEmail[norm(t.email.value) := t.id];
      }
    }

    method UpdateTenant(t: Tenant) returns (found: bool)
      modifies this
      ensures found <==> t.id in old(byId)
      ensures Contents() == Update(old(Contents()), t)
    {
      if t.id !in byId {
        return false;
      }
      byHash := byHash[byId[t.id] := t];
      return true;
    }

    method RotateApiKey(id: TenantId, h: Hash) returns (rotated: bool)
      modifies this
      ensures rotated <==> id in old(byId) && old(byId)[id] in old(byHash)
      ensures Contents() == Rotate(old(Contents()), id, h)
    {
      if id !in byId {
        return false;
      }
      var was := byId[id];
      if was !in byHash {
        return false;
      }
      byHash := byHash[h := byHash[was]];
      byId := byId[id := h];
      byHash := byHash - {was};
      return true;
    }

    method DeleteTenant(id: TenantId) returns (deleted: bool)
      modifies this
      ensures deleted <==> id in old(byId)
      ensures Contents() == Delete(norm, old(Contents()), id)
    {
      if id !in byId {
        return false;
      }
      var h := byId[id];
      var email := if h in byHash then byHash[h].email else None;
      byHash := byHash - {h};
      byId := byId - {id};
      if email.Some? {
        byEmail := byEmail - {norm(email.value)};
      }
      return true;
    }
  }
}
