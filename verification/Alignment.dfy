/** Room traffic and the tenants clients are connected under now.  A membership outlives the
    connection it was made on; a tenant does not. */
module Alignment {
  import opened Identifiers
  import opened RoomModel
  import opened RoomEffects
  import opened Isolation

  /** The tenant a storage key was made under. */
  function TenantOf(k: Key): Option<string> { ParseKey(k.name).0 }

  lemma TenantOfRoomKey(s: State, c: ClientId, room: string)
    requires IsValidIdentifier(room)
    ensures TenantOf(RoomKey(s, c, room)) == Tenant(s, c)
  {
    ValidHasNoSeparator(room);
    ParseInvertsNamespace(Tenant(s, c), room);
  }

  /** All rooms `c` is in are of this tenant. */
  ghost predicate AtHome(rooms: map<Key, set<ClientId>>, c: ClientId, tenant: Option<string>) {
    forall k :: c in Members(rooms, k) ==> TenantOf(k) == tenant
  }

  /** Every registered client is in rooms of its own tenant only. */
  ghost predicate Aligned(s: State) {
    forall c :: c in s.inbox ==> AtHome(s.rooms, c, Tenant(s, c))
  }

  // ---------------------------------------------------------------- what alignment is for

  /** A room frame crosses tenants exactly if the room is not of its recipient's tenant. */
  lemma CrossesIff(cfg: Config, s: State, e: Event, d: ClientId)
    requires (e.EData? || e.EPresence?) && d != e.c && d in s.inbox && Step(cfg, s, e).inbox[d] != s.inbox[d]
    ensures d in Members(s.rooms, RoomKey(s, e.c, e.room))
    ensures Tenant(s, d) == Tenant(s, e.c) <==> TenantOf(RoomKey(s, e.c, e.room)) == Tenant(s, d)
  {
    FrameReachesMembers(cfg, s, e, d);
    TenantOfRoomKey(s, e.c, e.room);
  }

  /** In an aligned state whoever gets a room frame is connected under the sender's tenant. */
  lemma AlignedTraffic(cfg: Config, s: State, e: Event, d: ClientId)
    requires Aligned(s)
    requires (e.EData? || e.EPresence?) && d != e.c && d in s.inbox && Step(cfg, s, e).inbox[d] != s.inbox[d]
    ensures Tenant(s, d) == Tenant(s, e.c)
  {
    CrossesIff(cfg, s, e, d);
    assert AtHome(s.rooms, d, Tenant(s, d));
  }

  // ---------------------------------------------------------------- exactly which steps keep it

  /** A connect with or without an API key: a missing one leaves the tenant as it was. */
  function TenantAfter(s: State, c: ClientId, tenant: Option<string>): Option<string> {
    if tenant.Some? then tenant else Tenant(s, c)
  }

  predicate WsAccepted(s: State, e: Event)
    requires e.EWsConnect?
  {
    match KnownToken(s, e.c)
    case Some(t) => t == e.token
    case None => e.slot
  }

  predicate HttpAccepted(s: State, e: Event)
    requires e.EHttpConnect?
  {
    if e.c in s.clients then s.clients[e.c] == e.token else e.slot
  }

  /** Whatever registers a sender, or changes the tenant or the rooms of a registered client
      behind its back, finds the client's rooms to be of its tenant. */
  ghost predicate Meets(s: State, e: Event) {
    match e
    case ERegister(c) => AtHome(s.rooms, c, Tenant(s, c))
    case EHttpConnect(c, _, tenant, _) => HttpAccepted(s, e) ==> AtHome(s.rooms, c, TenantAfter(s, c, tenant))
    case EWsConnect(c, token, tenant, _) =>
      WsAccepted(s, e) && c in s.inbox ==>
        && AtHome(s.rooms, c, TenantAfter(s, c, tenant))
        && (KnownToken(s, c) == Some(token) ==>
            forall k :: k in PendingRooms(s, c) ==> TenantOf(k) == TenantAfter(s, c, tenant))
    case _ => true
  }

  /** The same senders under the same tenants. */
  ghost predicate SamePeople(s: State, t: State) {
    t.inbox.Keys == s.inbox.Keys && t.tenants == s.tenants
  }

  ghost predicate NoMoreMembers(s: State, t: State) {
    forall k :: Members(t.rooms, k) <= Members(s.rooms, k)
  }

  lemma FewerAligned(s: State, t: State)
    requires Aligned(s) && NoMoreMembers(s, t) && t.inbox.Keys <= s.inbox.Keys
    requires forall c :: c in t.inbox ==> Tenant(t, c) == Tenant(s, c)
    ensures Aligned(t)
  {
    forall c | c in t.inbox ensures AtHome(t.rooms, c, Tenant(t, c)) {
      assert AtHome(s.rooms, c, Tenant(s, c));
    }
  }

  lemma SendLocal(s: State, to: set<ClientId>, f: Frame)
    ensures SamePeople(s, Send(s, to, f)) && Send(s, to, f).rooms == s.rooms
  {
  }

  lemma RemovalLocal(s: State, c: ClientId, k: Key)
    ensures SamePeople(s, RemoveFromRoom(s, c, k)) && NoMoreMembers(s, RemoveFromRoom(s, c, k))
  {
  }

  lemma {:induction false} RemovalsLocal(s: State, c: ClientId, ks: seq<Key>)
    ensures SamePeople(s, RemoveFromRooms(s, c, ks)) && NoMoreMembers(s, RemoveFromRooms(s, c, ks))
    decreases |ks|
  {
    if ks != [] {
      RemovalLocal(s, c, ks[0]);
      RemovalsLocal(RemoveFromRoom(s, c, ks[0]), c, ks[1..]);
    }
  }

  lemma RemoveAllLocal(cfg: Config, s: State, c: ClientId, now: int, order: seq<Key>)
    ensures var t := RemoveFromAllRooms(cfg, s, c, now, order); SamePeople(s, t) && NoMoreMembers(s, t)
  {
    var s1 := s.(clientRooms := s.clientRooms - {c});
    RemovalsLocal(s1, c, order);
    if c in s.clientRooms && cfg.sessionTtl == 0 {
      assert RemoveFromAllRooms(cfg, s, c, now, order) == RemoveFromRooms(s1, c, order);
    } else {
      assert RemoveFromAllRooms(cfg, s, c, now, order).rooms == s.rooms;
    }
  }

  lemma GreetLocal(s: State, c: ClientId, k: Key, room: string)
    ensures SamePeople(s, Greet(s, c, k, room)) && Greet(s, c, k, room).rooms == s.rooms
  {
    var f := Peers(k, room, Members(s.rooms, k));
    SendLocal(s, {c}, f);
    if k in s.presence {
      SendLocal(Send(s, {c}, f), {c}, Snapshot(k, room, s.presence[k]));
    }
  }

  lemma JoinLocal(cfg: Config, s: State, c: ClientId, room: string, allowed: bool)
    ensures var t := Join(cfg, s, c, room, allowed);
      && SamePeople(s, t)
      && t.rooms == if JoinRefusal(cfg, s, c, room, allowed).Some? then s.rooms
                    else Enter(s, c, RoomKey(s, c, room)).rooms
  {
    var refusal := JoinRefusal(cfg, s, c, room, allowed);
    if refusal.Some? {
      SendLocal(s, {c}, Refused(room, refusal.value));
    } else {
      GreetLocal(Enter(s, c, RoomKey(s, c, room)), c, RoomKey(s, c, room), room);
    }
  }

  lemma JoinAligned(cfg: Config, s: State, c: ClientId, room: string, allowed: bool)
    requires Aligned(s)
    ensures Aligned(Join(cfg, s, c, room, allowed))
  {
    var t := Join(cfg, s, c, room, allowed);
    JoinLocal(cfg, s, c, room, allowed);
    if JoinRefusal(cfg, s, c, room, allowed).Some? {
      FewerAligned(s, t);
    } else {
      TenantOfRoomKey(s, c, room);
      EnteredAligned(s, c, RoomKey(s, c, room), t);
    }
  }

  lemma EnteredAligned(s: State, c: ClientId, k: Key, t: State)
    requires Aligned(s) && SamePeople(s, t) && TenantOf(k) == Tenant(s, c)
    requires t.rooms == s.rooms[k := Members(s.rooms, k) + {c}]
    ensures Aligned(t)
  {
    forall d | d in t.inbox ensures AtHome(t.rooms, d, Tenant(t, d)) {
      assert AtHome(s.rooms, d, Tenant(s, d));
    }
  }

  lemma DisconnectAligned(cfg: Config, s: State, c: ClientId, now: int, order: seq<Key>)
    requires Aligned(s)
    ensures Aligned(Disconnect(cfg, s, c, now, order))
  {
    var s1 := s.(inbox := s.inbox - {c}, clients := s.clients - {c}, tenants := s.tenants - {c});
    FewerAligned(s, s1);
    RemoveAllLocal(cfg, s1, c, now, order);
    FewerAligned(s1, Disconnect(cfg, s, c, now, order));
  }

  lemma PresenceLocal(s: State, c: ClientId, room: string, update: Option<string>)
    ensures var t := PresenceUpdate(s, c, room, update); SamePeople(s, t) && t.rooms == s.rooms
  {
    var k := RoomKey(s, c, room);
    var s1 := NotePresence(s, c, k, update);
    assert s1.inbox == s.inbox && s1.tenants == s.tenants && s1.rooms == s.rooms;
    SendLocal(s1, Members(s.rooms, k) - {c}, PresenceFrame(k, room, c, update));
  }

  lemma DataLocal(cfg: Config, s: State, c: ClientId, room: string, payload: string)
    ensures var t := RoomData(cfg, s, c, room, payload); SamePeople(s, t) && t.rooms == s.rooms
  {
    var k := RoomKey(s, c, room);
    SendLocal(s, {c}, Refused(room, RelayDisabled));
    SendLocal(s, Members(s.rooms, k) - {c}, Data(k, room, c, payload));
  }

  lemma ResyncLocal(cfg: Config, s: State, c: ClientId, k: Key)
    ensures var t := Step(cfg, s, EResync(c, k)); SamePeople(s, t) && t.rooms == s.rooms
  {
    SendLocal(s, {c}, Peers(k, RoomDisplay(k.name), Members(s.rooms, k)));
  }

  lemma TrafficLocal(cfg: Config, s: State, e: Event)
    requires e.EPresence? || e.EData? || e.EResync?
    ensures SamePeople(s, Step(cfg, s, e)) && Step(cfg, s, e).rooms == s.rooms
  {
    match e
    case EPresence(c, room, update) => PresenceLocal(s, c, room, update);
    case EData(c, room, payload) => DataLocal(cfg, s, c, room, payload);
    case EResync(c, k) => ResyncLocal(cfg, s, c, k);
  }

  lemma SameAligned(cfg: Config, s: State, e: Event)
    requires Aligned(s)
    requires e.EPresence? || e.EData? || e.EResync? || e.EDropSender? || e.EForgetToken?
    ensures Aligned(Step(cfg, s, e))
  {
    if e.EPresence? || e.EData? || e.EResync? {
      TrafficLocal(cfg, s, e);
    }
    FewerAligned(s, Step(cfg, s, e));
  }

  /** Only client `c` is touched: the others stay aligned, and it is what decides. */
  lemma OneTouched(s: State, t: State, c: ClientId)
    requires Aligned(s) && t.inbox.Keys <= s.inbox.Keys + {c}
    requires forall d :: d != c ==> Tenant(t, d) == Tenant(s, d)
    requires forall k :: Members(t.rooms, k) <= Members(s.rooms, k) + {c}
    ensures Aligned(t) <==> (c in t.inbox ==> AtHome(t.rooms, c, Tenant(t, c)))
  {
    if c in t.inbox ==> AtHome(t.rooms, c, Tenant(t, c)) {
      forall d | d in t.inbox ensures AtHome(t.rooms, d, Tenant(t, d)) {
        if d != c {
          assert AtHome(s.rooms, d, Tenant(s, d));
        }
      }
    }
  }

  lemma HttpAlignedIff(s: State, c: ClientId, token: Token, tenant: Option<string>, slot: bool)
    requires Aligned(s)
    ensures Aligned(HttpConnect(s, c, token, tenant, slot)) <==> Meets(s, EHttpConnect(c, token, tenant, slot))
  {
    if HttpAccepted(s, EHttpConnect(c, token, tenant, slot)) {
      OneTouched(s, HttpConnect(s, c, token, tenant, slot), c);
    }
  }

  lemma RestoredAtHomeIff(s: State, c: ClientId, t: State, tenant: Option<string>)
    requires c in s.pending && Restored(s, c, t)
    ensures AtHome(t.rooms, c, tenant)
       <==> AtHome(s.rooms, c, tenant) && forall k :: k in PendingRooms(s, c) ==> TenantOf(k) == tenant
  {
    assert forall k :: c in Members(t.rooms, k) <==> c in Members(s.rooms, k) || k in PendingRooms(s, c);
  }

  lemma IdentifyAlignedIff(s: State, c: ClientId, token: Token, tenant: Option<string>)
    requires Aligned(s)
    ensures Aligned(Identify(s, c, token, tenant))
       <==> (c in s.inbox ==> AtHome(s.rooms, c, TenantAfter(s, c, tenant)))
    ensures Tenant(Identify(s, c, token, tenant), c) == TenantAfter(s, c, tenant)
  {
    OneTouched(s, Identify(s, c, token, tenant), c);
  }

  lemma RestoreAlignedIff(s: State, c: ClientId, token: Token, tenant: Option<string>)
    requires Aligned(s) && c in s.pending
    ensures Aligned(Restore(Identify(s, c, token, tenant), c))
       <==> (c in s.inbox ==>
               && AtHome(s.rooms, c, TenantAfter(s, c, tenant))
               && forall k :: k in PendingRooms(s, c) ==> TenantOf(k) == TenantAfter(s, c, tenant))
  {
    var t := Restore(Identify(s, c, token, tenant), c);
    RestoreAfterIdentify(s, c, token, tenant);
    RestoredAtHomeIff(s, c, t, TenantAfter(s, c, tenant));
    OneTouched(s, t, c);
  }

  lemma KnownAlignedIff(s: State, c: ClientId, token: Token, tenant: Option<string>, slot: bool)
    requires Aligned(s) && KnownToken(s, c) == Some(token)
    ensures Aligned(WsConnect(s, c, token, tenant, slot)) <==> Meets(s, EWsConnect(c, token, tenant, slot))
  {
    if c in s.pending {
      RestoreAlignedIff(s, c, token, tenant);
    } else {
      IdentifyAlignedIff(s, c, token, tenant);
    }
  }

  lemma NewAlignedIff(s: State, c: ClientId, token: Token, tenant: Option<string>)
    requires Aligned(s) && KnownToken(s, c).None?
    ensures Aligned(WsConnect(s, c, token, tenant, true)) <==> Meets(s, EWsConnect(c, token, tenant, true))
  {
    OneTouched(s, WsConnect(s, c, token, tenant, true), c);
  }

  lemma WsAlignedIff(s: State, c: ClientId, token: Token, tenant: Option<string>, slot: bool)
    requires Aligned(s)
    ensures Aligned(WsConnect(s, c, token, tenant, slot)) <==> Meets(s, EWsConnect(c, token, tenant, slot))
  {
    if KnownToken(s, c) == Some(token) {
      KnownAlignedIff(s, c, token, tenant, slot);
    } else if KnownToken(s, c).None? && slot {
      NewAlignedIff(s, c, token, tenant);
    } else {
      assert WsConnect(s, c, token, tenant, slot) == s;
    }
  }

  /** One step keeps all registered clients aligned exactly if it meets them aligned. */
  lemma AlignedStepIff(cfg: Config, s: State, e: Event)
    requires Aligned(s) && Enabled(cfg, s, e)
    ensures Aligned(Step(cfg, s, e)) <==> Meets(s, e)
  {
    match e
    case EJoin(c, room, allowed) => JoinAligned(cfg, s, c, room, allowed);
    case ELeave(c, room) =>
      RemovalLocal(s, c, RoomKey(s, c, room));
      assert NoMoreMembers(s, Leave(s, c, room));
      FewerAligned(s, Leave(s, c, room));
    case EDisconnect(c, now, order) => DisconnectAligned(cfg, s, c, now, order);
    case EExpire(c, now) =>
      RemovalsLocal(s.(pending := s.pending - {c}), c, PendingRooms(s, c));
      FewerAligned(s, Expire(s, c));
    case EWsConnect(c, token, tenant, slot) => WsAlignedIff(s, c, token, tenant, slot);
    case EHttpConnect(c, token, tenant, slot) => HttpAlignedIff(s, c, token, tenant, slot);
    case ERegister(c) => OneTouched(s, Step(cfg, s, e), c);
    case _ => SameAligned(cfg, s, e);
  }

  // ---------------------------------------------------------------- over runs

  /** Aligned at every moment of the run. */
  ghost predicate AlignedThroughout(cfg: Config, s: State, es: seq<Event>)
    decreases |es|
  {
    Aligned(s) && (es == [] || AlignedThroughout(cfg, Step(cfg, s, es[0]), es[1..]))
  }

  /** In every run: registered clients are in rooms of their own tenant throughout exactly if every
      step that registers a sender, or changes its tenant or rooms, finds them to be. */
  lemma {:induction false} AlignedThroughoutIff(cfg: Config, s: State, es: seq<Event>)
    requires Run(cfg, s, es, Anything) && Aligned(s)
    ensures AlignedThroughout(cfg, s, es) <==> Run(cfg, s, es, Meets)
    decreases |es|
  {
    if es != [] {
      AlignedStepIff(cfg, s, es[0]);
      if Meets(s, es[0]) {
        AlignedThroughoutIff(cfg, Step(cfg, s, es[0]), es[1..]);
      } else {
        assert !Aligned(Step(cfg, s, es[0]));
      }
    }
  }

  /** So in such runs room DATA and presence never cross tenants. */
  lemma TrafficNeverCrosses(cfg: Config, es: seq<Event>, e: Event, d: ClientId)
    requires Run(cfg, INIT, es, Meets) && (e.EData? || e.EPresence?) && d != e.c
    requires var s := Exec(cfg, INIT, es); d in s.inbox && Step(cfg, s, e).inbox[d] != s.inbox[d]
    ensures Tenant(Exec(cfg, INIT, es), d) == Tenant(Exec(cfg, INIT, es), e.c)
  {
    forall s, x | Aligned(s) && Enabled(cfg, s, x) && Meets(s, x) ensures Aligned(Step(cfg, s, x)) {
      AlignedStepIff(cfg, s, x);
    }
    RunInduction(cfg, INIT, es, Meets, s => Aligned(s));
    AlignedTraffic(cfg, Exec(cfg, INIT, es), e, d);
  }

  // ---------------------------------------------------------------- one tenant per client id

  /** Every client id connects, joins and registers under one tenant only. */
  ghost predicate Steady(home: ClientId -> Option<string>, s: State, e: Event) {
    match e
    case EWsConnect(c, _, tenant, _) => tenant == home(c)
    case EHttpConnect(c, _, tenant, _) => tenant == home(c)
    case EJoin(c, _, _) => Tenant(s, c) == home(c)
    case ERegister(c) => Tenant(s, c) == home(c)
    case _ => true
  }

  /** Everything known of a client, connected or not, is of its one tenant. */
  ghost predicate Housed(home: ClientId -> Option<string>, s: State) {
    HousedBy(home, s.tenants) && HousedRooms(home, s)
  }

  ghost predicate HousedRooms(home: ClientId -> Option<string>, s: State) {
    forall c, k :: c in Members(s.rooms, k) || k in RoomsOf(s.clientRooms, c) || k in PendingRooms(s, c) ==>
      TenantOf(k) == home(c)
  }

  ghost predicate HousedBy(home: ClientId -> Option<string>, tenants: map<ClientId, string>) {
    forall c :: c in tenants ==> Some(tenants[c]) == home(c)
  }

  lemma HousedTenants(cfg: Config, home: ClientId -> Option<string>, s: State, e: Event)
    requires HousedBy(home, s.tenants) && Steady(home, s, e)
    ensures HousedBy(home, Step(cfg, s, e).tenants)
  {
    match e
    case EDisconnect(c, now, order) =>
      RemoveAllLocal(cfg, s.(inbox := s.inbox - {c}, clients := s.clients - {c}, tenants := s.tenants - {c}),
                     c, now, order);
    case EExpire(c, now) => RemovalsLocal(s.(pending := s.pending - {c}), c, PendingRooms(s, c));
    case ELeave(c, room) => RemovalLocal(s, c, RoomKey(s, c, room));
    case EJoin(c, room, allowed) => JoinLocal(cfg, s, c, room, allowed);
    case EWsConnect(c, token, tenant, slot) => assert HousedBy(home, Identify(s, c, token, tenant).tenants);
    case EHttpConnect(c, token, tenant, slot) => assert HousedBy(home, Identify(s, c, token, tenant).tenants);
    case EPresence(c, room, update) => TrafficLocal(cfg, s, e);
    case EData(c, room, payload) => TrafficLocal(cfg, s, e);
    case EResync(c, k) => TrafficLocal(cfg, s, e);
    case _ =>
  }

  lemma FewerHoused(home: ClientId -> Option<string>, s: State, t: State)
    requires HousedRooms(home, s)
    requires forall d, k :: d in Members(t.rooms, k) ==> d in Members(s.rooms, k) || k in PendingRooms(s, d)
    requires forall d, k :: k in RoomsOf(t.clientRooms, d) ==> k in RoomsOf(s.clientRooms, d) || k in PendingRooms(s, d)
    requires forall d, k :: k in PendingRooms(t, d) ==> k in RoomsOf(s.clientRooms, d) || k in PendingRooms(s, d)
    ensures HousedRooms(home, t)
  {
  }

  lemma EnteredHoused(home: ClientId -> Option<string>, s: State, c: ClientId, k: Key, t: State)
    requires HousedRooms(home, s) && Entered(s, c, k, t) && TenantOf(k) == home(c)
    ensures HousedRooms(home, t)
  {
  }

  lemma HousedStep(cfg: Config, home: ClientId -> Option<string>, s: State, e: Event)
    requires Housed(home, s) && Steady(home, s, e) && Enabled(cfg, s, e)
    ensures Housed(home, Step(cfg, s, e))
  {
    var t := Step(cfg, s, e);
    HousedTenants(cfg, home, s, e);
    StepEffect(cfg, s, e);
    if Admission(cfg, s, e) == {} {
      OnlyKnownRooms(cfg, s, e, t);
      OnlyKnownPending(cfg, s, e, t);
      FewerHoused(home, s, t);
    } else {
      TenantOfRoomKey(s, e.c, e.room);
      EnteredHoused(home, s, e.c, RoomKey(s, e.c, e.room), t);
    }
  }

  lemma SteadyMeets(home: ClientId -> Option<string>, s: State, e: Event)
    requires Housed(home, s) && Steady(home, s, e)
    ensures Meets(s, e)
  {
  }

  /** Where each client id keeps to one tenant, no room traffic ever crosses, whatever
      disconnects, restores, expiries and evictions come between. */
  lemma {:induction false} SteadyRunMeets(cfg: Config, home: ClientId -> Option<string>, s: State, es: seq<Event>)
    requires Run(cfg, s, es, (x, e) => Steady(home, x, e)) && Housed(home, s)
    ensures Run(cfg, s, es, Meets)
    decreases |es|
  {
    if es != [] {
      SteadyMeets(home, s, es[0]);
      HousedStep(cfg, home, s, es[0]);
      SteadyRunMeets(cfg, home, Step(cfg, s, es[0]), es[1..]);
    }
  }
}
