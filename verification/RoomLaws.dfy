/** What the room handlers do, said without their own vocabulary: who is admitted, who hears
    what, what a connect changes, and how long a session is kept. */
module RoomLaws {
  import opened Identifiers
  import opened RoomModel
  import opened RoomEffects
  import opened GhostPeers

  /** `d` is sent exactly `fs`, if it has a registered sender. */
  ghost predicate Hears(s: State, t: State, d: ClientId, fs: seq<Frame>) {
    && (d in t.inbox <==> d in s.inbox)
    && (d in s.inbox ==> t.inbox[d] == s.inbox[d] + fs)
  }

  /** Nothing but the frames waiting on senders changed. */
  ghost predicate OnlyFrames(s: State, t: State) {
    && t.rooms == s.rooms && t.clientRooms == s.clientRooms && t.pending == s.pending
    && t.presence == s.presence && t.tenants == s.tenants && t.clients == s.clients && t.redis == s.redis
  }

  lemma SendLaw(s: State, to: set<ClientId>, f: Frame, d: ClientId)
    ensures Hears(s, Send(s, to, f), d, if d in to then [f] else [])
    ensures OnlyFrames(s, Send(s, to, f))
  {
  }

  /** The key of `room` for `c`: its tenant, the separator and the name, or the bare name. */
  function KeyFor(s: State, c: ClientId, room: string): Key {
    Key(if c in s.tenants then s.tenants[c] + [TENANT_SEP] + room else room)
  }

  // ---------------------------------------------------------------- ROOM-JOIN

  /** A join goes through exactly if the name is valid, the claims allow it, the client is in
      the room already or both the client cap and the total cap leave room, and the room is
      not full. */
  ghost predicate MayJoin(cfg: Config, s: State, c: ClientId, room: string, allowed: bool) {
    var k := RoomKey(s, c, room);
    && IsValidIdentifier(room) && allowed
    && (k in ClientRooms(s, c)
        || (&& (cfg.maxRoomsPerClient == 0 || |ClientRooms(s, c)| < cfg.maxRoomsPerClient)
            && (cfg.maxTotalRooms == 0 || k in s.rooms || |s.rooms| < cfg.maxTotalRooms)))
    && (cfg.maxRoomSize == 0 || |Members(s.rooms, k)| < cfg.maxRoomSize)
  }

  /** `reason` is that of the first test that fails. */
  ghost predicate FirstReason(cfg: Config, s: State, c: ClientId, room: string, allowed: bool, reason: Reason) {
    var k := RoomKey(s, c, room);
    var clientFull := cfg.maxRoomsPerClient > 0 && |ClientRooms(s, c)| >= cfg.maxRoomsPerClient;
    var serverFull := cfg.maxTotalRooms > 0 && k !in s.rooms && |s.rooms| >= cfg.maxTotalRooms;
    match reason
    case InvalidRoomName => !IsValidIdentifier(room)
    case AuthDenied => IsValidIdentifier(room) && !allowed
    case ClientRoomLimit => IsValidIdentifier(room) && allowed && k !in ClientRooms(s, c) && clientFull
    case ServerRoomLimit => IsValidIdentifier(room) && allowed && k !in ClientRooms(s, c) && !clientFull && serverFull
    case RoomFull =>
      && IsValidIdentifier(room) && allowed
      && (k in ClientRooms(s, c) || (!clientFull && !serverFull))
      && cfg.maxRoomSize > 0 && |Members(s.rooms, k)| >= cfg.maxRoomSize
    case RelayDisabled => false
  }

  lemma RefusalLaw(cfg: Config, s: State, c: ClientId, room: string, allowed: bool)
    ensures JoinRefusal(cfg, s, c, room, allowed).None? <==> MayJoin(cfg, s, c, room, allowed)
    ensures JoinRefusal(cfg, s, c, room, allowed).Some? ==>
      FirstReason(cfg, s, c, room, allowed, JoinRefusal(cfg, s, c, room, allowed).value)
  {
  }

  /** What a joiner hears of the room's presence. */
  function PresenceFrames(s: State, k: Key, room: string): seq<Frame> {
    if k in s.presence && s.presence[k] != map[] then [Snapshot(k, room, s.presence[k])] else []
  }

  lemma GreetLaw(s: State, c: ClientId, k: Key, room: string, d: ClientId)
    ensures Hears(s, Greet(s, c, k, room), d,
                  if d != c then []
                  else [Peers(k, room, Members(s.rooms, k))] + PresenceFrames(s, k, room))
    ensures OnlyFrames(s, Greet(s, c, k, room))
  {
    var f := Peers(k, room, Members(s.rooms, k));
    SendLaw(s, {c}, f, d);
    if k in s.presence {
      SendLaw(Send(s, {c}, f), {c}, Snapshot(k, room, s.presence[k]), d);
    }
  }

  /** An admitted client is in the room and has the room in its index; it alone hears of it:
      the member list, itself included, and then the presence of the room if there is any. */
  lemma JoinAdmits(cfg: Config, s: State, c: ClientId, room: string, allowed: bool, d: ClientId)
    requires MayJoin(cfg, s, c, room, allowed)
    ensures var t := Join(cfg, s, c, room, allowed);
      var k := RoomKey(s, c, room);
      && t.rooms == s.rooms[k := Members(s.rooms, k) + {c}]
      && t.clientRooms == s.clientRooms[c := ClientRooms(s, c) + {k}]
      && t == s.(rooms := t.rooms, clientRooms := t.clientRooms, inbox := t.inbox)
      && Hears(s, t, d,
               if d != c then [] else [Peers(k, room, Members(s.rooms, k) + {c})] + PresenceFrames(s, k, room))
  {
    RefusalLaw(cfg, s, c, room, allowed);
    GreetLaw(Enter(s, c, RoomKey(s, c, room)), c, RoomKey(s, c, room), room, d);
  }

  /** A client that is not admitted changes nothing, and hears the reason of the first failing test. */
  lemma JoinRefuses(cfg: Config, s: State, c: ClientId, room: string, allowed: bool, d: ClientId)
    returns (reason: Reason)
    requires !MayJoin(cfg, s, c, room, allowed)
    ensures var t := Join(cfg, s, c, room, allowed);
      && OnlyFrames(s, t) && Hears(s, t, d, if d == c then [Refused(room, reason)] else [])
    ensures FirstReason(cfg, s, c, room, allowed, reason)
  {
    RefusalLaw(cfg, s, c, room, allowed);
    reason := JoinRefusal(cfg, s, c, room, allowed).value;
    SendLaw(s, {c}, Refused(room, reason), d);
  }

  // ---------------------------------------------------------------- removals

  /** Whoever stays in the room hears exactly one list, the members left, under the room's
      displayed name; nobody else hears anything, and an unknown room is left alone. */
  lemma RemovalAnnounced(s: State, c: ClientId, k: Key, d: ClientId)
    ensures var t := RemoveFromRoom(s, c, k);
      && (k !in s.rooms ==> t == s)
      && (k in s.rooms ==>
          && Members(t.rooms, k) == s.rooms[k] - {c} && (k in t.rooms <==> s.rooms[k] - {c} != {})
          && Hears(s, t, d,
                   if d in s.rooms[k] && d != c then [Peers(k, RoomDisplay(k.name), Members(t.rooms, k))] else [])
          && t.pending == s.pending && t.tenants == s.tenants && t.clients == s.clients && t.redis == s.redis)
  {
  }

  /** A leave under an invalid name does nothing; any other is a removal from the room that name
      stands for in the client's tenant. */
  lemma LeaveLaw(s: State, c: ClientId, room: string)
    ensures !IsValidIdentifier(room) ==> Leave(s, c, room) == s
    ensures IsValidIdentifier(room) ==>
      Leave(s, c, room) == RemoveFromRoom(s, c, KeyFor(s, c, room))
  {
  }

  /** A resync sends the members of a room that exists, under its displayed name, to one client. */
  lemma ResyncLaw(cfg: Config, s: State, c: ClientId, k: Key, d: ClientId)
    ensures var t := Step(cfg, s, EResync(c, k));
      && OnlyFrames(s, t)
      && Hears(s, t, d, if d == c && k in s.rooms then [Peers(k, RoomDisplay(k.name), s.rooms[k])] else [])
  {
    if k in s.rooms {
      SendLaw(s, {c}, Peers(k, RoomDisplay(k.name), s.rooms[k]), d);
    }
  }

  /** The client hears of every listed room that exists, its members, and nothing else changes. */
  lemma {:induction false} ResyncAllLaw(cfg: Config, s: State, c: ClientId, ks: seq<Key>, k: Key)
    ensures var t := ResyncAll(cfg, s, c, ks);
      && OnlyFrames(s, t) && t.inbox.Keys == s.inbox.Keys
      && (c in s.inbox ==>
          LastPeers(t.inbox[c], k) == if k in ks && k in s.rooms then Some(s.rooms[k]) else LastPeers(s.inbox[c], k))
    decreases |ks|
  {
    if ks != [] {
      var init, x := ks[..|ks| - 1], ks[|ks| - 1];
      var m := ResyncAll(cfg, s, c, init);
      assert ks == init + [x];
      ResyncAllLaw(cfg, s, c, init, k);
      ResyncLaw(cfg, m, c, x, c);
      if c in m.inbox && x in m.rooms {
        LastPeersAppend(m.inbox[c], Peers(x, RoomDisplay(x.name), m.rooms[x]), k);
      }
    }
  }

  // ---------------------------------------------------------------- presence and DATA

  function PresenceOf(s: State, k: Key, d: ClientId): Option<string> {
    if k in s.presence && d in s.presence[k] then Some(s.presence[k][d]) else None
  }

  /** A presence update is stored as the client's entry of the room, if it has content, and
      reaches exactly the other members, whether or not the client is one. */
  lemma PresenceLaw(s: State, c: ClientId, room: string, update: Option<string>, d: ClientId, x: Key)
    ensures !IsValidIdentifier(room) ==> PresenceUpdate(s, c, room, update) == s
    ensures IsValidIdentifier(room) ==>
      var t := PresenceUpdate(s, c, room, update);
      var k := KeyFor(s, c, room);
      && PresenceOf(t, x, d) == (if x == k && d == c && update.Some? then update else PresenceOf(s, x, d))
      && Hears(s, t, d, if d in Members(s.rooms, k) && d != c then [PresenceFrame(k, room, c, update)] else [])
      && t == s.(presence := t.presence, inbox := t.inbox)
  {
    var k := RoomKey(s, c, room);
    SendLaw(NotePresence(s, c, k, update), Members(s.rooms, k) - {c}, PresenceFrame(k, room, c, update), d);
  }

  /** Room DATA reaches exactly the other members; without the relay only the sender hears, an error. */
  lemma DataLaw(cfg: Config, s: State, c: ClientId, room: string, payload: string, d: ClientId)
    ensures var t := RoomData(cfg, s, c, room, payload);
      var k := KeyFor(s, c, room);
      && OnlyFrames(s, t)
      && Hears(s, t, d,
               if !cfg.enableRelay then (if d == c then [Refused(room, RelayDisabled)] else [])
               else if IsValidIdentifier(room) && d in Members(s.rooms, k) && d != c then [Data(k, room, c, payload)]
               else [])
  {
    var k := RoomKey(s, c, room);
    SendLaw(s, {c}, Refused(room, RelayDisabled), d);
    SendLaw(s, Members(s.rooms, k) - {c}, Data(k, room, c, payload), d);
  }

  // ---------------------------------------------------------------- connections

  /** Nothing but the rooms, their index and the session records changed. */
  ghost predicate OnlyRooms(s: State, t: State) {
    && t.clients == s.clients && t.tenants == s.tenants && t.redis == s.redis && t.presence == s.presence
    && t.inbox == s.inbox
  }

  lemma RestoreLaw(s: State, c: ClientId)
    ensures OnlyRooms(s, Restore(s, c))
  {
  }

  predicate Taken(s: State, c: ClientId, token: Token, slot: bool) {
    if c in s.clients then s.clients[c] == token else if c in s.redis then s.redis[c] == token else slot
  }

  /** A WebSocket connect is taken only if it shows the token known for the client, in memory
      or else in Redis, or none is known and a slot is granted; any other changes nothing. */
  lemma WsConnectRefused(s: State, c: ClientId, token: Token, tenant: Option<string>, slot: bool)
    requires !Taken(s, c, token, slot)
    ensures WsConnect(s, c, token, tenant, slot) == s
  {
  }

  /** Taken, it notes the token and the tenant, and a new client's token in Redis. */
  lemma WsConnectTaken(s: State, c: ClientId, token: Token, tenant: Option<string>, slot: bool)
    requires Taken(s, c, token, slot)
    ensures var t := WsConnect(s, c, token, tenant, slot);
      && t.clients == s.clients[c := token]
      && t.tenants == (if tenant.Some? then s.tenants[c := tenant.value] else s.tenants)
      && t.redis == (if c in s.clients || c in s.redis then s.redis else s.redis[c := token])
      && t.presence == s.presence && t.inbox == s.inbox
  {
    var s1 := Identify(s, c, token, tenant);
    RestoreLaw(s1, c);
    assert s1.inbox == s.inbox && s1.presence == s.presence && s1.redis == s.redis;
    if c in s.clients || c in s.redis {
      assert WsConnect(s, c, token, tenant, slot) == Restore(s1, c);
    }
  }

  /** An SSE connect looks at the token in memory only; taken, it registers a fresh sender. */
  lemma HttpConnectTakenIff(s: State, c: ClientId, token: Token, tenant: Option<string>, slot: bool)
    ensures var t := HttpConnect(s, c, token, tenant, slot);
      var taken := if c in s.clients then s.clients[c] == token else slot;
      && (!taken ==> t == s)
      && (taken ==>
          && t.clients == s.clients[c := token] && t.redis == s.redis[c := token] && t.inbox == s.inbox[c := []]
          && t.tenants == (if tenant.Some? then s.tenants[c := tenant.value] else s.tenants)
          && t.rooms == s.rooms && t.clientRooms == s.clientRooms && t.pending == s.pending && t.presence == s.presence)
  {
  }

  /** A disconnect with a grace period takes the sender, the token in memory and the tenant, and
      the reverse index into the session record; the room maps and everybody else's frames stay. */
  lemma DeferredDisconnect(cfg: Config, s: State, c: ClientId, now: int, order: seq<Key>)
    requires cfg.sessionTtl > 0 && Enumerates(order, ClientRooms(s, c))
    ensures var t := Disconnect(cfg, s, c, now, order);
      && t.inbox == s.inbox - {c} && t.clients == s.clients - {c} && t.tenants == s.tenants - {c}
      && t.rooms == s.rooms && t.presence == s.presence && t.redis == s.redis && t.clientRooms == s.clientRooms - {c}
      && t.pending == if ClientRooms(s, c) == {} then s.pending else s.pending[c := Pending(order, now)]
  {
    NothingListed(order);
    if order == [] {
      assert Elems(order) == {};
    }
    if c !in s.clientRooms {
      assert s.clientRooms - {c} == s.clientRooms;
    }
  }

  // ---------------------------------------------------------------- the latest list is exact

  /** Whatever step it is: the latest list a client holds for a room stays, or is reset with its
      sender, or is replaced by exactly the members after the step. */
  ghost predicate ListKeptOrExact(s: State, t: State, d: ClientId, k: Key) {
    d in t.inbox ==>
      || (d in s.inbox && LastPeers(t.inbox[d], k) == LastPeers(s.inbox[d], k))
      || LastPeers(t.inbox[d], k) == None
      || LastPeers(t.inbox[d], k) == Some(Members(t.rooms, k))
  }

  /** Whoever stays in a room that somebody left holds its exact member list. */
  ghost predicate DepartureAnnounced(s: State, t: State, d: ClientId, k: Key) {
    d in s.inbox && d in t.inbox && d in Members(t.rooms, k) && !(Members(s.rooms, k) <= Members(t.rooms, k)) ==>
      LastPeers(t.inbox[d], k) == Some(Members(t.rooms, k))
  }

  lemma RemovalLists(s: State, c: ClientId, k: Key, d: ClientId, x: Key)
    ensures var t := RemoveFromRoom(s, c, k);
      && t.inbox.Keys == s.inbox.Keys
      && (d in s.inbox ==>
          LastPeers(t.inbox[d], x)
          == if x == k && d in Members(s.rooms, k) && d != c then Some(Members(s.rooms, k) - {c})
             else LastPeers(s.inbox[d], x))
  {
    if k in s.rooms && d in s.inbox {
      LastPeersMulticast(s.inbox, s.rooms[k] - {c}, Peers(k, RoomDisplay(k.name), s.rooms[k] - {c}), d, x);
    }
  }

  /** After removals from several rooms, those who stay hold the exact list of each. */
  lemma {:induction false} RemovalsLists(s: State, c: ClientId, ks: seq<Key>, d: ClientId, x: Key)
    ensures var t := RemoveFromRooms(s, c, ks);
      && t.inbox.Keys == s.inbox.Keys
      && (d in s.inbox ==>
          LastPeers(t.inbox[d], x)
          == if x in ks && d in Members(s.rooms, x) && d != c then Some(Members(s.rooms, x) - {c})
             else LastPeers(s.inbox[d], x))
    decreases |ks|
  {
    if ks != [] {
      var m := RemoveFromRoom(s, c, ks[0]);
      RemovalLists(s, c, ks[0], d, x);
      RemovalsLists(m, c, ks[1..], d, x);
      RoomsWithoutLoses(s.rooms, c, ks[0]);
      var before, after := Members(s.rooms, x), Members(m.rooms, x);
      assert x in ks <==> x == ks[0] || x in ks[1..];
      assert after == if x == ks[0] then before - {c} else before;
      assert (before - {c}) - {c} == before - {c};
    }
  }

  lemma RemovalsAnnounced(s: State, c: ClientId, ks: seq<Key>, d: ClientId, k: Key)
    ensures ListsLaw(s, RemoveFromRooms(s, c, ks), d, k)
  {
    RemovalsLists(s, c, ks, d, k);
    RemoveFromRoomsEffect(s, c, ks);
  }

  /** The two together. */
  ghost predicate ListsLaw(s: State, t: State, d: ClientId, k: Key) {
    ListKeptOrExact(s, t, d, k) && DepartureAnnounced(s, t, d, k)
  }

  lemma SameLists(s: State, t: State, d: ClientId, k: Key)
    requires forall x :: Members(s.rooms, x) <= Members(t.rooms, x)
    requires d in t.inbox ==> t.inbox[d] == [] || (d in s.inbox && LastPeers(t.inbox[d], k) == LastPeers(s.inbox[d], k))
    ensures ListsLaw(s, t, d, k)
  {
  }

  lemma AdmittedLists(cfg: Config, s: State, c: ClientId, room: string, allowed: bool, d: ClientId, k: Key)
    requires MayJoin(cfg, s, c, room, allowed)
    ensures ListsLaw(s, Join(cfg, s, c, room, allowed), d, k)
  {
    var x := RoomKey(s, c, room);
    JoinAdmits(cfg, s, c, room, allowed, d);
    RefusalLaw(cfg, s, c, room, allowed);
    if d in s.inbox {
      GreetLists(Enter(s, c, x), c, x, room, d, k);
    }
  }

  lemma RefusedLists(cfg: Config, s: State, c: ClientId, room: string, allowed: bool, d: ClientId, k: Key)
    requires !MayJoin(cfg, s, c, room, allowed)
    ensures ListsLaw(s, Join(cfg, s, c, room, allowed), d, k)
  {
    var reason := JoinRefuses(cfg, s, c, room, allowed, d);
    if d in s.inbox && d == c {
      LastPeersAppend(s.inbox[d], Refused(room, reason), k);
    }
    if d in s.inbox {
      assert s.inbox[d] + [] == s.inbox[d];
      SameLists(s, Join(cfg, s, c, room, allowed), d, k);
    }
  }

  lemma JoinLists(cfg: Config, s: State, c: ClientId, room: string, allowed: bool, d: ClientId, k: Key)
    ensures ListsLaw(s, Join(cfg, s, c, room, allowed), d, k)
  {
    if MayJoin(cfg, s, c, room, allowed) {
      AdmittedLists(cfg, s, c, room, allowed, d, k);
    } else {
      RefusedLists(cfg, s, c, room, allowed, d, k);
    }
  }

  lemma GreetLists(s: State, c: ClientId, x: Key, room: string, d: ClientId, k: Key)
    requires d in s.inbox
    ensures d in Greet(s, c, x, room).inbox
    ensures LastPeers(Greet(s, c, x, room).inbox[d], k)
         == if d == c && k == x then Some(Members(s.rooms, x)) else LastPeers(s.inbox[d], k)
  {
    var f := Peers(x, room, Members(s.rooms, x));
    LastPeersMulticast(s.inbox, {c}, f, d, k);
    if x in s.presence {
      LastPeersMulticast(Send(s, {c}, f).inbox, {c}, Snapshot(x, room, s.presence[x]), d, k);
    }
  }

  lemma SendLists(s: State, to: set<ClientId>, f: Frame, d: ClientId, k: Key)
    requires f.Peers? ==> f.members == Members(s.rooms, f.key)
    ensures ListsLaw(s, Send(s, to, f), d, k)
  {
    if d in s.inbox {
      LastPeersMulticast(s.inbox, to, f, d, k);
    }
  }

  lemma TrafficLists(cfg: Config, s: State, e: Event, d: ClientId, k: Key)
    requires e.EPresence? || e.EData? || e.EResync?
    ensures ListsLaw(s, Step(cfg, s, e), d, k)
  {
    match e
    case EPresence(c, room, update) =>
      var x := RoomKey(s, c, room);
      SendLists(NotePresence(s, c, x, update), Members(s.rooms, x) - {c}, PresenceFrame(x, room, c, update), d, k);
    case EData(c, room, payload) =>
      var x := RoomKey(s, c, room);
      SendLists(s, {c}, Refused(room, RelayDisabled), d, k);
      SendLists(s, Members(s.rooms, x) - {c}, Data(x, room, c, payload), d, k);
    case EResync(c, x) =>
      if x in s.rooms {
        SendLists(s, {c}, Peers(x, RoomDisplay(x.name), s.rooms[x]), d, k);
      }
  }

  /** A sender that goes away hears nothing any more; the rest is as in `s`. */
  lemma GoneLists(s: State, s1: State, t: State, c: ClientId, d: ClientId, k: Key)
    requires s1.rooms == s.rooms && s1.inbox == s.inbox - {c} && t.inbox.Keys == s1.inbox.Keys && ListsLaw(s1, t, d, k)
    ensures ListsLaw(s, t, d, k)
  {
  }

  lemma ImmediateLists(s: State, s1: State, c: ClientId, ks: seq<Key>, d: ClientId, k: Key)
    requires s1.rooms == s.rooms && s1.inbox == s.inbox - {c}
    ensures ListsLaw(s, RemoveFromRooms(s1, c, ks), d, k)
  {
    RemovalsAnnounced(s1, c, ks, d, k);
    RemovalsLists(s1, c, ks, d, k);
    GoneLists(s, s1, RemoveFromRooms(s1, c, ks), c, d, k);
  }

  lemma DeferredLists(s: State, t: State, c: ClientId, d: ClientId, k: Key)
    requires t.rooms == s.rooms && t.inbox == s.inbox - {c}
    ensures ListsLaw(s, t, d, k)
  {
  }

  /** Without a grace period a disconnect is removals, else it leaves the rooms alone. */
  lemma DisconnectCases(cfg: Config, s: State, c: ClientId, now: int, order: seq<Key>, s1: State)
    requires s1 == s.(inbox := s.inbox - {c}, clients := s.clients - {c}, tenants := s.tenants - {c},
                      clientRooms := s.clientRooms - {c})
    ensures var t := Disconnect(cfg, s, c, now, order);
      t == RemoveFromRooms(s1, c, order) || (t.rooms == s.rooms && t.inbox == s.inbox - {c})
  {
  }

  lemma CasesLists(s: State, s1: State, t: State, c: ClientId, ks: seq<Key>, d: ClientId, k: Key)
    requires s1.rooms == s.rooms && s1.inbox == s.inbox - {c}
    requires t == RemoveFromRooms(s1, c, ks) || (t.rooms == s.rooms && t.inbox == s.inbox - {c})
    ensures ListsLaw(s, t, d, k)
  {
    if t == RemoveFromRooms(s1, c, ks) {
      ImmediateLists(s, s1, c, ks, d, k);
    } else {
      DeferredLists(s, t, c, d, k);
    }
  }

  lemma DisconnectLists(cfg: Config, s: State, c: ClientId, now: int, order: seq<Key>, d: ClientId, k: Key)
    ensures ListsLaw(s, Disconnect(cfg, s, c, now, order), d, k)
  {
    var s1 := s.(inbox := s.inbox - {c}, clients := s.clients - {c}, tenants := s.tenants - {c},
                 clientRooms := s.clientRooms - {c});
    DisconnectCases(cfg, s, c, now, order, s1);
    CasesLists(s, s1, Disconnect(cfg, s, c, now, order), c, order, d, k);
  }

  lemma ConnectLists(cfg: Config, s: State, e: Event, d: ClientId, k: Key)
    requires e.EWsConnect? || e.EHttpConnect? || e.ERegister? || e.EDropSender? || e.EForgetToken?
    ensures ListsLaw(s, Step(cfg, s, e), d, k)
  {
    match e
    case EWsConnect(c, token, tenant, slot) =>
      if Taken(s, c, token, slot) {
        WsConnectTaken(s, c, token, tenant, slot);
      } else {
        WsConnectRefused(s, c, token, tenant, slot);
      }
      ConnectEffect(cfg, s, c, token, tenant, slot);
    case EHttpConnect(c, token, tenant, slot) => HttpConnectTakenIff(s, c, token, tenant, slot);
    case _ =>
  }

  /** Every step of the server: the list a client last received for a room, if it changes, is
      exactly the members, and every departure is announced to all who stay. */
  lemma ListsStep(cfg: Config, s: State, e: Event, d: ClientId, k: Key)
    requires Enabled(cfg, s, e)
    ensures ListKeptOrExact(s, Step(cfg, s, e), d, k) && DepartureAnnounced(s, Step(cfg, s, e), d, k)
  {
    match e
    case EJoin(c, room, allowed) => JoinLists(cfg, s, c, room, allowed, d, k);
    case ELeave(c, room) =>
      RemovalsAnnounced(s, c, [RoomKey(s, c, room)], d, k);
      OneRemoval(s, c, RoomKey(s, c, room));
    case EDisconnect(c, now, order) => DisconnectLists(cfg, s, c, now, order, d, k);
    case EExpire(c, now) => RemovalsAnnounced(s.(pending := s.pending - {c}), c, PendingRooms(s, c), d, k);
    case EPresence(_, _, _) => TrafficLists(cfg, s, e, d, k);
    case EData(_, _, _) => TrafficLists(cfg, s, e, d, k);
    case EResync(_, _) => TrafficLists(cfg, s, e, d, k);
    case _ => ConnectLists(cfg, s, e, d, k);
  }

  lemma OneRemoval(s: State, c: ClientId, k: Key)
    ensures RemoveFromRooms(s, c, [k]) == RemoveFromRoom(s, c, k)
  {
    assert [k][1..] == [];
  }

  // ---------------------------------------------------------------- over runs: only newcomers are missing

  /** Who has come into `k` since `d` was last sent its list. */
  ghost function Newcomers(cfg: Config, s: State, entered: set<ClientId>, es: seq<Event>, d: ClientId, k: Key)
    : set<ClientId>
    decreases |es|
  {
    if es == [] then entered
    else
      var t := Step(cfg, s, es[0]);
      var kept := d in s.inbox && d in t.inbox && LastPeers(t.inbox[d], k) == LastPeers(s.inbox[d], k);
      Newcomers(cfg, t, (if kept then entered else {}) + (Members(t.rooms, k) - Members(s.rooms, k)), es[1..], d, k)
  }

  /** The list names all members but newcomers. */
  ghost predicate OnlyNewcomersMissing(s: State, entered: set<ClientId>, d: ClientId, k: Key) {
    d in s.inbox && LastPeers(s.inbox[d], k).Some? ==>
      Members(s.rooms, k) <= LastPeers(s.inbox[d], k).value + entered
  }

  /** In every run, whatever it is: whoever is in a room and not on the list a client last
      received for it came in after that list was sent. */
  lemma {:induction false} OnlyNewcomersMissingRun(cfg: Config, s: State, entered: set<ClientId>, es: seq<Event>,
                                                   d: ClientId, k: Key)
    requires Run(cfg, s, es, Anything) && OnlyNewcomersMissing(s, entered, d, k)
    ensures OnlyNewcomersMissing(Exec(cfg, s, es), Newcomers(cfg, s, entered, es, d, k), d, k)
    decreases |es|
  {
    if es != [] {
      var t := Step(cfg, s, es[0]);
      ListsStep(cfg, s, es[0], d, k);
      var kept := d in s.inbox && d in t.inbox && LastPeers(t.inbox[d], k) == LastPeers(s.inbox[d], k);
      var entered' := (if kept then entered else {}) + (Members(t.rooms, k) - Members(s.rooms, k));
      OnlyNewcomersMissingRun(cfg, t, entered', es[1..], d, k);
    }
  }

  // ---------------------------------------------------------------- how long a session is kept

  /** One session expires exactly if sessions have a grace period and the client's is over. */
  lemma ExpiresIff(cfg: Config, s: State, c: ClientId, now: int)
    requires c in s.pending
    ensures Enabled(cfg, s, EExpire(c, now)) <==> cfg.sessionTtl > 0 && now - s.pending[c].at >= cfg.sessionTtl
  {
  }

  /** All that the run's clocks and `c` do while a session of `c` recorded at `from` is kept:
      time stays below the end of the grace period, and `c` does not leave the room itself. */
  ghost predicate WithinGrace(cfg: Config, c: ClientId, k: Key, from: int, s: State, e: Event) {
    && (e.EExpire? || e.EDisconnect? ==> from <= e.now < from + cfg.sessionTtl)
    && (e.ELeave? && e.c == c ==> RoomKey(s, c, e.room) != k)
  }

  ghost function WithinGraceFor(cfg: Config, c: ClientId, k: Key, from: int): (State, Event) -> bool {
    (s, e) => WithinGrace(cfg, c, k, from, s, e)
  }

  /** In the room, and no record of the client is older. */
  ghost predicate Sheltered(s: State, c: ClientId, k: Key, from: int) {
    c in Members(s.rooms, k) && (c in s.pending ==> s.pending[c].at >= from)
  }

  lemma ShelteredStep(cfg: Config, s: State, e: Event, c: ClientId, k: Key, from: int)
    requires cfg.sessionTtl > 0 && Enabled(cfg, s, e) && Sheltered(s, c, k, from) && WithinGrace(cfg, c, k, from, s, e)
    ensures Sheltered(Step(cfg, s, e), c, k, from)
  {
    StepEffect(cfg, s, e);
  }

  /** No recorded membership is taken before the grace period has passed, however often the
      client comes and goes, and whatever everybody else does. */
  lemma {:induction false} KeptThroughGrace(cfg: Config, s: State, es: seq<Event>, c: ClientId, k: Key, from: int)
    requires cfg.sessionTtl > 0 && Sheltered(s, c, k, from)
    requires Run(cfg, s, es, WithinGraceFor(cfg, c, k, from))
    ensures c in Members(Exec(cfg, s, es).rooms, k)
    decreases |es|
  {
    if es != [] {
      ShelteredStep(cfg, s, es[0], c, k, from);
      KeptThroughGrace(cfg, Step(cfg, s, es[0]), es[1..], c, k, from);
    }
  }

  /** The record a disconnect makes shelters every room the client was in. */
  lemma DisconnectShelters(cfg: Config, s: State, c: ClientId, now: int, order: seq<Key>, k: Key)
    requires cfg.sessionTtl > 0 && Enumerates(order, ClientRooms(s, c))
    requires k in ClientRooms(s, c) && c in Members(s.rooms, k)
    ensures Sheltered(Disconnect(cfg, s, c, now, order), c, k, now)
  {
    DeferredDisconnect(cfg, s, c, now, order);
  }
}
