/** What each step does to the three indexes `rooms`, `clientRooms` and `pending`,
    stated member by member instead of map by map. */
module RoomEffects {
  import opened Identifiers
  import opened RoomModel

  /** `c` is gone from the rooms `ks`, and rooms left empty are gone. */
  ghost predicate RoomsLost(rooms: map<Key, set<ClientId>>, c: ClientId, ks: set<Key>,
                            rooms': map<Key, set<ClientId>>) {
    && (forall k :: Members(rooms', k) == if k in ks then Members(rooms, k) - {c} else Members(rooms, k))
    && (forall k :: k in rooms' <==> k in rooms && (k in ks ==> rooms[k] - {c} != {}))
  }

  /** `c` is now in the rooms `ks`, which exist. */
  ghost predicate RoomsGained(rooms: map<Key, set<ClientId>>, c: ClientId, ks: set<Key>,
                              rooms': map<Key, set<ClientId>>) {
    && (forall k :: Members(rooms', k) == if k in ks then Members(rooms, k) + {c} else Members(rooms, k))
    && rooms'.Keys == rooms.Keys + ks
  }

  /** The reverse index of `c` is now `mine`; nobody else's changed. */
  ghost predicate IndexSet(idx: map<ClientId, set<Key>>, c: ClientId, mine: set<Key>, idx': map<ClientId, set<Key>>) {
    forall d :: RoomsOf(idx', d) == if d == c then mine else RoomsOf(idx, d)
  }

  ghost predicate SameIndexes(s: State, t: State) {
    t.rooms == s.rooms && t.clientRooms == s.clientRooms && t.pending == s.pending
  }

  ghost predicate Entered(s: State, c: ClientId, k: Key, t: State) {
    && RoomsGained(s.rooms, c, {k}, t.rooms)
    && IndexSet(s.clientRooms, c, ClientRooms(s, c) + {k}, t.clientRooms)
    && t.pending == s.pending
  }

  ghost predicate Removed(s: State, c: ClientId, ks: set<Key>, t: State) {
    && RoomsLost(s.rooms, c, ks, t.rooms)
    && IndexSet(s.clientRooms, c, ClientRooms(s, c) - ks * s.rooms.Keys, t.clientRooms)
    && t.pending == s.pending
  }

  ghost predicate Cleared(s: State, c: ClientId, t: State) {
    && RoomsLost(s.rooms, c, ClientRooms(s, c), t.rooms)
    && IndexSet(s.clientRooms, c, {}, t.clientRooms)
    && t.pending == s.pending
  }

  ghost predicate Deferred(s: State, c: ClientId, now: int, order: seq<Key>, t: State) {
    && t.rooms == s.rooms
    && IndexSet(s.clientRooms, c, {}, t.clientRooms)
    && t.pending == if order == [] then s.pending else s.pending[c := Pending(order, now)]
  }

  ghost predicate Expired(s: State, c: ClientId, t: State) {
    && RoomsLost(s.rooms, c, Elems(PendingRooms(s, c)), t.rooms)
    && IndexSet(s.clientRooms, c, ClientRooms(s, c) - Elems(PendingRooms(s, c)) * s.rooms.Keys, t.clientRooms)
    && t.pending == s.pending - {c}
  }

  ghost predicate Restored(s: State, c: ClientId, t: State) {
    && RoomsGained(s.rooms, c, Elems(PendingRooms(s, c)), t.rooms)
    && IndexSet(s.clientRooms, c, Elems(PendingRooms(s, c)), t.clientRooms)
    && t.pending == s.pending - {c}
  }

  ghost predicate Effect(cfg: Config, s: State, e: Event, t: State) {
    match e
    case EJoin(c, room, allowed) =>
      if JoinRefusal(cfg, s, c, room, allowed).None? then Entered(s, c, RoomKey(s, c, room), t) else SameIndexes(s, t)
    case ELeave(c, room) =>
      if IsValidIdentifier(room) then Removed(s, c, {RoomKey(s, c, room)}, t) else SameIndexes(s, t)
    case EDisconnect(c, now, order) =>
      if cfg.sessionTtl == 0 then Cleared(s, c, t) else Deferred(s, c, now, order, t)
    case EExpire(c, now) => Expired(s, c, t)
    case EWsConnect(c, token, tenant, slot) =>
      if KnownToken(s, c) == Some(token) && c in s.pending then Restored(s, c, t) else SameIndexes(s, t)
    case _ => SameIndexes(s, t)
  }

  // ---------------------------------------------------------------- removals

  lemma RoomsWithoutLoses(rooms: map<Key, set<ClientId>>, c: ClientId, k: Key)
    ensures RoomsLost(rooms, c, {k}, RoomsWithout(rooms, c, k))
  {
  }

  lemma RemoveFromRoomEffect(s: State, c: ClientId, k: Key)
    ensures Removed(s, c, {k}, RemoveFromRoom(s, c, k))
  {
    RoomsWithoutLoses(s.rooms, c, k);
    var gone := {k} * s.rooms.Keys;
    if k in s.rooms {
      assert gone == {k};
    } else {
      assert gone == {};
    }
  }

  predicate HasPresence(s: State, k: Key, d: ClientId) {
    k in s.presence && d in s.presence[k]
  }

  /** A removal takes the client's presence entry, takes everybody's when the room goes, and
      takes nothing when the room is unknown (presence may be set without joining). */
  lemma PresenceAfterRemoval(s: State, c: ClientId, k: Key, x: Key, d: ClientId)
    ensures HasPresence(RemoveFromRoom(s, c, k), x, d)
       <==> HasPresence(s, x, d) && !(x == k && k in s.rooms && (d == c || s.rooms[k] <= {c}))
  {
    if k in s.rooms {
      assert s.rooms[k] - {c} == {} <==> s.rooms[k] <= {c};
    }
  }

  lemma RoomsLostComposes(r: map<Key, set<ClientId>>, c: ClientId, k: Key, m: map<Key, set<ClientId>>,
                          ks: set<Key>, t: map<Key, set<ClientId>>)
    requires RoomsLost(r, c, {k}, m) && RoomsLost(m, c, ks, t)
    ensures RoomsLost(r, c, {k} + ks, t)
  {
    forall x
      ensures Members(t, x) == if x in {k} + ks then Members(r, x) - {c} else Members(r, x)
      ensures x in t <==> x in r && (x in {k} + ks ==> r[x] - {c} != {})
    {
      assert Members(m, x) == if x == k then Members(r, x) - {c} else Members(r, x);
    }
  }

  lemma RemovedComposes(s: State, c: ClientId, k: Key, m: State, ks: set<Key>, t: State)
    requires Removed(s, c, {k}, m) && Removed(m, c, ks, t)
    ensures Removed(s, c, {k} + ks, t)
  {
    RoomsLostComposes(s.rooms, c, k, m.rooms, ks, t.rooms);
    assert ({k} + ks) * s.rooms.Keys == {k} * s.rooms.Keys + ks * m.rooms.Keys;
    assert RoomsOf(m.clientRooms, c) == ClientRooms(s, c) - {k} * s.rooms.Keys;
    assert ClientRooms(m, c) - ks * m.rooms.Keys == ClientRooms(s, c) - ({k} + ks) * s.rooms.Keys;
  }

  lemma {:induction false} RemoveFromRoomsEffect(s: State, c: ClientId, ks: seq<Key>)
    ensures Removed(s, c, Elems(ks), RemoveFromRooms(s, c, ks))
    decreases |ks|
  {
    if ks == [] {
      assert Elems(ks) == {};
      assert ClientRooms(s, c) - {} * s.rooms.Keys == ClientRooms(s, c);
    } else {
      var m := RemoveFromRoom(s, c, ks[0]);
      RemoveFromRoomEffect(s, c, ks[0]);
      RemoveFromRoomsEffect(m, c, ks[1..]);
      RemovedComposes(s, c, ks[0], m, Elems(ks[1..]), RemoveFromRooms(s, c, ks));
      assert Elems(ks) == {ks[0]} + Elems(ks[1..]);
    }
  }

  // ---------------------------------------------------------------- the other steps

  lemma EnterEffect(s: State, c: ClientId, k: Key)
    ensures Entered(s, c, k, Enter(s, c, k))
  {
  }

  lemma RestoreEffect(s: State, c: ClientId)
    requires c in s.pending
    ensures Restored(s, c, Restore(s, c))
  {
  }

  lemma NothingListed(order: seq<Key>)
    ensures order != [] ==> Elems(order) != {}
  {
    if order != [] {
      assert order[0] in Elems(order);
    }
  }

  lemma DisconnectEffect(cfg: Config, s: State, c: ClientId, now: int, order: seq<Key>)
    requires Enumerates(order, ClientRooms(s, c))
    ensures Effect(cfg, s, EDisconnect(c, now, order), Disconnect(cfg, s, c, now, order))
  {
    if c in s.clientRooms {
      var s1 := s.(inbox := s.inbox - {c}, clients := s.clients - {c}, tenants := s.tenants - {c},
                   clientRooms := s.clientRooms - {c});
      RemoveFromRoomsEffect(s1, c, order);
      assert ClientRooms(s1, c) - Elems(order) * s1.rooms.Keys == {};
    } else {
      assert Elems(order) == {};
      NothingListed(order);
      assert forall k :: Members(s.rooms, k) - {} == Members(s.rooms, k);
    }
  }

  lemma ExpireEffect(s: State, c: ClientId)
    ensures Expired(s, c, Expire(s, c))
  {
    RemoveFromRoomsEffect(s.(pending := s.pending - {c}), c, PendingRooms(s, c));
  }

  lemma GreetEffect(s: State, c: ClientId, k: Key, room: string)
    ensures SameIndexes(s, Greet(s, c, k, room))
  {
  }

  lemma JoinEffect(cfg: Config, s: State, c: ClientId, room: string, allowed: bool)
    ensures Effect(cfg, s, EJoin(c, room, allowed), Join(cfg, s, c, room, allowed))
  {
    if JoinRefusal(cfg, s, c, room, allowed).None? {
      var k := RoomKey(s, c, room);
      EnterEffect(s, c, k);
      GreetEffect(Enter(s, c, k), c, k, room);
      assert Entered(s, c, k, Join(cfg, s, c, room, allowed));
    }
  }

  lemma RestoreAfterIdentify(s: State, c: ClientId, token: Token, tenant: Option<string>)
    requires c in s.pending
    ensures Restored(s, c, Restore(Identify(s, c, token, tenant), c))
  {
    RestoreEffect(Identify(s, c, token, tenant), c);
  }

  lemma ConnectEffect(cfg: Config, s: State, c: ClientId, token: Token, tenant: Option<string>, slot: bool)
    ensures Effect(cfg, s, EWsConnect(c, token, tenant, slot), WsConnect(s, c, token, tenant, slot))
  {
    if KnownToken(s, c) == Some(token) && c in s.pending {
      RestoreAfterIdentify(s, c, token, tenant);
    } else {
      NoRestoreEffect(s, c, token, tenant, slot);
    }
  }

  lemma NoRestoreEffect(s: State, c: ClientId, token: Token, tenant: Option<string>, slot: bool)
    requires KnownToken(s, c) != Some(token) || c !in s.pending
    ensures SameIndexes(s, WsConnect(s, c, token, tenant, slot))
  {
  }

  lemma PresenceEffect(s: State, c: ClientId, room: string, update: Option<string>)
    ensures SameIndexes(s, PresenceUpdate(s, c, room, update))
  {
    assert SameIndexes(s, NotePresence(s, c, RoomKey(s, c, room), update));
  }

  lemma DataEffect(cfg: Config, s: State, c: ClientId, room: string, payload: string)
    ensures SameIndexes(s, RoomData(cfg, s, c, room, payload))
  {
  }

  lemma HttpEffect(s: State, c: ClientId, token: Token, tenant: Option<string>, slot: bool)
    ensures SameIndexes(s, HttpConnect(s, c, token, tenant, slot))
  {
  }

  lemma StepEffect(cfg: Config, s: State, e: Event)
    requires Enabled(cfg, s, e)
    ensures Effect(cfg, s, e, Step(cfg, s, e))
  {
    match e
    case EJoin(c, room, allowed) => JoinEffect(cfg, s, c, room, allowed);
    case ELeave(c, room) =>
      if IsValidIdentifier(room) {
        RemoveFromRoomEffect(s, c, RoomKey(s, c, room));
      }
    case EDisconnect(c, now, order) => DisconnectEffect(cfg, s, c, now, order);
    case EExpire(c, now) => ExpireEffect(s, c);
    case EWsConnect(c, token, tenant, slot) => ConnectEffect(cfg, s, c, token, tenant, slot);
    case EPresence(c, room, update) => PresenceEffect(s, c, room, update);
    case EData(c, room, payload) => DataEffect(cfg, s, c, room, payload);
    case EHttpConnect(c, token, tenant, slot) => HttpEffect(s, c, token, tenant, slot);
    case _ =>
  }
}
