/** The room handlers in the source's own form: shared maps updated in place, with
    loops over members, rooms and expired sessions.  Each method is proved to be
    the step of the same name in RoomModel. */
module RoomServer {
  import opened Identifiers
  import opened RoomModel

  /** The expired sessions removed one after the other. */
  ghost function ExpireAll(s: State, cs: seq<ClientId>): State
    decreases |cs|
  {
    if cs == [] then s else ExpireAll(Expire(s, cs[0]), cs[1..])
  }

  lemma {:induction false} ExpireAllSnoc(s: State, cs: seq<ClientId>, c: ClientId)
    ensures ExpireAll(s, cs + [c]) == Expire(ExpireAll(s, cs), c)
    decreases |cs|
  {
    if cs == [] {
      assert [] + [c] == [c] && [c][1..] == [];
    } else {
      assert (cs + [c])[1..] == cs[1..] + [c];
      ExpireAllSnoc(Expire(s, cs[0]), cs[1..], c);
    }
  }

  lemma {:induction false} RemoveFromRoomsSnoc(s: State, c: ClientId, ks: seq<Key>, k: Key)
    ensures RemoveFromRooms(s, c, ks + [k]) == RemoveFromRoom(RemoveFromRooms(s, c, ks), c, k)
    decreases |ks|
  {
    if ks == [] {
      assert [] + [k] == [k] && [k][1..] == [];
    } else {
      assert (ks + [k])[1..] == ks[1..] + [k];
      RemoveFromRoomsSnoc(RemoveFromRoom(s, c, ks[0]), c, ks[1..], k);
    }
  }

  lemma {:induction false} RemovalKeepsPending(s: State, c: ClientId, ks: seq<Key>)
    ensures RemoveFromRooms(s, c, ks).pending == s.pending
    decreases |ks|
  {
    if ks != [] {
      RemovalKeepsPending(RemoveFromRoom(s, c, ks[0]), c, ks[1..]);
    }
  }

  lemma AddNone(rooms: map<Key, set<ClientId>>, c: ClientId)
    ensures AddToRooms(rooms, c, []) == rooms
  {
    assert rooms.Keys + Elems([]) == rooms.Keys;
    forall k | k in rooms ensures AddToRooms(rooms, c, [])[k] == rooms[k] {
      assert rooms[k] + {} == rooms[k];
    }
  }

  lemma SameRooms(t: map<Key, set<ClientId>>, m: map<Key, set<ClientId>>)
    requires t.Keys == m.Keys && forall x :: x in t ==> Members(t, x) == Members(m, x)
    ensures t == m
  {
    assert forall x :: x in t ==> t[x] == Members(t, x) && m[x] == Members(m, x);
  }

  lemma AddSnoc(rooms: map<Key, set<ClientId>>, c: ClientId, ks: seq<Key>, k: Key)
    ensures AddToRooms(rooms, c, ks + [k])
         == var m := AddToRooms(rooms, c, ks); m[k := Members(m, k) + {c}]
  {
    var m := AddToRooms(rooms, c, ks);
    AddMembers(rooms, c, ks);
    AddMembers(rooms, c, ks + [k]);
    assert Elems(ks + [k]) == Elems(ks) + {k};
    Snoc(rooms, c, ks, k, m, AddToRooms(rooms, c, ks + [k]));
  }

  lemma Snoc(rooms: map<Key, set<ClientId>>, c: ClientId, ks: seq<Key>, k: Key, m: map<Key, set<ClientId>>,
             t: map<Key, set<ClientId>>)
    requires forall x :: Members(m, x) == if x in ks then Members(rooms, x) + {c} else Members(rooms, x)
    requires forall x :: Members(t, x) == if x in ks + [k] then Members(rooms, x) + {c} else Members(rooms, x)
    requires t.Keys == m.Keys + {k}
    ensures t == m[k := Members(m, k) + {c}]
  {
    var m' := m[k := Members(m, k) + {c}];
    forall x | x in t ensures Members(t, x) == Members(m', x) {
      assert x in ks + [k] <==> x in ks || x == k;
    }
    SameRooms(t, m');
  }

  lemma AddMembers(rooms: map<Key, set<ClientId>>, c: ClientId, ks: seq<Key>)
    ensures forall x ::
      Members(AddToRooms(rooms, c, ks), x) == if x in ks then Members(rooms, x) + {c} else Members(rooms, x)
  {
  }

  /** The sweep is a run of single expiries. */
  lemma {:induction false} SweepIsRun(cfg: Config, s: State, cs: seq<ClientId>, now: int)
    requires forall i, j :: 0 <= i < j < |cs| ==> cs[i] != cs[j]
    requires forall i :: 0 <= i < |cs| ==> SessionExpired(cfg, s, cs[i], now)
    ensures var es := seq(|cs|, i requires 0 <= i < |cs| => EExpire(cs[i], now));
      Run(cfg, s, es, Anything) && Exec(cfg, s, es) == ExpireAll(s, cs)
    decreases |cs|
  {
    if cs != [] {
      var s1 := Expire(s, cs[0]);
      RemovalKeepsPending(s.(pending := s.pending - {cs[0]}), cs[0], PendingRooms(s, cs[0]));
      var rest := cs[1..];
      forall i | 0 <= i < |rest| ensures SessionExpired(cfg, s1, rest[i], now) {
        assert rest[i] == cs[i + 1];
      }
      SweepIsRun(cfg, s1, rest, now);
      var es := seq(|cs|, i requires 0 <= i < |cs| => EExpire(cs[i], now));
      assert es[1..] == seq(|rest|, i requires 0 <= i < |rest| => EExpire(rest[i], now));
      assert es[0] == EExpire(cs[0], now);
    }
  }

  class Server {
    const cfg: Config
    var rooms: map<Key, set<ClientId>>
    var clientRooms: map<ClientId, set<Key>>
    var pendingRemovals: map<ClientId, Pending>
    var presence: map<Key, map<ClientId, string>>
    var clientTenants: map<ClientId, string>
    var senders: map<ClientId, seq<Frame>>
    var clients: map<ClientId, Token>
    var redisTokens: map<ClientId, Token>

    ghost function Contents(): State
      reads this
    {
      State(rooms, clientRooms, pendingRemovals, presence, clientTenants, senders, clients, redisTokens)
    }

    constructor (cfg: Config)
      ensures this.cfg == cfg && Contents() == INIT
    {
      this.cfg := cfg;
      rooms, clientRooms, pendingRemovals, presence := map[], map[], map[], map[];
      clientTenants, senders, clients, redisTokens := map[], map[], map[], map[];
    }

    method StoredKey(c: ClientId, room: string) returns (k: Key)
      ensures k == RoomKey(Contents(), c, room)
    {
      var tenant := if c in clientTenants then Some(clientTenants[c]) else None;
      k := Key(NamespaceRoom(tenant, room));
    }

    /** One send per member that has a registered sender. */
    method FanOut(members: set<ClientId>, skip: set<ClientId>, f: Frame)
      modifies this`senders
      ensures senders == Multicast(old(senders), members - skip, f)
    {
      var todo := members;
      while todo != {}
        invariant todo <= members
        invariant senders.Keys == old(senders.Keys)
        invariant forall d :: d in senders ==>
          senders[d] == if d in members - skip && d !in todo then old(senders)[d] + [f] else old(senders)[d]
        decreases |todo|
      {
        var m :| m in todo;
        if m !in skip && m in senders {
          senders := senders[m := senders[m] + [f]];
        }
        todo := todo - {m};
      }
    }

    method SendTo(c: ClientId, f: Frame)
      modifies this`senders
      ensures senders == Multicast(old(senders), {c}, f)
    {
      if c in senders {
        senders := senders[c := senders[c] + [f]];
      }
    }

    method HandleRoomJoin(c: ClientId, room: Option<string>, allowed: bool)
      modifies this
      ensures Contents() == if room.None? then old(Contents())
        else Join(cfg, old(Contents()), c, room.value, allowed)
    {
      if room.None? {
        return;
      }
      var name := room.value;
      if !IsValidIdentifier(name) {
        SendTo(c, Refused(name, InvalidRoomName));
        return;
      }
      if !allowed {
        SendTo(c, Refused(name, AuthDenied));
        return;
      }
      var k := StoredKey(c, name);
      var alreadyMember := c in clientRooms && k in clientRooms[c];
      if !alreadyMember {
        var joined := if c in clientRooms then |clientRooms[c]| else 0;
        if cfg.maxRoomsPerClient > 0 && joined >= cfg.maxRoomsPerClient {
          SendTo(c, Refused(name, ClientRoomLimit));
          return;
        }
        if cfg.maxTotalRooms > 0 && k !in rooms && |rooms| >= cfg.maxTotalRooms {
          SendTo(c, Refused(name, ServerRoomLimit));
          return;
        }
      }
      if cfg.maxRoomSize > 0 && k in rooms && |rooms[k]| >= cfg.maxRoomSize {
        SendTo(c, Refused(name, RoomFull));
        return;
      }
      Admit(c, k, name);
    }

    method Admit(c: ClientId, k: Key, room: string)
      modifies this
      ensures Contents() == Greet(Enter(old(Contents()), c, k), c, k, room)
    {
      var members := if k in rooms then rooms[k] else {};
      rooms := rooms[k := members + {c}];
      var mine := if c in clientRooms then clientRooms[c] else {};
      clientRooms := clientRooms[c := mine + {k}];
      assert Contents() == Enter(old(Contents()), c, k);
      SendTo(c, Peers(k, room, rooms[k]));
      if k in presence && presence[k] != map[] {
        SendTo(c, Snapshot(k, room, presence[k]));
      }
    }

    /** The member set and the presence entry; an emptied room goes with its presence. */
    method TakeOut(c: ClientId, k: Key) returns (left: set<ClientId>)
      requires k in rooms
      modifies this`rooms, this`presence
      ensures left == old(rooms)[k] - {c}
      ensures rooms == RoomsWithout(old(rooms), c, k)
      ensures presence == PresenceWithout(old(presence), left, c, k)
    {
      left := rooms[k] - {c};
      rooms := rooms[k := left];
      if k in presence {
        presence := presence[k := presence[k] - {c}];
      }
      if left == {} {
        rooms := rooms - {k};
        presence := presence - {k};
      }
    }

    method RemoveClientFromRoom(c: ClientId, k: Key)
      modifies this
      ensures Contents() == RemoveFromRoom(old(Contents()), c, k)
    {
      if k !in rooms {
        return;
      }
      var left := TakeOut(c, k);
      FanOut(left, {}, Peers(k, RoomDisplay(k.name), left));
      assert left - {} == left;
      if c in clientRooms {
        clientRooms := clientRooms[c := clientRooms[c] - {k}];
      }
    }

    method HandleRoomLeave(c: ClientId, room: Option<string>)
      modifies this
      ensures Contents() == if room.None? then old(Contents())
        else Leave(old(Contents()), c, room.value)
    {
      if room.None? || !IsValidIdentifier(room.value) {
        return;
      }
      var k := StoredKey(c, room.value);
      RemoveClientFromRoom(c, k);
    }
  
    /** On disconnect; `order` is the order in which the room set was walked. */
    method RemoveClientFromAllRooms(c: ClientId, now: int) returns (ghost order: seq<Key>)
      modifies this
      ensures Enumerates(order, old(ClientRooms(Contents(), c)))
      ensures Contents() == RemoveFromAllRooms(cfg, old(Contents()), c, now, order)
    {
      if c !in clientRooms {
        order := [];
        return;
      }
      var mine := clientRooms[c];
      clientRooms := clientRooms - {c};
      ghost var s1 := Contents();
      if cfg.sessionTtl == 0 {
        order := RemoveEach(c, mine);
      } else {
        var roomList := Collect(mine);
        order := roomList;
        if roomList != [] {
          pendingRemovals := pendingRemovals[c := Pending(roomList, now)];
        }
      }
    }

    /** The end of `run_client` when this socket is still the registered sender. */
    method CleanUp(c: ClientId, now: int) returns (ghost order: seq<Key>)
      modifies this
      ensures Enumerates(order, old(ClientRooms(Contents(), c)))
      ensures Contents() == Disconnect(cfg, old(Contents()), c, now, order)
    {
      senders := senders - {c};
      clients := clients - {c};
      clientTenants := clientTenants - {c};
      order := RemoveClientFromAllRooms(c, now);
    }

    /** After a reconnect: a fresh member list for each restored room. */
    method Resync(c: ClientId, restored: seq<Key>)
      modifies this`senders
      ensures Contents() == ResyncAll(cfg, old(Contents()), c, restored)
    {
      for i := 0 to |restored|
        invariant Contents() == ResyncAll(cfg, old(Contents()), c, restored[..i])
      {
        var k := restored[i];
        if k in rooms {
          SendTo(c, Peers(k, RoomDisplay(k.name), rooms[k]));
        }
        assert restored[..i + 1][..i] == restored[..i];
      }
      assert restored[..|restored|] == restored;
    }

    /** One iteration order of the set. */
    method Collect(ks: set<Key>) returns (order: seq<Key>)
      ensures Enumerates(order, ks)
    {
      order := [];
      var todo := ks;
      while todo != {}
        invariant Distinct(order) && Elems(order) !! todo && Elems(order) + todo == ks
        decreases |todo|
      {
        var k :| k in todo;
        order := order + [k];
        todo := todo - {k};
      }
    }

    method RemoveEach(c: ClientId, ks: set<Key>) returns (ghost order: seq<Key>)
      modifies this
      ensures Enumerates(order, ks)
      ensures Contents() == RemoveFromRooms(old(Contents()), c, order)
    {
      order := [];
      var todo := ks;
      while todo != {}
        invariant Distinct(order) && Elems(order) !! todo && Elems(order) + todo == ks
        invariant Contents() == RemoveFromRooms(old(Contents()), c, order)
        decreases |todo|
      {
        var k :| k in todo;
        RemoveFromRoomsSnoc(old(Contents()), c, order, k);
        RemoveClientFromRoom(c, k);
        order := order + [k];
        todo := todo - {k};
      }
    }

    method RemoveListed(c: ClientId, ks: seq<Key>)
      modifies this
      ensures Contents() == RemoveFromRooms(old(Contents()), c, ks)
    {
      for i := 0 to |ks|
        invariant Contents() == RemoveFromRooms(old(Contents()), c, ks[..i])
      {
        RemoveFromRoomsSnoc(old(Contents()), c, ks[..i], ks[i]);
        assert ks[..i + 1] == ks[..i] + [ks[i]];
        RemoveClientFromRoom(c, ks[i]);
      }
      assert ks[..|ks|] == ks;
    }

    /** The expired sessions are collected first and then removed one by one. */
    method CleanupExpiredSessions(now: int) returns (ghost order: seq<ClientId>)
      modifies this
      ensures Contents() == ExpireAll(old(Contents()), order)
      ensures forall i, j :: 0 <= i < j < |order| ==> order[i] != order[j]
      ensures forall c :: c in order <==> old(SessionExpired(cfg, Contents(), c, now))
      ensures forall c :: c in pendingRemovals <==> c in old(pendingRemovals) && c !in order
      ensures forall c :: c in old(pendingRemovals) ==>
        (c !in pendingRemovals <==> cfg.sessionTtl > 0 && now - old(pendingRemovals)[c].at >= cfg.sessionTtl)
    {
      order := [];
      if cfg.sessionTtl == 0 {
        return;
      }
      var todo := set c | c in pendingRemovals && now - pendingRemovals[c].at >= cfg.sessionTtl;
      ghost var expired := todo;
      while todo != {}
        invariant forall i, j :: 0 <= i < j < |order| ==> order[i] != order[j]
        invariant forall c :: c in expired <==> c in order || c in todo
        invariant forall c :: c in order ==> c !in todo
        invariant Contents() == ExpireAll(old(Contents()), order)
        invariant forall c :: c in pendingRemovals <==> c in old(pendingRemovals) && c !in order
        decreases |todo|
      {
        var c :| c in todo;
        ghost var before := Contents();
        var ks := pendingRemovals[c].rooms;
        pendingRemovals := pendingRemovals - {c};
        RemovalKeepsPending(Contents(), c, ks);
        RemoveListed(c, ks);
        ExpireAllSnoc(old(Contents()), order, c);
        order := order + [c];
        todo := todo - {c};
      }
    }

    /** WebSocket connect up to the start of `run_client`. */
    method Connect(c: ClientId, token: Token, tenant: Option<string>, slot: bool) returns (restored: seq<Key>)
      modifies this
      ensures Contents() == WsConnect(old(Contents()), c, token, tenant, slot)
      ensures restored == if old(KnownToken(Contents(), c)) == Some(token) then old(PendingRooms(Contents(), c)) else []
    {
      restored := [];
      var existing := if c in clients then Some(clients[c])
        else if c in redisTokens then Some(redisTokens[c]) else None;
      if existing.Some? {
        if token != existing.value {
          return;
        }
        NoteClient(c, token, tenant);
        if c in pendingRemovals {
          restored := pendingRemovals[c].rooms;
          RestoreRooms(c, restored);
          clientRooms := clientRooms[c := set k | k in restored];
          pendingRemovals := pendingRemovals - {c};
        }
      } else {
        if !slot {
          return;
        }
        redisTokens := redisTokens[c := token];
        NoteClient(c, token, tenant);
      }
    }

    method NoteClient(c: ClientId, token: Token, tenant: Option<string>)
      modifies this`clients, this`clientTenants
      ensures Contents() == Identify(old(Contents()), c, token, tenant)
    {
      clients := clients[c := token];
      if tenant.Some? {
        clientTenants := clientTenants[c := tenant.value];
      }
    }

    method RestoreRooms(c: ClientId, ks: seq<Key>)
      modifies this`rooms
      ensures rooms == AddToRooms(old(rooms), c, ks)
    {
      AddNone(rooms, c);
      for i := 0 to |ks|
        invariant rooms == AddToRooms(old(rooms), c, ks[..i])
      {
        AddSnoc(old(rooms), c, ks[..i], ks[i]);
        var members := if ks[i] in rooms then rooms[ks[i]] else {};
        rooms := rooms[ks[i] := members + {c}];
        assert ks[..i + 1] == ks[..i] + [ks[i]];
      }
      assert ks[..|ks|] == ks;
    }

    method HandlePresenceUpdate(c: ClientId, room: Option<string>, update: Option<string>)
      modifies this
      ensures Contents() == if room.None? then old(Contents())
        else PresenceUpdate(old(Contents()), c, room.value, update)
    {
      if room.None? || !IsValidIdentifier(room.value) {
        return;
      }
      var k := StoredKey(c, room.value);
      if update.Some? {
        var was := if k in presence then presence[k] else map[];
        presence := presence[k := was[c := update.value]];
      }
      FanOut(if k in rooms then rooms[k] else {}, {c}, PresenceFrame(k, room.value, c, update));
    }

    method HandleRoomData(c: ClientId, room: string, payload: string)
      modifies this
      ensures Contents() == RoomData(cfg, old(Contents()), c, room, payload)
    {
      if !cfg.enableRelay {
        SendTo(c, Refused(room, RelayDisabled));
        return;
      }
      if !IsValidIdentifier(room) {
        return;
      }
      var k := StoredKey(c, room);
      FanOut(if k in rooms then rooms[k] else {}, {c}, Data(k, room, c, payload));
    }
  }
}
