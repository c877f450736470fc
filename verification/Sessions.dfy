/** When the grace period keeps its promise, and the runs in which it does not. */
module Sessions {
  import opened Identifiers
  import opened RoomModel
  import opened RoomEffects
  import opened RoomIndexes
  import opened GhostPeers

  /** "If the client reconnects within the TTL, memberships are restored": a
      WebSocket reconnect does so exactly when the server still knows the token. */
  lemma RestoredIffTokenKnown(cfg: Config, s: State, c: ClientId, token: Token, tenant: Option<string>, slot: bool)
    requires c in s.pending
    ensures var t := WsConnect(s, c, token, tenant, slot);
      (c !in t.pending && RoomsOf(t.clientRooms, c) == Elems(s.pending[c].rooms)
        && forall k :: k in s.pending[c].rooms ==> c in Members(t.rooms, k))
      <==> KnownToken(s, c) == Some(token)
  {
    ConnectEffect(cfg, s, c, token, tenant, slot);
  }

  /** An SSE or polling connect restores nothing, whatever token it presents: the session
      record stays, and with it the expulsion at its expiry. */
  lemma HttpNeverRestores(s: State, c: ClientId, token: Token, tenant: Option<string>, slot: bool, d: ClientId)
    ensures var t := HttpConnect(s, c, token, tenant, slot);
      && t.pending == s.pending && t.rooms == s.rooms && t.clientRooms == s.clientRooms
      && (d in s.pending ==> forall k :: k in PendingRooms(s, d) ==> d !in Members(Expire(t, d).rooms, k))
  {
    ExpireEffect(HttpConnect(s, c, token, tenant, slot), d);
  }

  /** Expiry takes a client out of exactly the recorded rooms, connected or not, and
      whether it is known to be in them or only by the record. */
  lemma ExpiryKeepsRoomIff(s: State, c: ClientId, k: Key)
    ensures c in Members(Expire(s, c).rooms, k) <==> c in Members(s.rooms, k) && k !in PendingRooms(s, c)
    ensures k in ClientRooms(Expire(s, c), c)
       <==> k in ClientRooms(s, c) && !(k in PendingRooms(s, c) && k in s.rooms)
  {
    ExpireEffect(s, c);
    assert ClientRooms(Expire(s, c), c) == ClientRooms(s, c) - Elems(PendingRooms(s, c)) * s.rooms.Keys;
  }

  // ---------------------------------------------------------------- runs that break the promises

  const TIGHT := Config(0, 1, 1, 30000, true)
  const CAROL := ClientId("c")
  const DAVE := ClientId("d")
  const LOBBY := Key("a")

  /** `CAROL` connected and registered, with the given rooms and session record. */
  function Connected(rooms: map<Key, set<ClientId>>, idx: map<ClientId, set<Key>>, pending: map<ClientId, Pending>,
                     frames: seq<Frame>): State
  {
    State(rooms, idx, pending, map[], map[], map[CAROL := frames], map[CAROL := "t"], map[CAROL := "t"])
  }

  function Away(rooms: map<Key, set<ClientId>>, pending: map<ClientId, Pending>): State {
    State(rooms, map[], pending, map[], map[], map[], map[], map[])
  }

  lemma Arrive(cfg: Config, rooms: map<Key, set<ClientId>>, pending: map<ClientId, Pending>)
    requires Reachable(cfg, Anything, Away(rooms, pending))
    ensures Reachable(cfg, Anything, Connected(rooms, map[], pending, []))
  {
    var s := Away(rooms, pending);
    var s1 := State(rooms, map[], pending, map[], map[], map[], map[CAROL := "t"], map[CAROL := "t"]);
    assert Step(cfg, s, EWsConnect(CAROL, "t", None, true)) == s1;
    ReachableStep(cfg, Anything, s, EWsConnect(CAROL, "t", None, true), s1);
    ReachableStep(cfg, Anything, s1, ERegister(CAROL), Connected(rooms, map[], pending, []));
  }

  /** A client with no rooms opens a room nobody is in. */
  lemma OpenRoom(cfg: Config, s: State, c: ClientId, room: string)
    requires s.rooms == map[] && c !in s.clientRooms && s.tenants == map[] && s.presence == map[]
    requires IsValidIdentifier(room)
    ensures Join(cfg, s, c, room, true)
         == s.(rooms := map[Key(room) := {c}], clientRooms := s.clientRooms[c := {Key(room)}],
               inbox := Multicast(s.inbox, {c}, Peers(Key(room), room, {c})))
  {
    assert RoomKey(s, c, room) == Key(room);
    assert JoinRefusal(cfg, s, c, room, true) == None;
    var t := s.(rooms := map[Key(room) := {c}], clientRooms := s.clientRooms[c := {Key(room)}]);
    assert Enter(s, c, Key(room)) == t;
  }

  lemma EnterA(cfg: Config)
    requires Reachable(cfg, Anything, Connected(map[], map[], map[], []))
    ensures Reachable(cfg, Anything,
                      Connected(map[LOBBY := {CAROL}], map[CAROL := {LOBBY}], map[], [Peers(LOBBY, "a", {CAROL})]))
  {
    var s := Connected(map[], map[], map[], []);
    OpenRoom(cfg, s, CAROL, "a");
    assert s.inbox[CAROL] + [Peers(LOBBY, "a", {CAROL})] == [Peers(LOBBY, "a", {CAROL})];
    ReachableStep(cfg, Anything, s, EJoin(CAROL, "a", true), Join(cfg, s, CAROL, "a", true));
  }

  lemma DropC(cfg: Config)
    requires cfg.sessionTtl > 0
    requires Reachable(cfg, Anything,
                       Connected(map[LOBBY := {CAROL}], map[CAROL := {LOBBY}], map[], [Peers(LOBBY, "a", {CAROL})]))
    ensures Reachable(cfg, Anything, Away(map[LOBBY := {CAROL}], map[CAROL := Pending([LOBBY], 0)]))
  {
    var s3 := Connected(map[LOBBY := {CAROL}], map[CAROL := {LOBBY}], map[], [Peers(LOBBY, "a", {CAROL})]);
    var s5 := Away(map[LOBBY := {CAROL}], map[CAROL := Pending([LOBBY], 0)]);
    var s4 := s5.(redis := map[CAROL := "t"]);
    DropStep(cfg);
    ReachableStep(cfg, Anything, s3, EDisconnect(CAROL, 0, [LOBBY]), s4);
    ReachableStep(cfg, Anything, s4, EForgetToken(CAROL), s5);
  }

  lemma DropStep(cfg: Config)
    requires cfg.sessionTtl > 0
    ensures var s := Connected(map[LOBBY := {CAROL}], map[CAROL := {LOBBY}], map[], [Peers(LOBBY, "a", {CAROL})]);
      && Enumerates([LOBBY], ClientRooms(s, CAROL))
      && Disconnect(cfg, s, CAROL, 0, [LOBBY])
         == Away(map[LOBBY := {CAROL}], map[CAROL := Pending([LOBBY], 0)]).(redis := map[CAROL := "t"])
  {
    assert Elems([LOBBY]) == {LOBBY};
  }

  /** Joined, dropped, and back on a new connection within the TTL. */
  lemma BackAfterBlip(cfg: Config)
    requires cfg.sessionTtl > 0
    ensures Reachable(cfg, Anything, Connected(map[LOBBY := {CAROL}], map[], map[CAROL := Pending([LOBBY], 0)], []))
  {
    ReachableInit(cfg, Anything);
    Arrive(cfg, map[], map[]);
    EnterA(cfg);
    DropC(cfg);
    Arrive(cfg, map[LOBBY := {CAROL}], map[CAROL := Pending([LOBBY], 0)]);
  }

  /** The ordinary cleanup forgets the token, so a client that comes back within
      the TTL is not restored, and is expelled from its room while connected. */
  lemma ReturningClientIsExpelled()
    ensures exists s :: (
      && Reachable(TIGHT, Anything, s) && SessionExpired(TIGHT, s, CAROL, 30000)
      && CAROL in s.inbox && CAROL in Members(s.rooms, LOBBY)
      && CAROL in Expire(s, CAROL).inbox && CAROL !in Members(Expire(s, CAROL).rooms, LOBBY))
  {
    BackAfterBlip(TIGHT);
    var s := Connected(map[LOBBY := {CAROL}], map[], map[CAROL := Pending([LOBBY], 0)], []);
    ExpireEffect(s, CAROL);
    assert Members(Expire(s, CAROL).rooms, LOBBY) == Members(s.rooms, LOBBY) - {CAROL};
    RemoveKeepsInboxes(s.(pending := s.pending - {CAROL}), CAROL, [LOBBY]);
    assert Reachable(TIGHT, Anything, s);
  }

  lemma {:induction false} RemoveKeepsInboxes(s: State, c: ClientId, ks: seq<Key>)
    ensures RemoveFromRooms(s, c, ks).inbox.Keys == s.inbox.Keys
    decreases |ks|
  {
    if ks != [] {
      RemoveKeepsInboxes(RemoveFromRoom(s, c, ks[0]), c, ks[1..]);
    }
  }

  lemma LeaveA(cfg: Config)
    requires cfg.sessionTtl > 0
    ensures Reachable(cfg, Anything, Connected(map[], map[], map[CAROL := Pending([LOBBY], 0)], []))
  {
    BackAfterBlip(cfg);
    var s := Connected(map[LOBBY := {CAROL}], map[], map[CAROL := Pending([LOBBY], 0)], []);
    var t := Connected(map[], map[], map[CAROL := Pending([LOBBY], 0)], []);
    assert RoomKey(s, CAROL, "a") == LOBBY;
    assert {CAROL} - {CAROL} == {};
    assert RemoveFromRoom(s, CAROL, LOBBY) == t;
    ReachableStep(cfg, Anything, s, ELeave(CAROL, "a"), t);
  }

  /** Having left the room its session record still lists, the client lets `DAVE` in. */
  lemma LeftAndReplaced(cfg: Config, room: string)
    requires cfg.sessionTtl > 0 && IsValidIdentifier(room)
    ensures Reachable(cfg, Anything,
                      Connected(map[Key(room) := {DAVE}], map[DAVE := {Key(room)}], map[CAROL := Pending([LOBBY], 0)],
                                []))
  {
    LeaveA(cfg);
    var t := Connected(map[], map[], map[CAROL := Pending([LOBBY], 0)], []);
    OpenRoom(cfg, t, DAVE, room);
    assert Multicast(t.inbox, {DAVE}, Peers(Key(room), room, {DAVE})) == t.inbox;
    ReachableStep(cfg, Anything, t, EJoin(DAVE, room, true), Join(cfg, t, DAVE, room, true));
  }

  /** Both caps can be exceeded: the restore re-enters a room without any admission test. */
  lemma PendingLeaveBreaksCaps()
    ensures exists s :: Reachable(TIGHT, Anything, s) && !TotalCap(TIGHT, s)
    ensures exists s :: Reachable(TIGHT, Anything, s) && !SizeCap(TIGHT, s)
  {
    RestoredOver("b");
    RestoredOver("a");
  }

  lemma RestoredOver(room: string)
    requires room == "a" || room == "b"
    ensures exists s :: (
      && Reachable(TIGHT, Anything, s)
      && (if room == "b" then !TotalCap(TIGHT, s) else !SizeCap(TIGHT, s)))
  {
    LeftAndReplaced(TIGHT, room);
    var s := Connected(map[Key(room) := {DAVE}], map[DAVE := {Key(room)}], map[CAROL := Pending([LOBBY], 0)], []);
    var e := EWsConnect(CAROL, "t", None, true);
    var t := Step(TIGHT, s, e);
    ReachableStep(TIGHT, Anything, s, e, t);
    ConnectEffect(TIGHT, s, CAROL, "t", None, true);
    assert Elems([LOBBY]) == {LOBBY};
    TwoRoomsOrTwoMembers(Key(room), LOBBY, CAROL, DAVE, t.rooms);
  }

  lemma TwoRoomsOrTwoMembers(r: Key, a: Key, c: ClientId, d: ClientId, rooms: map<Key, set<ClientId>>)
    requires c != d && RoomsGained(map[r := {d}], c, {a}, rooms)
    ensures r != a ==> |rooms| == 2
    ensures r == a ==> |Members(rooms, a)| == 2
  {
    var before := map[r := {d}];
    if r != a {
      assert rooms.Keys == {r, a};
      assert |rooms| == |rooms.Keys| == 2;
    } else {
      assert Members(rooms, a) == Members(before, a) + {c} == {c, d};
    }
  }

  // A list received before leaving survives, on the same connection, the departure
  // of the other member; the restore then puts the client back under that list.

  const OPEN := Config(0, 0, 0, 30000, true)
  const BOTH_LISTED := [Peers(LOBBY, "a", {CAROL, DAVE})]

  lemma JoinBesideD()
    ensures Reachable(OPEN, Anything,
                      Connected(map[LOBBY := {CAROL, DAVE}], map[DAVE := {LOBBY}, CAROL := {LOBBY}],
                                map[CAROL := Pending([LOBBY], 0)], BOTH_LISTED))
  {
    LeftAndReplaced(OPEN, "a");
    var t0 := Connected(map[LOBBY := {DAVE}], map[DAVE := {LOBBY}], map[CAROL := Pending([LOBBY], 0)], []);
    assert RoomKey(t0, CAROL, "a") == LOBBY && JoinRefusal(OPEN, t0, CAROL, "a", true) == None;
    assert {DAVE} + {CAROL} == {CAROL, DAVE} && {} + {LOBBY} == {LOBBY};
    assert Enter(t0, CAROL, LOBBY)
        == Connected(map[LOBBY := {CAROL, DAVE}], map[DAVE := {LOBBY}, CAROL := {LOBBY}], t0.pending, []);
    assert [] + BOTH_LISTED == BOTH_LISTED;
    ReachableStep(OPEN, Anything, t0, EJoin(CAROL, "a", true), Join(OPEN, t0, CAROL, "a", true));
  }

  lemma LeaveBesideD()
    ensures Reachable(OPEN, Anything,
                      Connected(map[LOBBY := {DAVE}], map[DAVE := {LOBBY}, CAROL := {}],
                                map[CAROL := Pending([LOBBY], 0)], BOTH_LISTED))
  {
    JoinBesideD();
    var t1 := Connected(map[LOBBY := {CAROL, DAVE}], map[DAVE := {LOBBY}, CAROL := {LOBBY}],
                        map[CAROL := Pending([LOBBY], 0)], BOTH_LISTED);
    var t2 := Connected(map[LOBBY := {DAVE}], map[DAVE := {LOBBY}, CAROL := {}], t1.pending, BOTH_LISTED);
    assert {CAROL, DAVE} - {CAROL} == {DAVE} && {LOBBY} - {LOBBY} == {};
    assert RemoveFromRoom(t1, CAROL, LOBBY) == t2;
    ReachableStep(OPEN, Anything, t1, ELeave(CAROL, "a"), t2);
  }

  lemma BothLeave()
    ensures Reachable(OPEN, Anything,
                      Connected(map[], map[DAVE := {}, CAROL := {}], map[CAROL := Pending([LOBBY], 0)], BOTH_LISTED))
  {
    LeaveBesideD();
    var t2 := Connected(map[LOBBY := {DAVE}], map[DAVE := {LOBBY}, CAROL := {}], map[CAROL := Pending([LOBBY], 0)],
                        BOTH_LISTED);
    var t3 := Connected(map[], map[DAVE := {}, CAROL := {}], t2.pending, BOTH_LISTED);
    assert {DAVE} - {DAVE} == {} && {LOBBY} - {LOBBY} == {};
    assert RemoveFromRoom(t2, DAVE, LOBBY) == t3;
    ReachableStep(OPEN, Anything, t2, ELeave(DAVE, "a"), t3);
  }

  /** Between restore and registration a client can hold a ghost: `DAVE` left, `CAROL`'s list still names it. */
  lemma PendingLeaveShowsGhost()
    ensures exists s :: Reachable(OPEN, Anything, s) && !Ghostless(s, CAROL)
  {
    BothLeave();
    var s := Connected(map[], map[DAVE := {}, CAROL := {}], map[CAROL := Pending([LOBBY], 0)], BOTH_LISTED);
    var t := WsConnect(s, CAROL, "t", None, true);
    ReachableStep(OPEN, Anything, s, EWsConnect(CAROL, "t", None, true), t);
    ConnectEffect(OPEN, s, CAROL, "t", None, true);
    assert Members(t.rooms, LOBBY) == {CAROL};
    assert LastPeers(t.inbox[CAROL], LOBBY) == Some({CAROL, DAVE});
    assert DAVE in {CAROL, DAVE} && DAVE !in {CAROL};
    assert !ViewSound(t.rooms, t.inbox, CAROL, LOBBY);
  }

  /** Exactly which restores keep the caps. */
  lemma RestoreKeepsCapsIff(cfg: Config, s: State, c: ClientId)
    requires c in s.pending && TotalCap(cfg, s) && SizeCap(cfg, s)
    ensures var ks := s.pending[c].rooms;
      TotalCap(cfg, Restore(s, c)) && SizeCap(cfg, Restore(s, c))
      <==> && (cfg.maxTotalRooms == 0 || |s.rooms.Keys + Elems(ks)| <= cfg.maxTotalRooms)
           && (cfg.maxRoomSize == 0 || forall k :: k in ks ==>
                 c in Members(s.rooms, k) || |Members(s.rooms, k)| < cfg.maxRoomSize)
  {
    RestoreEffect(s, c);
    RestoredSizes(cfg, s, c, Restore(s, c));
  }

  lemma RestoredSizes(cfg: Config, s: State, c: ClientId, t: State)
    requires c in s.pending && SizeCap(cfg, s) && Restored(s, c, t)
    ensures |t.rooms| == |s.rooms.Keys + Elems(s.pending[c].rooms)|
    ensures SizeCap(cfg, t)
       <==> (cfg.maxRoomSize == 0
         || forall k :: k in s.pending[c].rooms ==> c in Members(s.rooms, k) || |Members(s.rooms, k)| < cfg.maxRoomSize)
  {
    var ks := s.pending[c].rooms;
    forall k
      ensures |Members(t.rooms, k)| == |Members(s.rooms, k)| + if k in ks && c !in Members(s.rooms, k) then 1 else 0
    {
      assert c in Members(s.rooms, k) ==> Members(s.rooms, k) + {c} == Members(s.rooms, k);
    }
  }
}
