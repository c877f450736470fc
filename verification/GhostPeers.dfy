/** Peer lists never name somebody who has left: only joins go unannounced. */
module GhostPeers {
  import opened Identifiers
  import opened RoomModel
  import opened RoomEffects
  import opened RoomIndexes

  /** The latest ROOM-PEERS list for `k` among the frames of one connection. */
  function LastPeers(fs: seq<Frame>, k: Key): Option<set<ClientId>> {
    if fs == [] then None
    else
      var f := fs[|fs| - 1];
      if f.Peers? && f.key == k then Some(f.members) else LastPeers(fs[..|fs| - 1], k)
  }

  /** The list `d` last received for `k` on its current connection is still a list of members. */
  ghost predicate ViewSound(rooms: map<Key, set<ClientId>>, inbox: map<ClientId, seq<Frame>>, d: ClientId, k: Key) {
    d in inbox && d in Members(rooms, k) && LastPeers(inbox[d], k).Some? ==>
      LastPeers(inbox[d], k).value <= Members(rooms, k)
  }

  /** `d` sees no ghost in any room it is in. */
  ghost predicate NoGhosts(rooms: map<Key, set<ClientId>>, inbox: map<ClientId, seq<Frame>>, d: ClientId) {
    forall k :: ViewSound(rooms, inbox, d, k)
  }

  ghost predicate Ghostless(s: State, d: ClientId) {
    NoGhosts(s.rooms, s.inbox, d)
  }

  // ---------------------------------------------------------------- frames

  lemma LastPeersAppend(fs: seq<Frame>, f: Frame, k: Key)
    ensures LastPeers(fs + [f], k) == if f.Peers? && f.key == k then Some(f.members) else LastPeers(fs, k)
  {
    assert (fs + [f])[..|fs|] == fs;
  }

  lemma LastPeersMulticast(inbox: map<ClientId, seq<Frame>>, to: set<ClientId>, f: Frame, d: ClientId, k: Key)
    requires d in inbox
    ensures LastPeers(Multicast(inbox, to, f)[d], k)
         == if d in to && f.Peers? && f.key == k then Some(f.members) else LastPeers(inbox[d], k)
  {
    LastPeersAppend(inbox[d], f, k);
  }

  /** Sending keeps a view sound when every list sent is a list of members. */
  lemma SendGhostless(rooms: map<Key, set<ClientId>>, inbox: map<ClientId, seq<Frame>>, to: set<ClientId>, f: Frame,
                      d: ClientId)
    requires NoGhosts(rooms, inbox, d)
    requires f.Peers? ==> f.members <= Members(rooms, f.key)
    ensures NoGhosts(rooms, Multicast(inbox, to, f), d)
  {
    forall k ensures ViewSound(rooms, Multicast(inbox, to, f), d, k) {
      assert ViewSound(rooms, inbox, d, k);
      if d in inbox {
        LastPeersMulticast(inbox, to, f, d, k);
      }
    }
  }

  // ---------------------------------------------------------------- joins and removals

  /** A joiner may have a stale view of the room from an earlier stay; the list it is sent replaces it. */
  lemma EnterGhostless(s: State, c: ClientId, k: Key, room: string, t: State, d: ClientId)
    requires Ghostless(s, d)
    requires RoomsGained(s.rooms, c, {k}, t.rooms)
    requires t.inbox == Multicast(s.inbox, {c}, Peers(k, room, Members(t.rooms, k)))
    ensures Ghostless(t, d)
  {
    forall x ensures ViewSound(t.rooms, t.inbox, d, x) {
      assert ViewSound(s.rooms, s.inbox, d, x);
      if d in s.inbox {
        LastPeersMulticast(s.inbox, {c}, Peers(k, room, Members(t.rooms, k)), d, x);
      }
    }
  }

  lemma GreetGhostless(s: State, c: ClientId, k: Key, room: string, d: ClientId)
    requires Ghostless(s, d)
    ensures Ghostless(Greet(Enter(s, c, k), c, k, room), d)
  {
    var s1 := Enter(s, c, k);
    EnterEffect(s, c, k);
    var s2 := Send(s1, {c}, Peers(k, room, Members(s1.rooms, k)));
    EnterGhostless(s, c, k, room, s2, d);
    if k in s1.presence {
      SendGhostless(s2.rooms, s2.inbox, {c}, Snapshot(k, room, s1.presence[k]), d);
    }
  }

  lemma JoinGhostless(cfg: Config, s: State, c: ClientId, room: string, allowed: bool, d: ClientId)
    requires Ghostless(s, d)
    ensures Ghostless(Join(cfg, s, c, room, allowed), d)
  {
    var refusal := JoinRefusal(cfg, s, c, room, allowed);
    if refusal.Some? {
      SendGhostless(s.rooms, s.inbox, {c}, Refused(room, refusal.value), d);
    } else {
      GreetGhostless(s, c, RoomKey(s, c, room), room, d);
    }
  }

  /** Everybody who stays in the room is sent the new list. */
  lemma RemoveGhostless(s: State, c: ClientId, k: Key, d: ClientId)
    requires Ghostless(s, d)
    ensures Ghostless(RemoveFromRoom(s, c, k), d)
  {
    if k in s.rooms {
      var left := s.rooms[k] - {c};
      var f := Peers(k, RoomDisplay(k.name), left);
      RoomsWithoutLoses(s.rooms, c, k);
      var rooms' := RoomsWithout(s.rooms, c, k);
      forall x ensures ViewSound(rooms', Multicast(s.inbox, left, f), d, x) {
        assert ViewSound(s.rooms, s.inbox, d, x);
        if d in s.inbox {
          LastPeersMulticast(s.inbox, left, f, d, x);
        }
      }
    }
  }

  lemma {:induction false} RemoveAllGhostless(s: State, c: ClientId, ks: seq<Key>, d: ClientId)
    requires Ghostless(s, d)
    ensures Ghostless(RemoveFromRooms(s, c, ks), d)
    decreases |ks|
  {
    if ks != [] {
      RemoveGhostless(s, c, ks[0], d);
      RemoveAllGhostless(RemoveFromRoom(s, c, ks[0]), c, ks[1..], d);
    }
  }

  // ---------------------------------------------------------------- connections

  /** A sender that is gone, new or untouched has no more to keep than before. */
  lemma SameViewGhostless(s: State, t: State, d: ClientId)
    requires d !in t.inbox || t.inbox[d] == [] || (Ghostless(s, d) && d in s.inbox && t.inbox[d] == s.inbox[d])
    requires t.rooms == s.rooms
    ensures Ghostless(t, d)
  {
    forall k ensures ViewSound(t.rooms, t.inbox, d, k) {
      assert Ghostless(s, d) ==> ViewSound(s.rooms, s.inbox, d, k);
    }
  }

  lemma DisconnectGhostless(cfg: Config, s: State, c: ClientId, now: int, order: seq<Key>, d: ClientId)
    requires Ghostless(s, d) || d == c
    ensures Ghostless(Disconnect(cfg, s, c, now, order), d)
  {
    var s1 := s.(inbox := s.inbox - {c}, clients := s.clients - {c}, tenants := s.tenants - {c});
    SameViewGhostless(s, s1, d);
    var s2 := s1.(clientRooms := s1.clientRooms - {c});
    SameViewGhostless(s1, s2, d);
    RemoveAllGhostless(s2, c, order, d);
  }

  /** No list the client holds on its registered sender names an outsider of a room it is put back in. */
  ghost predicate RestoreSafe(s: State, c: ClientId) {
    forall k :: k in PendingRooms(s, c) && c in s.inbox && LastPeers(s.inbox[c], k).Some? ==>
      LastPeers(s.inbox[c], k).value <= Members(s.rooms, k) + {c}
  }

  /** Exactly which restores keep the restored client's views sound; the others' stay sound anyway. */
  lemma RestoreGhostlessIff(s: State, c: ClientId, d: ClientId)
    requires Ghostless(s, d) && c in s.pending
    ensures Ghostless(Restore(s, c), d) <==> (d != c || RestoreSafe(s, c))
  {
    RestoreEffect(s, c);
    RestoredGhostlessIff(s, c, Restore(s, c), d);
  }

  lemma RestoredGhostlessIff(s: State, c: ClientId, t: State, d: ClientId)
    requires Ghostless(s, d) && Restored(s, c, t) && t.inbox == s.inbox
    ensures Ghostless(t, d) <==> (d != c || RestoreSafe(s, c))
  {
    if d != c || RestoreSafe(s, c) {
      forall k ensures ViewSound(t.rooms, t.inbox, d, k) {
        assert ViewSound(s.rooms, s.inbox, d, k);
      }
    }
    if d == c && Ghostless(t, c) {
      forall k | k in PendingRooms(s, c) && c in s.inbox && LastPeers(s.inbox[c], k).Some?
        ensures LastPeers(s.inbox[c], k).value <= Members(s.rooms, k) + {c}
      {
        assert ViewSound(t.rooms, t.inbox, c, k);
      }
    }
  }

  lemma SoundRestoreIsSafe(s: State, c: ClientId)
    requires Ghostless(s, c) && PendingSound(s)
    ensures RestoreSafe(s, c)
  {
    forall k | k in PendingRooms(s, c) && c in s.inbox && LastPeers(s.inbox[c], k).Some?
      ensures LastPeers(s.inbox[c], k).value <= Members(s.rooms, k) + {c}
    {
      assert c in Members(s.rooms, k);
      assert ViewSound(s.rooms, s.inbox, c, k);
    }
  }

  /** This connect presents a known token and finds a session to restore. */
  predicate Restores(s: State, e: Event) {
    e.EWsConnect? && KnownToken(s, e.c) == Some(e.token) && e.c in s.pending
  }

  lemma ConnectGhostless(s: State, c: ClientId, token: Token, tenant: Option<string>, slot: bool, d: ClientId)
    requires Ghostless(s, d)
    requires Restores(s, EWsConnect(c, token, tenant, slot)) && d == c ==> RestoreSafe(s, c)
    ensures Ghostless(WsConnect(s, c, token, tenant, slot), d)
  {
    var s1 := Identify(s, c, token, tenant);
    assert Ghostless(s1, d);
    if Restores(s, EWsConnect(c, token, tenant, slot)) {
      assert PendingRooms(s1, c) == PendingRooms(s, c);
      assert d == c ==> RestoreSafe(s1, c);
      RestoreGhostlessIff(s1, c, d);
    }
  }

  lemma TrafficGhostless(cfg: Config, s: State, e: Event, d: ClientId)
    requires Ghostless(s, d) && (e.EPresence? || e.EData? || e.EResync?)
    ensures Ghostless(Step(cfg, s, e), d)
  {
    match e
    case EPresence(c, room, update) =>
      var k := RoomKey(s, c, room);
      SendGhostless(s.rooms, s.inbox, Members(s.rooms, k) - {c}, PresenceFrame(k, room, c, update), d);
    case EData(c, room, payload) =>
      var k := RoomKey(s, c, room);
      SendGhostless(s.rooms, s.inbox, {c}, Refused(room, RelayDisabled), d);
      SendGhostless(s.rooms, s.inbox, Members(s.rooms, k) - {c}, Data(k, room, c, payload), d);
    case EResync(c, k) =>
      if k in s.rooms {
        SendGhostless(s.rooms, s.inbox, {c}, Peers(k, RoomDisplay(k.name), s.rooms[k]), d);
      }
  }

  // ---------------------------------------------------------------- runs

  /** Steps after which the client's registered sender is gone or has received nothing. */
  predicate Settles(s: State, e: Event) {
    || e.ERegister? || e.EDisconnect? || e.EDropSender?
    || (e.EHttpConnect? && (if e.c in s.clients then s.clients[e.c] == e.token else e.slot))
  }

  lemma SenderGhostless(cfg: Config, s: State, e: Event, d: ClientId)
    requires e.EHttpConnect? || e.ERegister? || e.EDropSender? || e.EForgetToken?
    requires (e.c == d && Settles(s, e)) || Ghostless(s, d)
    ensures Ghostless(Step(cfg, s, e), d)
  {
    var t := Step(cfg, s, e);
    assert t.rooms == s.rooms;
    assert d !in t.inbox || t.inbox[d] == [] || (d in s.inbox && t.inbox[d] == s.inbox[d]);
    SameViewGhostless(s, t, d);
  }

  lemma GhostlessStep(cfg: Config, s: State, e: Event, d: ClientId)
    requires Enabled(cfg, s, e)
    requires (e.c == d && Settles(s, e)) || Ghostless(s, d)
    requires Restores(s, e) && e.c == d ==> RestoreSafe(s, d)
    ensures Ghostless(Step(cfg, s, e), d)
  {
    match e
    case EJoin(c, room, allowed) => JoinGhostless(cfg, s, c, room, allowed, d);
    case ELeave(c, room) => RemoveGhostless(s, c, RoomKey(s, c, room), d);
    case EDisconnect(c, now, order) => DisconnectGhostless(cfg, s, c, now, order, d);
    case EExpire(c, now) => RemoveAllGhostless(s.(pending := s.pending - {c}), c, PendingRooms(s, c), d);
    case EWsConnect(c, token, tenant, slot) => ConnectGhostless(s, c, token, tenant, slot, d);
    case EPresence(c, room, update) => TrafficGhostless(cfg, s, e, d);
    case EData(c, room, payload) => TrafficGhostless(cfg, s, e, d);
    case EResync(c, k) => TrafficGhostless(cfg, s, e, d);
    case _ => SenderGhostless(cfg, s, e, d);
  }

  /** A restore unsettles its client until a new sender is registered for it or the old one goes. */
  function NextUnsettled(s: State, u: set<ClientId>, e: Event): set<ClientId> {
    if Restores(s, e) then u + {e.c} else if Settles(s, e) then u - {e.c} else u
  }

  /** Clients between the restore of a reconnect and the registration of its new sender. */
  function Unsettled(cfg: Config, s: State, u: set<ClientId>, es: seq<Event>): set<ClientId>
    decreases |es|
  {
    if es == [] then u else Unsettled(cfg, Step(cfg, s, es[0]), NextUnsettled(s, u, es[0]), es[1..])
  }

  /** No ghost peers, in every run whatever: while no reconnect of `d` is between
      its restore and its registration, `d`'s lists name only members.  Connects
      that are refused, or find no session to restore, are no exception. */
  lemma {:induction false} GhostlessRun(cfg: Config, s: State, u: set<ClientId>, es: seq<Event>, d: ClientId)
    requires Run(cfg, s, es, Anything)
    requires d in u || Ghostless(s, d)
    ensures d in Unsettled(cfg, s, u, es) || Ghostless(Exec(cfg, s, es), d)
    decreases |es|
  {
    if es != [] {
      var e := es[0];
      var u' := NextUnsettled(s, u, e);
      if d !in u' {
        GhostlessStep(cfg, s, e, d);
      }
      GhostlessRun(cfg, Step(cfg, s, e), u', es[1..], d);
    }
  }

  /** Unless somebody leaves a room its session record still lists, this holds without exception. */
  lemma GhostlessDisciplinedRun(cfg: Config, es: seq<Event>, d: ClientId)
    requires Run(cfg, INIT, es, NoPendingLeave)
    ensures Ghostless(Exec(cfg, INIT, es), d)
  {
    forall t, e | Ghostless(t, d) && Capped(cfg, t) && Enabled(cfg, t, e) && NoPendingLeave(t, e)
      ensures Ghostless(Step(cfg, t, e), d) && Capped(cfg, Step(cfg, t, e))
    {
      SoundRestoreIsSafe(t, d);
      GhostlessStep(cfg, t, e, d);
      CappedStep(cfg, t, e);
    }
    RunInduction(cfg, INIT, es, NoPendingLeave, s => Ghostless(s, d) && Capped(cfg, s));
  }
}
