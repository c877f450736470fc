/** A connection blip that ends in a restore is invisible: the run without it
    reaches the same state and sends everybody else the same frames. */
module Transparency {
  import opened Identifiers
  import opened RoomModel
  import opened RoomEffects
  import opened RoomIndexes

  function Get<T>(m: map<ClientId, T>, d: ClientId): Option<T> {
    if d in m then Some(m[d]) else None
  }

  /** What the server keeps about one client, its frames aside. */
  datatype Own = Own(rooms: set<Key>, pending: Option<Pending>, tenant: Option<string>, client: Option<Token>,
                     redis: Option<Token>)

  function OwnOf(s: State, d: ClientId): Own {
    Own(RoomsOf(s.clientRooms, d), Get(s.pending, d), Get(s.tenants, d), Get(s.clients, d), Get(s.redis, d))
  }

  /** Nothing changed in the records of clients other than `a`. */
  ghost predicate OnlyOwn(s: State, t: State, a: ClientId) {
    forall d :: d != a ==> OwnOf(t, d) == OwnOf(s, d)
  }

  /** The same frames went to everybody but `c`. */
  ghost predicate SameFrames(i: map<ClientId, seq<Frame>>, j: map<ClientId, seq<Frame>>, c: ClientId) {
    forall d :: d != c ==> Get(i, d) == Get(j, d)
  }

  /** Two states that differ in nothing but `c`'s frames and, while it is away, `c`'s own records. */
  ghost predicate Agree(s: State, t: State, c: ClientId, away: bool) {
    && s.rooms == t.rooms && s.presence == t.presence
    && (forall d :: d != c || !away ==> OwnOf(s, d) == OwnOf(t, d))
    && SameFrames(s.inbox, t.inbox, c)
  }

  lemma AgreeAfter(s: State, t: State, s': State, t': State, c: ClientId, away: bool, a: ClientId)
    requires Agree(s, t, c, away) && OnlyOwn(s, s', a) && OnlyOwn(t, t', a)
    requires OwnOf(s', a) == OwnOf(t', a)
    requires s'.rooms == t'.rooms && s'.presence == t'.presence && SameFrames(s'.inbox, t'.inbox, c)
    ensures Agree(s', t', c, away)
  {
  }

  // ---------------------------------------------------------------- a step only touches the actor's records

  lemma EnterOnlyOwn(s: State, a: ClientId, k: Key)
    ensures OnlyOwn(s, Enter(s, a, k), a)
  {
  }

  lemma RemoveOnlyOwn(s: State, a: ClientId, k: Key)
    ensures OnlyOwn(s, RemoveFromRoom(s, a, k), a)
    ensures OwnOf(RemoveFromRoom(s, a, k), a)
         == OwnOf(s, a).(rooms := if k in s.rooms then OwnOf(s, a).rooms - {k} else OwnOf(s, a).rooms)
  {
  }

  lemma {:induction false} RemoveAllOnlyOwn(s: State, a: ClientId, ks: seq<Key>)
    ensures OnlyOwn(s, RemoveFromRooms(s, a, ks), a)
    decreases |ks|
  {
    if ks != [] {
      var m := RemoveFromRoom(s, a, ks[0]);
      RemoveOnlyOwn(s, a, ks[0]);
      RemoveAllOnlyOwn(m, a, ks[1..]);
      forall d | d != a ensures OwnOf(RemoveFromRooms(s, a, ks), d) == OwnOf(s, d) {
        assert OwnOf(m, d) == OwnOf(s, d);
      }
    }
  }

  lemma SetOnlyOwn(s: State, t: State, a: ClientId)
    requires forall d :: d != a ==> RoomsOf(t.clientRooms, d) == RoomsOf(s.clientRooms, d)
    requires forall d :: d != a ==> Get(t.pending, d) == Get(s.pending, d)
    requires forall d :: d != a ==> Get(t.tenants, d) == Get(s.tenants, d)
    requires forall d :: d != a ==> Get(t.clients, d) == Get(s.clients, d)
    requires forall d :: d != a ==> Get(t.redis, d) == Get(s.redis, d)
    ensures OnlyOwn(s, t, a)
  {
  }

  lemma OnlyOwnTrans(s: State, m: State, t: State, a: ClientId)
    requires OnlyOwn(s, m, a) && OnlyOwn(m, t, a)
    ensures OnlyOwn(s, t, a)
  {
    forall d | d != a ensures OwnOf(t, d) == OwnOf(s, d) {
      assert OwnOf(m, d) == OwnOf(s, d);
    }
  }

  // ---------------------------------------------------------------- sending

  lemma FramesAgree(s: State, t: State, c: ClientId, away: bool, i: map<ClientId, seq<Frame>>,
                    j: map<ClientId, seq<Frame>>)
    requires Agree(s, t, c, away) && SameFrames(i, j, c)
    ensures Agree(s.(inbox := i), t.(inbox := j), c, away)
  {
    forall d | d != c || !away ensures OwnOf(s.(inbox := i), d) == OwnOf(t.(inbox := j), d) {
      assert OwnOf(s, d) == OwnOf(t, d);
    }
  }

  lemma SendAgrees(s: State, t: State, c: ClientId, away: bool, to: set<ClientId>, f: Frame)
    requires Agree(s, t, c, away)
    ensures Agree(Send(s, to, f), Send(t, to, f), c, away)
  {
    SameMulticast(s.inbox, t.inbox, to, f, c);
    FramesAgree(s, t, c, away, Multicast(s.inbox, to, f), Multicast(t.inbox, to, f));
  }

  lemma SameMulticast(i: map<ClientId, seq<Frame>>, j: map<ClientId, seq<Frame>>, to: set<ClientId>, f: Frame,
                      c: ClientId)
    requires SameFrames(i, j, c)
    ensures SameFrames(Multicast(i, to, f), Multicast(j, to, f), c)
  {
    forall d | d != c ensures Get(Multicast(i, to, f), d) == Get(Multicast(j, to, f), d) {
      assert Get(i, d) == Get(j, d);
    }
  }

  lemma SameOwn(s: State, t: State, c: ClientId, away: bool, a: ClientId, room: string)
    requires Agree(s, t, c, away) && (away ==> a != c)
    ensures OwnOf(s, a) == OwnOf(t, a)
    ensures Tenant(s, a) == Tenant(t, a) && RoomKey(s, a, room) == RoomKey(t, a, room)
    ensures KnownToken(s, a) == KnownToken(t, a)
    ensures PendingRooms(s, a) == PendingRooms(t, a)
    ensures ClientRooms(s, a) == ClientRooms(t, a)
  {
    assert OwnOf(s, a) == OwnOf(t, a);
    assert Get(s.tenants, a) == Get(t.tenants, a);
    assert Get(s.clients, a) == Get(t.clients, a) && Get(s.redis, a) == Get(t.redis, a);
    assert Get(s.pending, a) == Get(t.pending, a);
  }

  // ---------------------------------------------------------------- each handler keeps agreement

  lemma GreetAgrees(s: State, t: State, c: ClientId, away: bool, a: ClientId, k: Key, room: string)
    requires Agree(s, t, c, away)
    ensures Agree(Greet(s, a, k, room), Greet(t, a, k, room), c, away)
  {
    var f := Peers(k, room, Members(s.rooms, k));
    SendAgrees(s, t, c, away, {a}, f);
    if k in s.presence {
      SendAgrees(Send(s, {a}, f), Send(t, {a}, f), c, away, {a}, Snapshot(k, room, s.presence[k]));
    }
  }

  lemma EnterAgrees(s: State, t: State, c: ClientId, away: bool, a: ClientId, k: Key)
    requires Agree(s, t, c, away) && (away ==> a != c)
    ensures Agree(Enter(s, a, k), Enter(t, a, k), c, away)
  {
    SameOwn(s, t, c, away, a, "");
    EnterOnlyOwn(s, a, k);
    EnterOnlyOwn(t, a, k);
    AgreeAfter(s, t, Enter(s, a, k), Enter(t, a, k), c, away, a);
  }

  lemma JoinAgrees(cfg: Config, s: State, t: State, c: ClientId, away: bool, a: ClientId, room: string, allowed: bool)
    requires Agree(s, t, c, away) && (away ==> a != c)
    ensures Agree(Join(cfg, s, a, room, allowed), Join(cfg, t, a, room, allowed), c, away)
  {
    SameOwn(s, t, c, away, a, room);
    var refusal := JoinRefusal(cfg, s, a, room, allowed);
    assert refusal == JoinRefusal(cfg, t, a, room, allowed);
    if refusal.Some? {
      SendAgrees(s, t, c, away, {a}, Refused(room, refusal.value));
    } else {
      var k := RoomKey(s, a, room);
      EnterAgrees(s, t, c, away, a, k);
      GreetAgrees(Enter(s, a, k), Enter(t, a, k), c, away, a, k, room);
    }
  }

  lemma RemoveAgrees(s: State, t: State, c: ClientId, away: bool, a: ClientId, k: Key)
    requires Agree(s, t, c, away) && (away ==> a != c)
    ensures Agree(RemoveFromRoom(s, a, k), RemoveFromRoom(t, a, k), c, away)
  {
    if k in s.rooms {
      var left := s.rooms[k] - {a};
      SameMulticast(s.inbox, t.inbox, left, Peers(k, RoomDisplay(k.name), left), c);
      SameOwn(s, t, c, away, a, "");
      RemoveOnlyOwn(s, a, k);
      RemoveOnlyOwn(t, a, k);
      AgreeAfter(s, t, RemoveFromRoom(s, a, k), RemoveFromRoom(t, a, k), c, away, a);
    }
  }

  lemma {:induction false} RemoveAllAgrees(s: State, t: State, c: ClientId, away: bool, a: ClientId, ks: seq<Key>)
    requires Agree(s, t, c, away) && (away ==> a != c)
    ensures Agree(RemoveFromRooms(s, a, ks), RemoveFromRooms(t, a, ks), c, away)
    decreases |ks|
  {
    if ks != [] {
      RemoveAgrees(s, t, c, away, a, ks[0]);
      RemoveAllAgrees(RemoveFromRoom(s, a, ks[0]), RemoveFromRoom(t, a, ks[0]), c, away, a, ks[1..]);
    }
  }

  /** Both states get the same new records for `a`, and `a`'s sender changes alike. */
  lemma RecordsAgree(s: State, t: State, s': State, t': State, c: ClientId, away: bool, a: ClientId)
    requires Agree(s, t, c, away) && OnlyOwn(s, s', a) && OnlyOwn(t, t', a) && OwnOf(s', a) == OwnOf(t', a)
    requires s'.rooms == t'.rooms && s'.presence == t'.presence
    requires forall d :: d != a ==> Get(s'.inbox, d) == Get(s.inbox, d) && Get(t'.inbox, d) == Get(t.inbox, d)
    requires a != c ==> Get(s'.inbox, a) == Get(t'.inbox, a)
    ensures Agree(s', t', c, away)
  {
    forall d | d != c ensures Get(s'.inbox, d) == Get(t'.inbox, d) {
      assert Get(s.inbox, d) == Get(t.inbox, d);
    }
    AgreeAfter(s, t, s', t', c, away, a);
  }

  // ---------------------------------------------------------------- connections

  function Gone(s: State, a: ClientId): State {
    s.(inbox := s.inbox - {a}, clients := s.clients - {a}, tenants := s.tenants - {a},
       clientRooms := s.clientRooms - {a})
  }

  lemma GoneOwn(s: State, a: ClientId)
    ensures OnlyOwn(s, Gone(s, a), a)
    ensures OwnOf(Gone(s, a), a) == OwnOf(s, a).(rooms := {}, tenant := None, client := None)
  {
  }

  lemma DisconnectIs(cfg: Config, s: State, a: ClientId, now: int, order: seq<Key>)
    requires Enumerates(order, ClientRooms(s, a))
    ensures Disconnect(cfg, s, a, now, order)
         == if cfg.sessionTtl == 0 then RemoveFromRooms(Gone(s, a), a, order)
            else if order == [] then Gone(s, a)
            else Gone(s, a).(pending := s.pending[a := Pending(order, now)])
  {
    if a !in s.clientRooms {
      NothingListed(order);
      assert s.clientRooms - {a} == s.clientRooms;
    }
  }

  lemma GoneAgrees(s: State, t: State, c: ClientId, away: bool, a: ClientId)
    requires Agree(s, t, c, away) && (away ==> a != c)
    ensures Agree(Gone(s, a), Gone(t, a), c, away)
  {
    SameOwn(s, t, c, away, a, "");
    GoneOwn(s, a);
    GoneOwn(t, a);
    RecordsAgree(s, t, Gone(s, a), Gone(t, a), c, away, a);
  }

  lemma PendAgrees(s: State, t: State, c: ClientId, away: bool, a: ClientId, p: Pending)
    requires Agree(s, t, c, away) && (away ==> a != c)
    ensures Agree(s.(pending := s.pending[a := p]), t.(pending := t.pending[a := p]), c, away)
  {
    SameOwn(s, t, c, away, a, "");
    SetOnlyOwn(s, s.(pending := s.pending[a := p]), a);
    SetOnlyOwn(t, t.(pending := t.pending[a := p]), a);
    RecordsAgree(s, t, s.(pending := s.pending[a := p]), t.(pending := t.pending[a := p]), c, away, a);
  }

  lemma UnpendAgrees(s: State, t: State, c: ClientId, away: bool, a: ClientId)
    requires Agree(s, t, c, away) && (away ==> a != c)
    ensures Agree(s.(pending := s.pending - {a}), t.(pending := t.pending - {a}), c, away)
  {
    SameOwn(s, t, c, away, a, "");
    SetOnlyOwn(s, s.(pending := s.pending - {a}), a);
    SetOnlyOwn(t, t.(pending := t.pending - {a}), a);
    RecordsAgree(s, t, s.(pending := s.pending - {a}), t.(pending := t.pending - {a}), c, away, a);
  }

  lemma DisconnectAgrees(cfg: Config, s: State, t: State, c: ClientId, away: bool, a: ClientId, now: int,
                         order: seq<Key>)
    requires Agree(s, t, c, away) && (away ==> a != c) && Enumerates(order, ClientRooms(s, a))
    ensures Agree(Disconnect(cfg, s, a, now, order), Disconnect(cfg, t, a, now, order), c, away)
  {
    SameOwn(s, t, c, away, a, "");
    DisconnectIs(cfg, s, a, now, order);
    DisconnectIs(cfg, t, a, now, order);
    GoneAgrees(s, t, c, away, a);
    RemoveAllAgrees(Gone(s, a), Gone(t, a), c, away, a, order);
    PendAgrees(Gone(s, a), Gone(t, a), c, away, a, Pending(order, now));
  }

  lemma ExpireAgrees(s: State, t: State, c: ClientId, away: bool, a: ClientId)
    requires Agree(s, t, c, away) && (away ==> a != c)
    ensures Agree(Expire(s, a), Expire(t, a), c, away)
  {
    SameOwn(s, t, c, away, a, "");
    UnpendAgrees(s, t, c, away, a);
    RemoveAllAgrees(s.(pending := s.pending - {a}), t.(pending := t.pending - {a}), c, away, a, PendingRooms(s, a));
  }

  lemma IdentifyOwn(s: State, a: ClientId, token: Token, tenant: Option<string>)
    ensures OnlyOwn(s, Identify(s, a, token, tenant), a)
    ensures OwnOf(Identify(s, a, token, tenant), a)
         == OwnOf(s, a).(client := Some(token), tenant := if tenant.Some? then tenant else OwnOf(s, a).tenant)
  {
  }

  lemma IdentifyAgrees(s: State, t: State, c: ClientId, away: bool, a: ClientId, token: Token, tenant: Option<string>)
    requires Agree(s, t, c, away) && (away ==> a != c)
    ensures Agree(Identify(s, a, token, tenant), Identify(t, a, token, tenant), c, away)
  {
    SameOwn(s, t, c, away, a, "");
    IdentifyOwn(s, a, token, tenant);
    IdentifyOwn(t, a, token, tenant);
    RecordsAgree(s, t, Identify(s, a, token, tenant), Identify(t, a, token, tenant), c, away, a);
  }

  lemma RedisAgrees(s: State, t: State, c: ClientId, away: bool, a: ClientId, token: Option<Token>)
    requires Agree(s, t, c, away) && (away ==> a != c)
    ensures Agree(s.(redis := Put(s.redis, a, token)), t.(redis := Put(t.redis, a, token)), c, away)
  {
    SameOwn(s, t, c, away, a, "");
    SetOnlyOwn(s, s.(redis := Put(s.redis, a, token)), a);
    SetOnlyOwn(t, t.(redis := Put(t.redis, a, token)), a);
    RecordsAgree(s, t, s.(redis := Put(s.redis, a, token)), t.(redis := Put(t.redis, a, token)), c, away, a);
  }

  function Put<T>(m: map<ClientId, T>, a: ClientId, v: Option<T>): map<ClientId, T> {
    if v.Some? then m[a := v.value] else m - {a}
  }

  lemma SenderAgrees(s: State, t: State, c: ClientId, away: bool, a: ClientId, fs: Option<seq<Frame>>)
    requires Agree(s, t, c, away)
    ensures Agree(s.(inbox := Put(s.inbox, a, fs)), t.(inbox := Put(t.inbox, a, fs)), c, away)
  {
    forall d | d != c ensures Get(Put(s.inbox, a, fs), d) == Get(Put(t.inbox, a, fs), d) {
      assert Get(s.inbox, d) == Get(t.inbox, d);
    }
    FramesAgree(s, t, c, away, Put(s.inbox, a, fs), Put(t.inbox, a, fs));
  }

  lemma RestoreOwn(s: State, a: ClientId)
    requires a in s.pending
    ensures OnlyOwn(s, Restore(s, a), a)
    ensures OwnOf(Restore(s, a), a) == OwnOf(s, a).(rooms := Elems(s.pending[a].rooms), pending := None)
  {
  }

  lemma RestoreAgrees(s: State, t: State, c: ClientId, away: bool, a: ClientId)
    requires Agree(s, t, c, away) && (away ==> a != c)
    ensures Agree(Restore(s, a), Restore(t, a), c, away)
  {
    SameOwn(s, t, c, away, a, "");
    assert Get(s.pending, a) == Get(t.pending, a);
    if a in s.pending {
      RestoreOwn(s, a);
      RestoreOwn(t, a);
      RecordsAgree(s, t, Restore(s, a), Restore(t, a), c, away, a);
    }
  }

  lemma WsConnectAgrees(s: State, t: State, c: ClientId, away: bool, a: ClientId, token: Token, tenant: Option<string>,
                        slot: bool)
    requires Agree(s, t, c, away) && (away ==> a != c)
    ensures Agree(WsConnect(s, a, token, tenant, slot), WsConnect(t, a, token, tenant, slot), c, away)
  {
    SameOwn(s, t, c, away, a, "");
    IdentifyAgrees(s, t, c, away, a, token, tenant);
    RestoreAgrees(Identify(s, a, token, tenant), Identify(t, a, token, tenant), c, away, a);
    RedisAgrees(Identify(s, a, token, tenant), Identify(t, a, token, tenant), c, away, a, Some(token));
  }

  lemma HttpConnectAgrees(s: State, t: State, c: ClientId, away: bool, a: ClientId, token: Token,
                          tenant: Option<string>, slot: bool)
    requires Agree(s, t, c, away) && (away ==> a != c)
    ensures Agree(HttpConnect(s, a, token, tenant, slot), HttpConnect(t, a, token, tenant, slot), c, away)
  {
    SameOwn(s, t, c, away, a, "");
    assert Get(s.clients, a) == Get(t.clients, a);
    var s1, t1 := Identify(s, a, token, tenant), Identify(t, a, token, tenant);
    IdentifyAgrees(s, t, c, away, a, token, tenant);
    RedisAgrees(s1, t1, c, away, a, Some(token));
    SenderAgrees(s1.(redis := s.redis[a := token]), t1.(redis := t.redis[a := token]), c, away, a, Some([]));
  }

  // ---------------------------------------------------------------- traffic

  lemma NoteAgrees(s: State, t: State, c: ClientId, away: bool, a: ClientId, k: Key, update: Option<string>)
    requires Agree(s, t, c, away)
    ensures Agree(NotePresence(s, a, k, update), NotePresence(t, a, k, update), c, away)
  {
    var s1, t1 := NotePresence(s, a, k, update), NotePresence(t, a, k, update);
    forall d | d != c || !away ensures OwnOf(s1, d) == OwnOf(t1, d) {
      assert OwnOf(s, d) == OwnOf(t, d);
    }
  }

  lemma PresenceAgrees(s: State, t: State, c: ClientId, away: bool, a: ClientId, room: string, update: Option<string>)
    requires Agree(s, t, c, away) && (away ==> a != c)
    ensures Agree(PresenceUpdate(s, a, room, update), PresenceUpdate(t, a, room, update), c, away)
  {
    SameOwn(s, t, c, away, a, room);
    var k := RoomKey(s, a, room);
    NoteAgrees(s, t, c, away, a, k, update);
    SendAgrees(NotePresence(s, a, k, update), NotePresence(t, a, k, update), c, away,
               Members(s.rooms, k) - {a}, PresenceFrame(k, room, a, update));
  }

  lemma DataAgrees(cfg: Config, s: State, t: State, c: ClientId, away: bool, a: ClientId, room: string, payload: string)
    requires Agree(s, t, c, away) && (away ==> a != c)
    ensures Agree(RoomData(cfg, s, a, room, payload), RoomData(cfg, t, a, room, payload), c, away)
  {
    SameOwn(s, t, c, away, a, room);
    var k := RoomKey(s, a, room);
    SendAgrees(s, t, c, away, {a}, Refused(room, RelayDisabled));
    SendAgrees(s, t, c, away, Members(s.rooms, k) - {a}, Data(k, room, a, payload));
  }

  lemma DropAgrees(s: State, t: State, c: ClientId, away: bool, a: ClientId)
    requires Agree(s, t, c, away) && (away ==> a != c)
    ensures Agree(s.(inbox := s.inbox - {a}, clients := s.clients - {a}),
                  t.(inbox := t.inbox - {a}, clients := t.clients - {a}), c, away)
  {
    var s1, t1 := s.(clients := s.clients - {a}), t.(clients := t.clients - {a});
    SameOwn(s, t, c, away, a, "");
    SetOnlyOwn(s, s1, a);
    SetOnlyOwn(t, t1, a);
    RecordsAgree(s, t, s1, t1, c, away, a);
    SenderAgrees(s1, t1, c, away, a, None);
  }

  lemma SenderStepAgrees(cfg: Config, s: State, t: State, c: ClientId, away: bool, e: Event)
    requires Agree(s, t, c, away) && (away ==> e.c != c)
    requires e.ERegister? || e.EResync? || e.EDropSender? || e.EForgetToken?
    ensures Agree(Step(cfg, s, e), Step(cfg, t, e), c, away)
  {
    match e
    case ERegister(a) => SenderAgrees(s, t, c, away, a, Some([]));
    case EResync(a, k) =>
      if k in s.rooms {
        SendAgrees(s, t, c, away, {a}, Peers(k, RoomDisplay(k.name), s.rooms[k]));
      }
    case EDropSender(a) => DropAgrees(s, t, c, away, a);
    case EForgetToken(a) => RedisAgrees(s, t, c, away, a, None);
  }

  lemma EnabledAgrees(cfg: Config, s: State, t: State, c: ClientId, away: bool, e: Event)
    requires Agree(s, t, c, away) && (away ==> e.c != c)
    ensures Enabled(cfg, s, e) == Enabled(cfg, t, e)
  {
    SameOwn(s, t, c, away, e.c, "");
    assert OwnOf(s, e.c).pending == OwnOf(t, e.c).pending;
  }

  lemma RoomStepAgrees(cfg: Config, s: State, t: State, c: ClientId, away: bool, e: Event)
    requires Agree(s, t, c, away) && (away ==> e.c != c)
    requires e.EJoin? || e.ELeave? || e.EPresence? || e.EData?
    ensures Agree(Step(cfg, s, e), Step(cfg, t, e), c, away)
  {
    match e
    case EJoin(a, room, allowed) => JoinAgrees(cfg, s, t, c, away, a, room, allowed);
    case ELeave(a, room) =>
      SameOwn(s, t, c, away, a, room);
      RemoveAgrees(s, t, c, away, a, RoomKey(s, a, room));
    case EPresence(a, room, update) => PresenceAgrees(s, t, c, away, a, room, update);
    case EData(a, room, payload) => DataAgrees(cfg, s, t, c, away, a, room, payload);
  }

  lemma SessionStepAgrees(cfg: Config, s: State, t: State, c: ClientId, away: bool, e: Event)
    requires Agree(s, t, c, away) && (away ==> e.c != c) && Enabled(cfg, s, e)
    requires e.EDisconnect? || e.EExpire? || e.EWsConnect? || e.EHttpConnect?
    ensures Agree(Step(cfg, s, e), Step(cfg, t, e), c, away)
  {
    match e
    case EDisconnect(a, now, order) => DisconnectAgrees(cfg, s, t, c, away, a, now, order);
    case EExpire(a, now) => ExpireAgrees(s, t, c, away, a);
    case EWsConnect(a, token, tenant, slot) => WsConnectAgrees(s, t, c, away, a, token, tenant, slot);
    case EHttpConnect(a, token, tenant, slot) => HttpConnectAgrees(s, t, c, away, a, token, tenant, slot);
  }

  lemma StepAgrees(cfg: Config, s: State, t: State, c: ClientId, away: bool, e: Event)
    requires Agree(s, t, c, away) && (away ==> e.c != c)
    ensures Enabled(cfg, s, e) == Enabled(cfg, t, e)
    ensures Enabled(cfg, s, e) ==> Agree(Step(cfg, s, e), Step(cfg, t, e), c, away)
  {
    EnabledAgrees(cfg, s, t, c, away, e);
    if Enabled(cfg, s, e) {
      if e.EJoin? || e.ELeave? || e.EPresence? || e.EData? {
        RoomStepAgrees(cfg, s, t, c, away, e);
      } else if e.EDisconnect? || e.EExpire? || e.EWsConnect? || e.EHttpConnect? {
        SessionStepAgrees(cfg, s, t, c, away, e);
      } else {
        SenderStepAgrees(cfg, s, t, c, away, e);
      }
    }
  }

  lemma {:induction false} ExecAgrees(cfg: Config, s: State, t: State, c: ClientId, away: bool, es: seq<Event>)
    requires Agree(s, t, c, away) && Run(cfg, s, es, Anything)
    requires away ==> forall i :: 0 <= i < |es| ==> es[i].c != c
    ensures Run(cfg, t, es, Anything)
    ensures Agree(Exec(cfg, s, es), Exec(cfg, t, es), c, away)
    decreases |es|
  {
    if es != [] {
      StepAgrees(cfg, s, t, c, away, es[0]);
      ExecAgrees(cfg, Step(cfg, s, es[0]), Step(cfg, t, es[0]), c, away, es[1..]);
    }
  }

  // ---------------------------------------------------------------- a client's records change only by its own events

  lemma WsConnectOnlyOwn(s: State, a: ClientId, token: Token, tenant: Option<string>, slot: bool)
    ensures OnlyOwn(s, WsConnect(s, a, token, tenant, slot), a)
  {
    var s1 := Identify(s, a, token, tenant);
    IdentifyOwn(s, a, token, tenant);
    if a in s.pending {
      RestoreOwn(s1, a);
      OnlyOwnTrans(s, s1, Restore(s1, a), a);
    }
    var s2 := s1.(redis := s.redis[a := token]);
    SetOnlyOwn(s1, s2, a);
    OnlyOwnTrans(s, s1, s2, a);
  }

  lemma HttpConnectOnlyOwn(s: State, a: ClientId, token: Token, tenant: Option<string>, slot: bool)
    ensures OnlyOwn(s, HttpConnect(s, a, token, tenant, slot), a)
  {
    var s1 := Identify(s, a, token, tenant);
    IdentifyOwn(s, a, token, tenant);
    var s2 := s1.(redis := s.redis[a := token], inbox := s.inbox[a := []]);
    SetOnlyOwn(s1, s2, a);
    OnlyOwnTrans(s, s1, s2, a);
  }

  lemma DisconnectOnlyOwn(cfg: Config, s: State, a: ClientId, now: int, order: seq<Key>)
    requires Enumerates(order, ClientRooms(s, a))
    ensures OnlyOwn(s, Disconnect(cfg, s, a, now, order), a)
  {
    var g := Gone(s, a);
    DisconnectIs(cfg, s, a, now, order);
    GoneOwn(s, a);
    RemoveAllOnlyOwn(g, a, order);
    OnlyOwnTrans(s, g, RemoveFromRooms(g, a, order), a);
    SetOnlyOwn(g, g.(pending := s.pending[a := Pending(order, now)]), a);
    OnlyOwnTrans(s, g, g.(pending := s.pending[a := Pending(order, now)]), a);
  }

  ghost predicate SameRecords(s: State, t: State) {
    t.clientRooms == s.clientRooms && t.pending == s.pending && t.tenants == s.tenants
    && t.clients == s.clients && t.redis == s.redis
  }

  lemma SameRecordsOnlyOwn(s: State, m: State, t: State, a: ClientId)
    requires OnlyOwn(s, m, a) && SameRecords(m, t)
    ensures OnlyOwn(s, t, a)
  {
    forall d | d != a ensures OwnOf(t, d) == OwnOf(s, d) {
      assert OwnOf(m, d) == OwnOf(s, d);
    }
  }

  lemma GreetSameRecords(s: State, a: ClientId, k: Key, room: string)
    ensures SameRecords(s, Greet(s, a, k, room))
  {
  }

  lemma JoinOnlyOwn(cfg: Config, s: State, a: ClientId, room: string, allowed: bool)
    ensures OnlyOwn(s, Join(cfg, s, a, room, allowed), a)
  {
    var refusal := JoinRefusal(cfg, s, a, room, allowed);
    if refusal.None? {
      var k := RoomKey(s, a, room);
      EnterOnlyOwn(s, a, k);
      GreetSameRecords(Enter(s, a, k), a, k, room);
      SameRecordsOnlyOwn(s, Enter(s, a, k), Greet(Enter(s, a, k), a, k, room), a);
    } else {
      SameRecordsOnlyOwn(s, s, Send(s, {a}, Refused(room, refusal.value)), a);
    }
  }

  lemma PresenceOnlyOwn(s: State, a: ClientId, room: string, update: Option<string>)
    ensures OnlyOwn(s, PresenceUpdate(s, a, room, update), a)
  {
    assert SameRecords(s, PresenceUpdate(s, a, room, update));
    SameRecordsOnlyOwn(s, s, PresenceUpdate(s, a, room, update), a);
  }

  lemma DataOnlyOwn(cfg: Config, s: State, a: ClientId, room: string, payload: string)
    ensures OnlyOwn(s, RoomData(cfg, s, a, room, payload), a)
  {
    assert SameRecords(s, RoomData(cfg, s, a, room, payload));
    SameRecordsOnlyOwn(s, s, RoomData(cfg, s, a, room, payload), a);
  }

  lemma InboxOnlyOwn(s: State, a: ClientId, i: map<ClientId, seq<Frame>>)
    ensures OnlyOwn(s, s.(inbox := i), a)
  {
    SameRecordsOnlyOwn(s, s, s.(inbox := i), a);
  }

  lemma ExpireOnlyOwn(s: State, a: ClientId)
    ensures OnlyOwn(s, Expire(s, a), a)
  {
    var s1 := s.(pending := s.pending - {a});
    SetOnlyOwn(s, s1, a);
    RemoveAllOnlyOwn(s1, a, PendingRooms(s, a));
    OnlyOwnTrans(s, s1, Expire(s, a), a);
  }

  lemma StepOnlyOwn(cfg: Config, s: State, e: Event)
    requires Enabled(cfg, s, e)
    ensures OnlyOwn(s, Step(cfg, s, e), e.c)
  {
    match e
    case EJoin(a, room, allowed) => JoinOnlyOwn(cfg, s, a, room, allowed);
    case ELeave(a, room) => RemoveOnlyOwn(s, a, RoomKey(s, a, room));
    case EDisconnect(a, now, order) => DisconnectOnlyOwn(cfg, s, a, now, order);
    case EExpire(a, now) => ExpireOnlyOwn(s, a);
    case EWsConnect(a, token, tenant, slot) => WsConnectOnlyOwn(s, a, token, tenant, slot);
    case EHttpConnect(a, token, tenant, slot) => HttpConnectOnlyOwn(s, a, token, tenant, slot);
    case EDropSender(a) => SetOnlyOwn(s, s.(inbox := s.inbox - {a}, clients := s.clients - {a}), a);
    case EForgetToken(a) => SetOnlyOwn(s, s.(redis := s.redis - {a}), a);
    case EPresence(a, room, update) => PresenceOnlyOwn(s, a, room, update);
    case EData(a, room, payload) => DataOnlyOwn(cfg, s, a, room, payload);
    case ERegister(a) => InboxOnlyOwn(s, a, s.inbox[a := []]);
    case EResync(a, k) =>
      if k in s.rooms {
        InboxOnlyOwn(s, a, Multicast(s.inbox, {a}, Peers(k, RoomDisplay(k.name), s.rooms[k])));
      }
  }

  lemma {:induction false} OwnStays(cfg: Config, s: State, c: ClientId, es: seq<Event>)
    requires Run(cfg, s, es, Anything) && forall i :: 0 <= i < |es| ==> es[i].c != c
    ensures OwnOf(Exec(cfg, s, es), c) == OwnOf(s, c)
    decreases |es|
  {
    if es != [] {
      StepOnlyOwn(cfg, s, es[0]);
      OwnStays(cfg, Step(cfg, s, es[0]), c, es[1..]);
    }
  }

  // ---------------------------------------------------------------- the two ends of a blip

  lemma BlipStarts(cfg: Config, s: State, c: ClientId, now: int, order: seq<Key>)
    requires cfg.sessionTtl > 0 && Enumerates(order, ClientRooms(s, c))
    ensures var t := Disconnect(cfg, s, c, now, order);
      && Agree(t, s, c, true)
      && OwnOf(t, c) == OwnOf(s, c).(rooms := {}, tenant := None, client := None,
                                     pending := if order == [] then OwnOf(s, c).pending else Some(Pending(order, now)))
  {
    var t := Disconnect(cfg, s, c, now, order);
    DisconnectIs(cfg, s, c, now, order);
    DisconnectOnlyOwn(cfg, s, c, now, order);
    GoneOwn(s, c);
    forall d | d != c ensures Get(t.inbox, d) == Get(s.inbox, d) {
    }
  }

  /** `s` is the state with `c` away, `t` the one where it never left. */
  lemma BlipEnds(s: State, t: State, c: ClientId, now: int, order: seq<Key>, token: Token, tenant: Option<string>,
                 slot: bool)
    requires Agree(s, t, c, true) && IndexSound(t)
    requires OwnOf(t, c) == Own(Elems(order), None, tenant, Some(token), Some(token))
    requires OwnOf(s, c) == Own({}, if order == [] then None else Some(Pending(order, now)), None, None, Some(token))
    ensures Agree(WsConnect(s, c, token, tenant, slot), t, c, false)
  {
    var s1 := Identify(s, c, token, tenant);
    var s2 := Restore(s1, c);
    IdentifyOwn(s, c, token, tenant);
    assert Get(s.redis, c) == Some(token) && Get(s.clients, c) == None && Get(s.pending, c) == OwnOf(s, c).pending;
    if order == [] {
      assert s2 == s1;
      assert Elems(order) == {};
    } else {
      assert s1.pending[c] == Pending(order, now);
      RestoreOwn(s1, c);
      OnlyOwnTrans(s, s1, s2, c);
      RestoredRooms(s1, t, c, order);
    }
    forall d ensures OwnOf(s2, d) == OwnOf(t, d) {
      assert d != c ==> OwnOf(s, d) == OwnOf(t, d);
    }
  }

  lemma RestoredRooms(s: State, t: State, c: ClientId, order: seq<Key>)
    requires s.rooms == t.rooms && IndexSound(t) && RoomsOf(t.clientRooms, c) == Elems(order)
    ensures AddToRooms(s.rooms, c, order) == t.rooms
  {
    forall k | k in order ensures c in Members(t.rooms, k) {
      assert k in RoomsOf(t.clientRooms, c);
    }
    var rooms' := AddToRooms(s.rooms, c, order);
    assert forall k :: k in Elems(order) ==> k in t.rooms;
    assert rooms'.Keys == t.rooms.Keys;
    forall k | k in t.rooms ensures rooms'[k] == t.rooms[k] {
      assert k in order ==> c in Members(t.rooms, k);
    }
  }

  /** The parts of a run with a blip. */
  lemma BlipParts(cfg: Config, pre: seq<Event>, mid: seq<Event>, post: seq<Event>, c: ClientId,
                  now: int, order: seq<Key>, token: Token, tenant: Option<string>, slot: bool)
    requires Run(cfg, INIT, pre + [EDisconnect(c, now, order)] + mid + [EWsConnect(c, token, tenant, slot)] + post,
                 Anything)
    ensures var s0 := Exec(cfg, INIT, pre);
      var s1 := Disconnect(cfg, s0, c, now, order);
      var s3 := WsConnect(Exec(cfg, s1, mid), c, token, tenant, slot);
      && Run(cfg, INIT, pre, Anything) && Enumerates(order, ClientRooms(s0, c)) && Run(cfg, s1, mid, Anything)
      && Run(cfg, s3, post, Anything)
      && Exec(cfg, INIT, pre + [EDisconnect(c, now, order)] + mid + [EWsConnect(c, token, tenant, slot)] + post)
         == Exec(cfg, s3, post)
  {
    SplitBlip(cfg, INIT, pre, EDisconnect(c, now, order), mid, EWsConnect(c, token, tenant, slot), post);
  }

  /** From the drop in `s0` on: `mid` without `c`, the reconnect, then anything. */
  lemma BlipFrom(cfg: Config, s0: State, mid: seq<Event>, post: seq<Event>, c: ClientId,
                 now: int, order: seq<Key>, token: Token, tenant: Option<string>, slot: bool)
    requires cfg.sessionTtl > 0 && Core(cfg, s0) && Enumerates(order, ClientRooms(s0, c))
    requires forall i :: 0 <= i < |mid| ==> mid[i].c != c
    requires OwnOf(s0, c) == Own(Elems(order), None, tenant, Some(token), Some(token))
    requires var s1 := Disconnect(cfg, s0, c, now, order);
      && Run(cfg, s1, mid, Anything)
      && Run(cfg, WsConnect(Exec(cfg, s1, mid), c, token, tenant, slot), post, Anything)
    ensures Run(cfg, s0, mid, Anything) && Run(cfg, Exec(cfg, s0, mid), post, Anything)
    ensures Agree(Exec(cfg, WsConnect(Exec(cfg, Disconnect(cfg, s0, c, now, order), mid), c, token, tenant, slot),
                       post),
                  Exec(cfg, Exec(cfg, s0, mid), post), c, false)
  {
    var s1 := Disconnect(cfg, s0, c, now, order);
    var s2, t2 := Exec(cfg, s1, mid), Exec(cfg, s0, mid);
    BlipStarts(cfg, s0, c, now, order);
    ExecAgrees(cfg, s1, s0, c, true, mid);
    OwnStays(cfg, s1, c, mid);
    OwnStays(cfg, s0, c, mid);
    CoreFrom(cfg, s0, mid);
    BlipEnds(s2, t2, c, now, order, token, tenant, slot);
    ExecAgrees(cfg, WsConnect(s2, c, token, tenant, slot), t2, c, false, post);
  }

  lemma CoreFrom(cfg: Config, s: State, es: seq<Event>)
    requires Core(cfg, s) && Run(cfg, s, es, Anything)
    ensures Core(cfg, Exec(cfg, s, es))
  {
    forall t, e | Core(cfg, t) && Enabled(cfg, t, e) && Anything(t, e) ensures Core(cfg, Step(cfg, t, e)) {
      CoreStep(cfg, t, e);
    }
    RunInduction(cfg, s, es, Anything, t => Core(cfg, t));
  }

  /** A run with single steps after its first and third part. */
  lemma SplitBlip(cfg: Config, s: State, pre: seq<Event>, e: Event, mid: seq<Event>, f: Event, post: seq<Event>)
    requires Run(cfg, s, pre + [e] + mid + [f] + post, Anything)
    ensures var s0 := Exec(cfg, s, pre);
      var s2 := Exec(cfg, Step(cfg, s0, e), mid);
      && Run(cfg, s, pre, Anything) && Enabled(cfg, s0, e) && Run(cfg, Step(cfg, s0, e), mid, Anything)
      && Run(cfg, Step(cfg, s2, f), post, Anything)
      && Exec(cfg, s, pre + [e] + mid + [f] + post) == Exec(cfg, Step(cfg, s2, f), post)
  {
    SplitRun(cfg, s, pre + [e] + mid + [f], post);
    SplitRun(cfg, s, pre + [e] + mid, [f]);
    SplitRun(cfg, s, pre + [e], mid);
    SplitRun(cfg, s, pre, [e]);
    SingleStep(cfg, Exec(cfg, s, pre), e);
    SingleStep(cfg, Exec(cfg, s, pre + [e] + mid), f);
  }

  /** The client is connected with `token`, known in Redis too, and has no removal pending. */
  predicate Settled(s: State, c: ClientId, token: Token, tenant: Option<string>) {
    && c in s.clients && s.clients[c] == token && c in s.redis && s.redis[c] == token
    && c !in s.pending && Tenant(s, c) == tenant
  }

  lemma SettledOwn(s: State, c: ClientId, token: Token, tenant: Option<string>, order: seq<Key>)
    requires Settled(s, c, token, tenant) && Enumerates(order, ClientRooms(s, c))
    ensures OwnOf(s, c) == Own(Elems(order), None, tenant, Some(token), Some(token))
  {
  }

  lemma BlipAgrees(cfg: Config, pre: seq<Event>, mid: seq<Event>, post: seq<Event>, c: ClientId,
                   now: int, order: seq<Key>, token: Token, tenant: Option<string>, slot: bool)
    requires cfg.sessionTtl > 0
    requires forall i :: 0 <= i < |mid| ==> mid[i].c != c
    requires Run(cfg, INIT, pre + [EDisconnect(c, now, order)] + mid + [EWsConnect(c, token, tenant, slot)] + post,
                 Anything)
    requires Settled(Exec(cfg, INIT, pre), c, token, tenant)
    ensures Run(cfg, INIT, pre + mid + post, Anything)
    ensures Agree(Exec(cfg, INIT,
                       pre + [EDisconnect(c, now, order)] + mid + [EWsConnect(c, token, tenant, slot)] + post),
                  Exec(cfg, INIT, pre + mid + post), c, false)
  {
    var s0 := Exec(cfg, INIT, pre);
    BlipParts(cfg, pre, mid, post, c, now, order, token, tenant, slot);
    CoreRun(cfg, pre);
    SettledOwn(s0, c, token, tenant, order);
    BlipFrom(cfg, s0, mid, post, c, now, order, token, tenant, slot);
    SplitRun(cfg, INIT, pre + mid, post);
    SplitRun(cfg, INIT, pre, mid);
  }

  /** Removing a restored blip from a run changes nothing for anybody else: the
      other clients' steps `mid` interleave freely, `post` is arbitrary, and the
      two final states differ only in the frames of `c`'s own connections. */
  lemma BlipIsInvisible(cfg: Config, pre: seq<Event>, mid: seq<Event>, post: seq<Event>, c: ClientId,
                        now: int, order: seq<Key>, token: Token, tenant: Option<string>, slot: bool)
    requires cfg.sessionTtl > 0
    requires forall i :: 0 <= i < |mid| ==> mid[i].c != c
    requires Run(cfg, INIT, pre + [EDisconnect(c, now, order)] + mid + [EWsConnect(c, token, tenant, slot)] + post,
                 Anything)
    requires Settled(Exec(cfg, INIT, pre), c, token, tenant)
    ensures Run(cfg, INIT, pre + mid + post, Anything)
    ensures
      var s := Exec(cfg, INIT, pre + [EDisconnect(c, now, order)] + mid + [EWsConnect(c, token, tenant, slot)] + post);
      var t := Exec(cfg, INIT, pre + mid + post);
      && s.rooms == t.rooms && s.presence == t.presence && s.pending == t.pending && s.tenants == t.tenants
      && s.clients == t.clients && s.redis == t.redis
      && (forall d :: RoomsOf(s.clientRooms, d) == RoomsOf(t.clientRooms, d))
      && (forall d :: d != c ==> Get(s.inbox, d) == Get(t.inbox, d))
  {
    BlipAgrees(cfg, pre, mid, post, c, now, order, token, tenant, slot);
    AgreeIsEqual(Exec(cfg, INIT,
                      pre + [EDisconnect(c, now, order)] + mid + [EWsConnect(c, token, tenant, slot)] + post),
                 Exec(cfg, INIT, pre + mid + post), c);
  }

  lemma SplitRun(cfg: Config, s: State, a: seq<Event>, b: seq<Event>)
    ensures Run(cfg, s, a + b, Anything) <==> Run(cfg, s, a, Anything) && Run(cfg, Exec(cfg, s, a), b, Anything)
    ensures Exec(cfg, s, a + b) == Exec(cfg, Exec(cfg, s, a), b)
  {
    RunConcat(cfg, s, a, b, Anything);
    ExecConcat(cfg, s, a, b);
  }

  lemma SingleStep(cfg: Config, s: State, e: Event)
    ensures Exec(cfg, s, [e]) == Step(cfg, s, e)
    ensures Run(cfg, s, [e], Anything) <==> Enabled(cfg, s, e)
  {
    assert [e][1..] == [];
    assert Run(cfg, Step(cfg, s, e), [], Anything);
  }

  lemma AgreeIsEqual(s: State, t: State, c: ClientId)
    requires Agree(s, t, c, false)
    ensures s.pending == t.pending && s.tenants == t.tenants && s.clients == t.clients && s.redis == t.redis
    ensures forall d :: RoomsOf(s.clientRooms, d) == RoomsOf(t.clientRooms, d)
    ensures forall d :: d != c ==> Get(s.inbox, d) == Get(t.inbox, d)
  {
    forall d
      ensures RoomsOf(s.clientRooms, d) == RoomsOf(t.clientRooms, d)
      ensures Get(s.pending, d) == Get(t.pending, d) && Get(s.tenants, d) == Get(t.tenants, d)
      ensures Get(s.clients, d) == Get(t.clients, d) && Get(s.redis, d) == Get(t.redis, d)
    {
      assert OwnOf(s, d) == OwnOf(t, d);
    }
    EqualMaps(s.pending, t.pending);
    EqualMaps(s.tenants, t.tenants);
    EqualMaps(s.clients, t.clients);
    EqualMaps(s.redis, t.redis);
  }

  lemma EqualMaps<T>(m: map<ClientId, T>, n: map<ClientId, T>)
    requires forall d :: Get(m, d) == Get(n, d)
    ensures m == n
  {
    forall d ensures d in m <==> d in n {
      assert Get(m, d) == Get(n, d);
    }
    forall d | d in m ensures m[d] == n[d] {
      assert Get(m, d) == Get(n, d);
    }
  }
}
