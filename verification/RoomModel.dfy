/** Rooms, sessions and presence as one state machine.

    The state is the maps of `AppState` that the room handlers share, the frames
    queued on each registered sender, and the two places a session token can be
    known from.  Each handler is one step; unspecified hash-set iteration orders
    are parameters of the events. */
module RoomModel {
  import opened Identifiers

  datatype ClientId = ClientId(name: string)

  /** A room as stored: the tenant-namespaced name. */
  datatype Key = Key(name: string)

  type Token = string

  datatype Config = Config(
    maxRoomsPerClient: nat,
    maxTotalRooms: nat,
    maxRoomSize: nat,
    sessionTtl: nat,
    enableRelay: bool)

  /** A disconnected client whose room memberships are kept for a grace period. */
  datatype Pending = Pending(rooms: seq<Key>, at: int)

  datatype Reason = InvalidRoomName | RelayDisabled | AuthDenied | ClientRoomLimit | ServerRoomLimit | RoomFull

  /** Frames pushed to clients.  `key` is the storage key the frame is about (only
      `room` is on the wire); `Snapshot` stands for one PRESENCE-UPDATE per entry. */
  datatype Frame =
    | Peers(key: Key, room: string, members: set<ClientId>)
    | Refused(room: string, reason: Reason)
    | Snapshot(key: Key, room: string, entries: map<ClientId, string>)
    | PresenceFrame(key: Key, room: string, src: ClientId, update: Option<string>)
    | Data(key: Key, room: string, src: ClientId, payload: string)

  datatype State = State(
    rooms: map<Key, set<ClientId>>,
    clientRooms: map<ClientId, set<Key>>,
    pending: map<ClientId, Pending>,
    presence: map<Key, map<ClientId, string>>,
    tenants: map<ClientId, string>,
    inbox: map<ClientId, seq<Frame>>,   // one entry per registered sender
    clients: map<ClientId, Token>,
    redis: map<ClientId, Token>)

  const INIT := State(map[], map[], map[], map[], map[], map[], map[], map[])

  // ---------------------------------------------------------------- lookups

  /** A missing entry reads as the empty set. */
  function Members(rooms: map<Key, set<ClientId>>, k: Key): set<ClientId> {
    if k in rooms then rooms[k] else {}
  }

  function RoomsOf(idx: map<ClientId, set<Key>>, c: ClientId): set<Key> {
    if c in idx then idx[c] else {}
  }

  function ClientRooms(s: State, c: ClientId): set<Key> {
    RoomsOf(s.clientRooms, c)
  }

  function PendingRooms(s: State, c: ClientId): seq<Key> {
    if c in s.pending then s.pending[c].rooms else []
  }

  function Tenant(s: State, c: ClientId): Option<string> {
    if c in s.tenants then Some(s.tenants[c]) else None
  }

  function RoomKey(s: State, c: ClientId, room: string): Key {
    Key(NamespaceRoom(Tenant(s, c), room))
  }

  /** The in-memory token first, then the one in Redis. */
  function KnownToken(s: State, c: ClientId): Option<Token> {
    if c in s.clients then Some(s.clients[c])
    else if c in s.redis then Some(s.redis[c])
    else None
  }

  // ---------------------------------------------------------------- sending

  function Multicast(inbox: map<ClientId, seq<Frame>>, to: set<ClientId>, f: Frame): map<ClientId, seq<Frame>> {
    map d | d in inbox :: if d in to then inbox[d] + [f] else inbox[d]
  }

  function Send(s: State, to: set<ClientId>, f: Frame): State {
    s.(inbox := Multicast(s.inbox, to, f))
  }

  // ---------------------------------------------------------------- ROOM-JOIN

  /** None when the join is admitted, otherwise why it is refused. */
  function JoinRefusal(cfg: Config, s: State, c: ClientId, room: string, allowed: bool): Option<Reason> {
    var k := RoomKey(s, c, room);
    var mine := ClientRooms(s, c);
    if !IsValidIdentifier(room) then Some(InvalidRoomName)
    else if !allowed then Some(AuthDenied)
    else if k !in mine && cfg.maxRoomsPerClient > 0 && |mine| >= cfg.maxRoomsPerClient then Some(ClientRoomLimit)
    else if k !in mine && cfg.maxTotalRooms > 0 && k !in s.rooms && |s.rooms| >= cfg.maxTotalRooms
    then Some(ServerRoomLimit)
    else if cfg.maxRoomSize > 0 && k in s.rooms && |s.rooms[k]| >= cfg.maxRoomSize then Some(RoomFull)
    else None
  }

  /** Both indexes updated. */
  function Enter(s: State, c: ClientId, k: Key): State {
    s.(rooms := s.rooms[k := Members(s.rooms, k) + {c}],
       clientRooms := s.clientRooms[c := ClientRooms(s, c) + {k}])
  }

  /** What the joiner is told: the member list, then the stored presence. */
  function Greet(s: State, c: ClientId, k: Key, room: string): State {
    var s1 := Send(s, {c}, Peers(k, room, Members(s.rooms, k)));
    if k in s.presence && s.presence[k] != map[] then Send(s1, {c}, Snapshot(k, room, s.presence[k])) else s1
  }

  function Join(cfg: Config, s: State, c: ClientId, room: string, allowed: bool): State {
    var refusal := JoinRefusal(cfg, s, c, room, allowed);
    var k := RoomKey(s, c, room);
    if refusal.Some? then Send(s, {c}, Refused(room, refusal.value))
    else Greet(Enter(s, c, k), c, k, room)
  }

  // ---------------------------------------------------------------- leaving

  /** The member goes; a room left empty goes with it. */
  function RoomsWithout(rooms: map<Key, set<ClientId>>, c: ClientId, k: Key): map<Key, set<ClientId>> {
    if k !in rooms then rooms
    else if rooms[k] - {c} == {} then rooms - {k}
    else rooms[k := rooms[k] - {c}]
  }

  function PresenceWithout(presence: map<Key, map<ClientId, string>>, left: set<ClientId>, c: ClientId, k: Key)
    : map<Key, map<ClientId, string>>
  {
    if k !in presence then presence
    else if left == {} then presence - {k}
    else presence[k := presence[k] - {c}]
  }

  /** `remove_client_from_room`: nothing at all happens when the room is unknown. */
  function RemoveFromRoom(s: State, c: ClientId, k: Key): State {
    if k !in s.rooms then s
    else
      var left := s.rooms[k] - {c};
      s.(rooms := RoomsWithout(s.rooms, c, k),
         presence := PresenceWithout(s.presence, left, c, k),
         inbox := Multicast(s.inbox, left, Peers(k, RoomDisplay(k.name), left)),
         clientRooms := if c in s.clientRooms then s.clientRooms[c := s.clientRooms[c] - {k}] else s.clientRooms)
  }

  function RemoveFromRooms(s: State, c: ClientId, ks: seq<Key>): State
    decreases |ks|
  {
    if ks == [] then s else RemoveFromRooms(RemoveFromRoom(s, c, ks[0]), c, ks[1..])
  }

  function Leave(s: State, c: ClientId, room: string): State {
    if IsValidIdentifier(room) then RemoveFromRoom(s, c, RoomKey(s, c, room)) else s
  }

  // ---------------------------------------------------------------- sessions

  predicate Distinct(xs: seq<Key>) {
    forall i, j :: 0 <= i < j < |xs| ==> xs[i] != xs[j]
  }

  function Elems(xs: seq<Key>): set<Key> {
    set x | x in xs
  }

  /** `order` lists the set once: one possible iteration order. */
  predicate Enumerates(order: seq<Key>, elems: set<Key>) {
    Distinct(order) && elems == Elems(order)
  }

  /** `remove_client_from_all_rooms`: immediate with a zero session TTL, else deferred. */
  function RemoveFromAllRooms(cfg: Config, s: State, c: ClientId, now: int, order: seq<Key>): State {
    if c !in s.clientRooms then s
    else
      var s1 := s.(clientRooms := s.clientRooms - {c});
      if cfg.sessionTtl == 0 then RemoveFromRooms(s1, c, order)
      else if order == [] then s1
      else s1.(pending := s1.pending[c := Pending(order, now)])
  }

  /** Connection cleanup of the socket that is still the registered sender. */
  function Disconnect(cfg: Config, s: State, c: ClientId, now: int, order: seq<Key>): State {
    RemoveFromAllRooms(cfg,
      s.(inbox := s.inbox - {c}, clients := s.clients - {c}, tenants := s.tenants - {c}),
      c, now, order)
  }

  predicate SessionExpired(cfg: Config, s: State, c: ClientId, now: int) {
    cfg.sessionTtl > 0 && c in s.pending && now - s.pending[c].at >= cfg.sessionTtl
  }

  /** One round of the loop of `cleanup_expired_sessions`. */
  function Expire(s: State, c: ClientId): State {
    RemoveFromRooms(s.(pending := s.pending - {c}), c, PendingRooms(s, c))
  }

  function AddToRooms(rooms: map<Key, set<ClientId>>, c: ClientId, ks: seq<Key>): map<Key, set<ClientId>> {
    map k | k in rooms.Keys + Elems(ks) :: Members(rooms, k) + (if k in ks then {c} else {})
  }

  /** A pending removal is cancelled: both indexes get the recorded rooms back. */
  function Restore(s: State, c: ClientId): State {
    if c !in s.pending then s
    else
      var ks := s.pending[c].rooms;
      s.(rooms := AddToRooms(s.rooms, c, ks),
         clientRooms := s.clientRooms[c := Elems(ks)],
         pending := s.pending - {c})
  }

  function Identify(s: State, c: ClientId, token: Token, tenant: Option<string>): State {
    s.(clients := s.clients[c := token],
       tenants := if tenant.Some? then s.tenants[c := tenant.value] else s.tenants)
  }

  /** WebSocket connect up to `run_client`; `slot` says whether a connection slot is granted. */
  function WsConnect(s: State, c: ClientId, token: Token, tenant: Option<string>, slot: bool): State {
    match KnownToken(s, c)
    case Some(t) => if t != token then s else Restore(Identify(s, c, token, tenant), c)
    case None => if !slot then s else Identify(s, c, token, tenant).(redis := s.redis[c := token])
  }

  /** SSE connect: looks only at the in-memory token and never restores a session. */
  function HttpConnect(s: State, c: ClientId, token: Token, tenant: Option<string>, slot: bool): State {
    if c in s.clients && s.clients[c] != token then s
    else if c !in s.clients && !slot then s
    else Identify(s, c, token, tenant).(redis := s.redis[c := token], inbox := s.inbox[c := []])
  }

  // ---------------------------------------------------------------- traffic

  /** Presence is stored whether or not the client is in the room. */
  function NotePresence(s: State, c: ClientId, k: Key, update: Option<string>): State {
    if update.None? then s
    else s.(presence := s.presence[k := (if k in s.presence then s.presence[k] else map[])[c := update.value]])
  }

  function PresenceUpdate(s: State, c: ClientId, room: string, update: Option<string>): State {
    if !IsValidIdentifier(room) then s
    else
      var k := RoomKey(s, c, room);
      Send(NotePresence(s, c, k, update), Members(s.rooms, k) - {c}, PresenceFrame(k, room, c, update))
  }

  /** Room fan-out of a DATA message. */
  function RoomData(cfg: Config, s: State, c: ClientId, room: string, payload: string): State {
    if !cfg.enableRelay then Send(s, {c}, Refused(room, RelayDisabled))
    else if !IsValidIdentifier(room) then s
    else
      var k := RoomKey(s, c, room);
      Send(s, Members(s.rooms, k) - {c}, Data(k, room, c, payload))
  }

  // ---------------------------------------------------------------- runs

  datatype Event =
    | EJoin(c: ClientId, room: string, allowed: bool)
    | ELeave(c: ClientId, room: string)
    | EPresence(c: ClientId, room: string, update: Option<string>)
    | EData(c: ClientId, room: string, payload: string)
    | EDisconnect(c: ClientId, now: int, order: seq<Key>)
    | EExpire(c: ClientId, now: int)
    | EWsConnect(c: ClientId, token: Token, tenant: Option<string>, slot: bool)
    | EHttpConnect(c: ClientId, token: Token, tenant: Option<string>, slot: bool)
    | ERegister(c: ClientId)            // `ws_senders.insert` in run_client, or a rebuilt polling pair
    | EResync(c: ClientId, key: Key)    // ROOM-PEERS for one restored room
    | EDropSender(c: ClientId)          // eviction, dead channel, LEAVE without destination
    | EForgetToken(c: ClientId)         // Redis client record deleted or timed out

  predicate Enabled(cfg: Config, s: State, e: Event) {
    match e
    case EDisconnect(c, _, order) => Enumerates(order, ClientRooms(s, c))
    case EExpire(c, now) => SessionExpired(cfg, s, c, now)
    case _ => true
  }

  function Step(cfg: Config, s: State, e: Event): State {
    match e
    case EJoin(c, room, allowed) => Join(cfg, s, c, room, allowed)
    case ELeave(c, room) => Leave(s, c, room)
    case EPresence(c, room, payload) => PresenceUpdate(s, c, room, payload)
    case EData(c, room, payload) => RoomData(cfg, s, c, room, payload)
    case EDisconnect(c, now, order) => Disconnect(cfg, s, c, now, order)
    case EExpire(c, _) => Expire(s, c)
    case EWsConnect(c, token, tenant, slot) => WsConnect(s, c, token, tenant, slot)
    case EHttpConnect(c, token, tenant, slot) => HttpConnect(s, c, token, tenant, slot)
    case ERegister(c) => s.(inbox := s.inbox[c := []])
    case EResync(c, k) => if k in s.rooms then Send(s, {c}, Peers(k, RoomDisplay(k.name), s.rooms[k])) else s
    case EDropSender(c) => s.(inbox := s.inbox - {c}, clients := s.clients - {c})
    case EForgetToken(c) => s.(redis := s.redis - {c})
  }

  function Exec(cfg: Config, s: State, es: seq<Event>): State
    decreases |es|
  {
    if es == [] then s else Exec(cfg, Step(cfg, s, es[0]), es[1..])
  }

  /** ROOM-PEERS for each listed room that still exists. */
  ghost function ResyncAll(cfg: Config, s: State, c: ClientId, ks: seq<Key>): State
    decreases |ks|
  {
    if ks == [] then s else Step(cfg, ResyncAll(cfg, s, c, ks[..|ks| - 1]), EResync(c, ks[|ks| - 1]))
  }

  /** A run: every event is enabled where it happens and satisfies `P` there. */
  ghost predicate Run(cfg: Config, s: State, es: seq<Event>, P: (State, Event) -> bool)
    decreases |es|
  {
    es == [] || (Enabled(cfg, s, es[0]) && P(s, es[0]) && Run(cfg, Step(cfg, s, es[0]), es[1..], P))
  }

  ghost predicate Anything(s: State, e: Event) { true }

  /** Session discipline: a client with a pending removal sends no ROOM-JOIN or ROOM-LEAVE. */
  predicate Disciplined(s: State, e: Event) {
    (e.EJoin? || e.ELeave?) ==> e.c !in s.pending
  }

  /** The weaker rule: nobody leaves a room still listed in its own pending removal. */
  predicate NoPendingLeave(s: State, e: Event) {
    e.ELeave? ==> RoomKey(s, e.c, e.room) !in PendingRooms(s, e.c)
  }

  /** What every admissible step keeps holds at the end of every admissible run. */
  lemma {:induction false} RunInduction(cfg: Config, s: State, es: seq<Event>,
                                        P: (State, Event) -> bool, Inv: State -> bool)
    requires Run(cfg, s, es, P) && Inv(s)
    requires forall t, e :: Inv(t) && Enabled(cfg, t, e) && P(t, e) ==> Inv(Step(cfg, t, e))
    ensures Inv(Exec(cfg, s, es))
    decreases |es|
  {
    if es != [] {
      RunInduction(cfg, Step(cfg, s, es[0]), es[1..], P, Inv);
    }
  }

  lemma {:induction false} ExecConcat(cfg: Config, s: State, a: seq<Event>, b: seq<Event>)
    ensures Exec(cfg, s, a + b) == Exec(cfg, Exec(cfg, s, a), b)
    decreases |a|
  {
    if a == [] {
      assert a + b == b;
    } else {
      assert (a + b)[1..] == a[1..] + b;
      ExecConcat(cfg, Step(cfg, s, a[0]), a[1..], b);
    }
  }

  lemma {:induction false} RunConcat(cfg: Config, s: State, a: seq<Event>, b: seq<Event>, P: (State, Event) -> bool)
    ensures Run(cfg, s, a + b, P) <==> Run(cfg, s, a, P) && Run(cfg, Exec(cfg, s, a), b, P)
    decreases |a|
  {
    if a == [] {
      assert a + b == b;
    } else {
      assert (a + b)[1..] == a[1..] + b;
      RunConcat(cfg, Step(cfg, s, a[0]), a[1..], b, P);
    }
  }

  ghost predicate Reachable(cfg: Config, P: (State, Event) -> bool, s: State) {
    exists es :: Run(cfg, INIT, es, P) && Exec(cfg, INIT, es) == s
  }

  lemma ReachableInit(cfg: Config, P: (State, Event) -> bool)
    ensures Reachable(cfg, P, INIT)
  {
    assert Run(cfg, INIT, [], P) && Exec(cfg, INIT, []) == INIT;
  }

  lemma ReachableStep(cfg: Config, P: (State, Event) -> bool, s: State, e: Event, t: State)
    requires Reachable(cfg, P, s) && Enabled(cfg, s, e) && P(s, e) && t == Step(cfg, s, e)
    ensures Reachable(cfg, P, t)
  {
    var es :| Run(cfg, INIT, es, P) && Exec(cfg, INIT, es) == s;
    ExecConcat(cfg, INIT, es, [e]);
    RunConcat(cfg, INIT, es, [e], P);
    assert [e][1..] == [];
    assert Run(cfg, Step(cfg, s, e), [], P) && Exec(cfg, Step(cfg, s, e), []) == t;
    assert Run(cfg, INIT, es + [e], P) && Exec(cfg, INIT, es + [e]) == t;
  }
}
