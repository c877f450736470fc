/** Index consistency and the caps, over whole runs. */
module RoomIndexes {
  import opened Identifiers
  import opened RoomModel
  import opened RoomEffects

  // ---------------------------------------------------------------- sizes

  lemma {:induction false} DistinctSize(xs: seq<Key>)
    requires Distinct(xs)
    ensures |Elems(xs)| == |xs|
  {
    if xs == [] {
      assert Elems(xs) == {};
    } else {
      DistinctSize(xs[1..]);
      assert xs[0] !in xs[1..];
      assert Elems(xs) == {xs[0]} + Elems(xs[1..]);
    }
  }

  lemma SubsetSize<T>(a: set<T>, b: set<T>)
    requires a <= b
    ensures |a| <= |b|
  {
    assert b == a + (b - a);
  }

  // ---------------------------------------------------------------- invariants of every run

  /** The reverse index only lists rooms the client is a member of. */
  ghost predicate IndexSound(s: State) {
    forall c, k :: k in RoomsOf(s.clientRooms, c) ==> c in Members(s.rooms, k)
  }

  ghost predicate NoEmptyRoom(s: State) {
    forall k :: k in s.rooms ==> Members(s.rooms, k) != {}
  }

  ghost predicate ClientCap(cfg: Config, s: State) {
    cfg.maxRoomsPerClient > 0 ==>
      && (forall c :: |RoomsOf(s.clientRooms, c)| <= cfg.maxRoomsPerClient)
      && (forall c :: c in s.pending ==> |s.pending[c].rooms| <= cfg.maxRoomsPerClient)
  }

  ghost predicate PendingWellFormed(cfg: Config, s: State) {
    && (forall c :: c in s.pending ==> s.pending[c].rooms != [] && Distinct(s.pending[c].rooms))
    && (cfg.sessionTtl == 0 ==> s.pending == map[])
  }

  ghost predicate Core(cfg: Config, s: State) {
    IndexSound(s) && NoEmptyRoom(s) && ClientCap(cfg, s) && PendingWellFormed(cfg, s)
  }

  /** `c`'s index becomes `mine`, rooms it is a member of; nobody else lost a room. */
  lemma IndexSoundAfter(s: State, c: ClientId, mine: set<Key>, t: State)
    requires IndexSound(s) && IndexSet(s.clientRooms, c, mine, t.clientRooms)
    requires forall k :: k in mine ==> c in Members(t.rooms, k)
    requires forall d, k :: d != c && d in Members(s.rooms, k) ==> d in Members(t.rooms, k)
    ensures IndexSound(t)
  {
    forall d, k | k in RoomsOf(t.clientRooms, d) ensures d in Members(t.rooms, k) {
      assert d != c ==> k in RoomsOf(s.clientRooms, d);
    }
  }

  lemma IndexSoundRemoved(s: State, c: ClientId, ks: set<Key>, t: State)
    requires IndexSound(s) && RoomsLost(s.rooms, c, ks, t.rooms)
    requires IndexSet(s.clientRooms, c, ClientRooms(s, c) - ks * s.rooms.Keys, t.clientRooms)
    ensures IndexSound(t)
  {
    var mine := ClientRooms(s, c) - ks * s.rooms.Keys;
    forall k | k in mine ensures c in Members(t.rooms, k) {
      assert k in RoomsOf(s.clientRooms, c);
      assert c in Members(s.rooms, k);
      assert k !in ks;
    }
    IndexSoundAfter(s, c, mine, t);
  }

  lemma IndexSoundStep(cfg: Config, s: State, e: Event, t: State)
    requires IndexSound(s) && Enabled(cfg, s, e) && Effect(cfg, s, e, t)
    ensures IndexSound(t)
  {
    match e
    case EJoin(c, room, allowed) =>
      if JoinRefusal(cfg, s, c, room, allowed).None? {
        IndexSoundEntered(s, c, RoomKey(s, c, room), t);
      }
    case ELeave(c, room) =>
      if IsValidIdentifier(room) {
        IndexSoundRemoved(s, c, {RoomKey(s, c, room)}, t);
      }
    case EDisconnect(c, now, order) => IndexSoundAfter(s, c, {}, t);
    case EExpire(c, now) => IndexSoundRemoved(s, c, Elems(PendingRooms(s, c)), t);
    case EWsConnect(c, token, tenant, slot) =>
      if KnownToken(s, c) == Some(token) && c in s.pending {
        IndexSoundAfter(s, c, Elems(PendingRooms(s, c)), t);
      }
    case _ =>
  }

  lemma IndexSoundEntered(s: State, c: ClientId, k: Key, t: State)
    requires IndexSound(s) && Entered(s, c, k, t)
    ensures IndexSound(t)
  {
    forall x | x in ClientRooms(s, c) + {k} ensures c in Members(t.rooms, x) {
      assert x in RoomsOf(s.clientRooms, c) ==> c in Members(s.rooms, x);
    }
    IndexSoundAfter(s, c, ClientRooms(s, c) + {k}, t);
  }

  lemma NoEmptyRoomStep(cfg: Config, s: State, e: Event, t: State)
    requires NoEmptyRoom(s) && Enabled(cfg, s, e) && Effect(cfg, s, e, t)
    ensures NoEmptyRoom(t)
  {
  }

  lemma JoinStaysCapped(cfg: Config, s: State, c: ClientId, room: string, allowed: bool)
    requires cfg.maxRoomsPerClient > 0 && |ClientRooms(s, c)| <= cfg.maxRoomsPerClient
    requires JoinRefusal(cfg, s, c, room, allowed).None?
    ensures |ClientRooms(s, c) + {RoomKey(s, c, room)}| <= cfg.maxRoomsPerClient
  {
    var k, mine := RoomKey(s, c, room), ClientRooms(s, c);
    assert k in mine ==> mine + {k} == mine;
  }

  lemma RestoreStaysCapped(cfg: Config, s: State, c: ClientId, t: State)
    requires c in s.pending && |s.pending[c].rooms| <= cfg.maxRoomsPerClient && Distinct(s.pending[c].rooms)
    requires Restored(s, c, t)
    ensures |RoomsOf(t.clientRooms, c)| <= cfg.maxRoomsPerClient
  {
    DistinctSize(s.pending[c].rooms);
  }

  lemma ShrinkStaysCapped(s: State, c: ClientId, gone: set<Key>, t: State, n: nat)
    requires IndexSet(s.clientRooms, c, ClientRooms(s, c) - gone, t.clientRooms) && |ClientRooms(s, c)| <= n
    ensures |RoomsOf(t.clientRooms, c)| <= n
  {
    SubsetSize(RoomsOf(t.clientRooms, c), ClientRooms(s, c));
  }

  lemma LeaverStaysCapped(cfg: Config, s: State, e: Event, t: State)
    requires |ClientRooms(s, e.c)| <= cfg.maxRoomsPerClient && (e.ELeave? || e.EDisconnect? || e.EExpire?)
    requires Enabled(cfg, s, e) && Effect(cfg, s, e, t)
    ensures |RoomsOf(t.clientRooms, e.c)| <= cfg.maxRoomsPerClient
  {
    var c := e.c;
    match e
    case EDisconnect(_, _, _) => assert |RoomsOf(t.clientRooms, c)| == 0;
    case ELeave(_, room) =>
      if IsValidIdentifier(room) {
        ShrinkStaysCapped(s, c, {RoomKey(s, c, room)} * s.rooms.Keys, t, cfg.maxRoomsPerClient);
      }
    case EExpire(_, _) => ShrinkStaysCapped(s, c, Elems(PendingRooms(s, c)) * s.rooms.Keys, t, cfg.maxRoomsPerClient);
  }

  /** How many rooms the acting client is in after the step. */
  lemma ActorStaysCapped(cfg: Config, s: State, e: Event, t: State)
    requires cfg.maxRoomsPerClient > 0 && |ClientRooms(s, e.c)| <= cfg.maxRoomsPerClient
    requires e.c in s.pending ==> |s.pending[e.c].rooms| <= cfg.maxRoomsPerClient && Distinct(s.pending[e.c].rooms)
    requires Enabled(cfg, s, e) && Effect(cfg, s, e, t)
    ensures |RoomsOf(t.clientRooms, e.c)| <= cfg.maxRoomsPerClient
  {
    if e.ELeave? || e.EDisconnect? || e.EExpire? {
      LeaverStaysCapped(cfg, s, e, t);
    } else if e.EJoin? {
      if JoinRefusal(cfg, s, e.c, e.room, e.allowed).None? {
        JoinStaysCapped(cfg, s, e.c, e.room, e.allowed);
      }
    } else if e.EWsConnect? && KnownToken(s, e.c) == Some(e.token) && e.c in s.pending {
      RestoreStaysCapped(cfg, s, e.c, t);
    }
  }

  lemma ClientCapStep(cfg: Config, s: State, e: Event, t: State)
    requires ClientCap(cfg, s) && PendingWellFormed(cfg, s) && Enabled(cfg, s, e) && Effect(cfg, s, e, t)
    ensures ClientCap(cfg, t)
  {
    if cfg.maxRoomsPerClient > 0 {
      assert |RoomsOf(s.clientRooms, e.c)| <= cfg.maxRoomsPerClient;
      ActorStaysCapped(cfg, s, e, t);
      forall d ensures |RoomsOf(t.clientRooms, d)| <= cfg.maxRoomsPerClient {
        assert d != e.c ==> RoomsOf(t.clientRooms, d) == RoomsOf(s.clientRooms, d);
      }
      if e.EDisconnect? {
        DistinctSize(e.order);
      }
    }
  }

  lemma CoreStep(cfg: Config, s: State, e: Event)
    requires Core(cfg, s) && Enabled(cfg, s, e)
    ensures Core(cfg, Step(cfg, s, e))
  {
    StepEffect(cfg, s, e);
    CoreEffect(cfg, s, e, Step(cfg, s, e));
  }

  lemma CoreEffect(cfg: Config, s: State, e: Event, t: State)
    requires Core(cfg, s) && Enabled(cfg, s, e) && Effect(cfg, s, e, t)
    ensures Core(cfg, t)
  {
    IndexSoundStep(cfg, s, e, t);
    NoEmptyRoomStep(cfg, s, e, t);
    ClientCapStep(cfg, s, e, t);
  }

  lemma CoreRun(cfg: Config, es: seq<Event>)
    requires Run(cfg, INIT, es, Anything)
    ensures Core(cfg, Exec(cfg, INIT, es))
  {
    forall t, e | Core(cfg, t) && Enabled(cfg, t, e) && Anything(t, e) ensures Core(cfg, Step(cfg, t, e)) {
      CoreStep(cfg, t, e);
    }
    RunInduction(cfg, INIT, es, Anything, s => Core(cfg, s));
  }

  // ---------------------------------------------------------------- caps

  /** A pending removal only lists rooms the client is still a member of. */
  ghost predicate PendingSound(s: State) {
    forall c, k :: k in PendingRooms(s, c) ==> c in Members(s.rooms, k)
  }

  ghost predicate TotalCap(cfg: Config, s: State) {
    cfg.maxTotalRooms > 0 ==> |s.rooms| <= cfg.maxTotalRooms
  }

  ghost predicate SizeCap(cfg: Config, s: State) {
    cfg.maxRoomSize > 0 ==> forall k :: |Members(s.rooms, k)| <= cfg.maxRoomSize
  }

  ghost predicate Capped(cfg: Config, s: State) {
    Core(cfg, s) && PendingSound(s) && TotalCap(cfg, s) && SizeCap(cfg, s)
  }

  lemma PendingSoundLost(s: State, c: ClientId, ks: set<Key>, t: State)
    requires PendingSound(s) && RoomsLost(s.rooms, c, ks, t.rooms)
    requires t.pending == s.pending || t.pending == s.pending - {c}
    requires forall k :: k in ks ==> k !in PendingRooms(t, c)
    ensures PendingSound(t)
  {
    forall d, k | k in PendingRooms(t, d) ensures d in Members(t.rooms, k) {
      assert k in PendingRooms(s, d);
    }
  }

  lemma PendingSoundGained(s: State, c: ClientId, ks: set<Key>, t: State)
    requires PendingSound(s) && RoomsGained(s.rooms, c, ks, t.rooms)
    requires t.pending == s.pending || t.pending == s.pending - {c}
    ensures PendingSound(t)
  {
    forall d, k | k in PendingRooms(t, d) ensures d in Members(t.rooms, k) {
      assert k in PendingRooms(s, d);
    }
  }

  lemma PendingSoundDeferred(s: State, c: ClientId, now: int, order: seq<Key>, t: State)
    requires PendingSound(s) && IndexSound(s) && Deferred(s, c, now, order, t) && Enumerates(order, ClientRooms(s, c))
    ensures PendingSound(t)
  {
    forall d, k | k in PendingRooms(t, d) ensures d in Members(t.rooms, k) {
      if k in PendingRooms(s, d) {
      } else {
        assert k in Elems(order);
        assert k in RoomsOf(s.clientRooms, d);
      }
    }
  }

  lemma PendingSoundStep(cfg: Config, s: State, e: Event, t: State)
    requires PendingSound(s) && IndexSound(s) && PendingWellFormed(cfg, s)
    requires Enabled(cfg, s, e) && NoPendingLeave(s, e) && Effect(cfg, s, e, t)
    ensures PendingSound(t)
  {
    match e
    case EJoin(c, room, allowed) =>
      if JoinRefusal(cfg, s, c, room, allowed).None? {
        PendingSoundGained(s, c, {RoomKey(s, c, room)}, t);
      } else {
        PendingSoundSame(s, t);
      }
    case ELeave(c, room) =>
      if IsValidIdentifier(room) {
        PendingSoundLost(s, c, {RoomKey(s, c, room)}, t);
      } else {
        PendingSoundSame(s, t);
      }
    case EDisconnect(c, now, order) =>
      if cfg.sessionTtl == 0 {
        PendingSoundLost(s, c, ClientRooms(s, c), t);
      } else {
        PendingSoundDeferred(s, c, now, order, t);
      }
    case EExpire(c, now) => PendingSoundLost(s, c, Elems(PendingRooms(s, c)), t);
    case EWsConnect(c, token, tenant, slot) =>
      if KnownToken(s, c) == Some(token) && c in s.pending {
        PendingSoundGained(s, c, Elems(PendingRooms(s, c)), t);
      } else {
        PendingSoundSame(s, t);
      }
    case _ => PendingSoundSame(s, t);
  }

  lemma PendingSoundSame(s: State, t: State)
    requires PendingSound(s) && SameIndexes(s, t)
    ensures PendingSound(t)
  {
    forall d, k | k in PendingRooms(t, d) ensures d in Members(t.rooms, k) {
      assert k in PendingRooms(s, d);
    }
  }

  lemma RestoreIsInvisibleInRooms(s: State, c: ClientId, t: State)
    requires PendingSound(s) && Restored(s, c, t)
    ensures t.rooms == s.rooms
  {
    forall k ensures Members(t.rooms, k) == Members(s.rooms, k) {
      assert k in PendingRooms(s, c) ==> c in Members(s.rooms, k);
    }
    forall k | k in Elems(PendingRooms(s, c)) ensures k in s.rooms {
      assert c in Members(s.rooms, k);
    }
    assert forall k :: k in t.rooms ==> t.rooms[k] == Members(t.rooms, k) && s.rooms[k] == Members(s.rooms, k);
  }

  /** What the admission test of ROOM-JOIN guarantees. */
  lemma AdmittedFits(cfg: Config, s: State, c: ClientId, room: string, allowed: bool)
    requires IndexSound(s) && JoinRefusal(cfg, s, c, room, allowed).None?
    ensures var k := RoomKey(s, c, room);
      && (k in s.rooms || cfg.maxTotalRooms == 0 || |s.rooms| < cfg.maxTotalRooms)
      && (cfg.maxRoomSize == 0 || |Members(s.rooms, k)| < cfg.maxRoomSize)
  {
    var k := RoomKey(s, c, room);
    assert k in RoomsOf(s.clientRooms, c) ==> c in Members(s.rooms, k);
  }

  lemma CapsEntered(cfg: Config, s: State, c: ClientId, k: Key, t: State)
    requires TotalCap(cfg, s) && SizeCap(cfg, s) && RoomsGained(s.rooms, c, {k}, t.rooms)
    requires k in s.rooms || cfg.maxTotalRooms == 0 || |s.rooms| < cfg.maxTotalRooms
    requires cfg.maxRoomSize == 0 || |Members(s.rooms, k)| < cfg.maxRoomSize
    ensures TotalCap(cfg, t) && SizeCap(cfg, t)
  {
    assert |t.rooms.Keys| == |s.rooms.Keys + {k}|;
    assert k in s.rooms ==> s.rooms.Keys + {k} == s.rooms.Keys;
    assert forall x :: x != k ==> Members(t.rooms, x) == Members(s.rooms, x);
    assert |Members(s.rooms, k) + {c}| <= |Members(s.rooms, k)| + 1;
  }

  lemma CapsLost(cfg: Config, s: State, c: ClientId, ks: set<Key>, t: State)
    requires TotalCap(cfg, s) && SizeCap(cfg, s) && RoomsLost(s.rooms, c, ks, t.rooms)
    ensures TotalCap(cfg, t) && SizeCap(cfg, t)
  {
    SubsetSize(t.rooms.Keys, s.rooms.Keys);
    forall k ensures |Members(t.rooms, k)| <= |Members(s.rooms, k)| {
      SubsetSize(Members(t.rooms, k), Members(s.rooms, k));
    }
  }

  lemma CapsStep(cfg: Config, s: State, e: Event, t: State)
    requires IndexSound(s) && PendingSound(s) && TotalCap(cfg, s) && SizeCap(cfg, s)
    requires Enabled(cfg, s, e) && Effect(cfg, s, e, t)
    ensures TotalCap(cfg, t) && SizeCap(cfg, t)
  {
    match e
    case EJoin(c, room, allowed) =>
      if JoinRefusal(cfg, s, c, room, allowed).None? {
        AdmittedFits(cfg, s, c, room, allowed);
        CapsEntered(cfg, s, c, RoomKey(s, c, room), t);
      }
    case ELeave(c, room) =>
      if IsValidIdentifier(room) {
        CapsLost(cfg, s, c, {RoomKey(s, c, room)}, t);
      }
    case EDisconnect(c, now, order) =>
      if cfg.sessionTtl == 0 {
        CapsLost(cfg, s, c, ClientRooms(s, c), t);
      }
    case EExpire(c, now) => CapsLost(cfg, s, c, Elems(PendingRooms(s, c)), t);
    case EWsConnect(c, token, tenant, slot) =>
      if KnownToken(s, c) == Some(token) && c in s.pending {
        RestoreIsInvisibleInRooms(s, c, t);
      }
    case _ =>
  }

  lemma CappedStep(cfg: Config, s: State, e: Event)
    requires Capped(cfg, s) && Enabled(cfg, s, e) && NoPendingLeave(s, e)
    ensures Capped(cfg, Step(cfg, s, e))
  {
    var t := Step(cfg, s, e);
    StepEffect(cfg, s, e);
    CappedEffect(cfg, s, e, t);
  }

  lemma CappedEffect(cfg: Config, s: State, e: Event, t: State)
    requires Capped(cfg, s) && Enabled(cfg, s, e) && NoPendingLeave(s, e) && Effect(cfg, s, e, t)
    ensures Capped(cfg, t)
  {
    CoreEffect(cfg, s, e, t);
    PendingSoundStep(cfg, s, e, t);
    CapsStep(cfg, s, e, t);
  }

  /** Unless some client leaves a room its own pending removal still lists, the
      server-wide and per-room caps hold after every run. */
  lemma CapsRun(cfg: Config, es: seq<Event>)
    requires Run(cfg, INIT, es, NoPendingLeave)
    ensures Capped(cfg, Exec(cfg, INIT, es))
  {
    forall t, e | Capped(cfg, t) && Enabled(cfg, t, e) && NoPendingLeave(t, e) ensures Capped(cfg, Step(cfg, t, e)) {
      CappedStep(cfg, t, e);
    }
    RunInduction(cfg, INIT, es, NoPendingLeave, s => Capped(cfg, s));
  }

  // ---------------------------------------------------------------- exact indexes

  /** Membership is recorded in exactly one of the two places. */
  ghost predicate Exact(s: State) {
    && (forall c, k :: c in Members(s.rooms, k) <==> k in RoomsOf(s.clientRooms, c) || k in PendingRooms(s, c))
    && (forall c :: c in s.pending ==> RoomsOf(s.clientRooms, c) == {})
  }

  lemma ExactEntered(s: State, c: ClientId, k: Key, t: State)
    requires Exact(s) && Entered(s, c, k, t) && c !in s.pending
    ensures Exact(t)
  {
    forall d, x ensures d in Members(t.rooms, x) <==> x in RoomsOf(t.clientRooms, d) || x in PendingRooms(t, d) {
      assert d in Members(s.rooms, x) <==> x in RoomsOf(s.clientRooms, d) || x in PendingRooms(s, d);
    }
  }

  lemma ExactRemoved(s: State, c: ClientId, k: Key, t: State)
    requires Exact(s) && Removed(s, c, {k}, t) && c !in s.pending
    ensures Exact(t)
  {
    forall d, x ensures d in Members(t.rooms, x) <==> x in RoomsOf(t.clientRooms, d) || x in PendingRooms(t, d) {
      assert d in Members(s.rooms, x) <==> x in RoomsOf(s.clientRooms, d) || x in PendingRooms(s, d);
    }
  }

  lemma ExactCleared(s: State, c: ClientId, t: State)
    requires Exact(s) && Cleared(s, c, t) && c !in s.pending
    ensures Exact(t)
  {
    forall d, x ensures d in Members(t.rooms, x) <==> x in RoomsOf(t.clientRooms, d) || x in PendingRooms(t, d) {
      assert d in Members(s.rooms, x) <==> x in RoomsOf(s.clientRooms, d) || x in PendingRooms(s, d);
    }
  }

  lemma ExactDeferred(s: State, c: ClientId, now: int, order: seq<Key>, t: State)
    requires Exact(s) && Deferred(s, c, now, order, t) && Enumerates(order, ClientRooms(s, c))
    ensures Exact(t)
  {
    NothingListed(order);
    assert c in s.pending ==> order == [];
    forall d, x ensures d in Members(t.rooms, x) <==> x in RoomsOf(t.clientRooms, d) || x in PendingRooms(t, d) {
      assert d in Members(s.rooms, x) <==> x in RoomsOf(s.clientRooms, d) || x in PendingRooms(s, d);
      assert x in order <==> x in Elems(order);
    }
  }

  lemma ExactExpired(s: State, c: ClientId, t: State)
    requires Exact(s) && Expired(s, c, t) && c in s.pending
    ensures Exact(t)
  {
    forall d, x ensures d in Members(t.rooms, x) <==> x in RoomsOf(t.clientRooms, d) || x in PendingRooms(t, d) {
      assert d in Members(s.rooms, x) <==> x in RoomsOf(s.clientRooms, d) || x in PendingRooms(s, d);
    }
  }

  lemma ExactRestored(s: State, c: ClientId, t: State)
    requires Exact(s) && Restored(s, c, t) && c in s.pending
    ensures Exact(t)
  {
    forall d, x ensures d in Members(t.rooms, x) <==> x in RoomsOf(t.clientRooms, d) || x in PendingRooms(t, d) {
      assert d in Members(s.rooms, x) <==> x in RoomsOf(s.clientRooms, d) || x in PendingRooms(s, d);
    }
  }

  lemma ExactSame(s: State, t: State)
    requires Exact(s) && SameIndexes(s, t)
    ensures Exact(t)
  {
    forall d, x ensures d in Members(t.rooms, x) <==> x in RoomsOf(t.clientRooms, d) || x in PendingRooms(t, d) {
      assert d in Members(s.rooms, x) <==> x in RoomsOf(s.clientRooms, d) || x in PendingRooms(s, d);
    }
  }

  lemma ExactEffect(cfg: Config, s: State, e: Event, t: State)
    requires Exact(s) && PendingWellFormed(cfg, s) && Enabled(cfg, s, e) && Disciplined(s, e) && Effect(cfg, s, e, t)
    ensures Exact(t)
  {
    match e
    case EJoin(c, room, allowed) =>
      if JoinRefusal(cfg, s, c, room, allowed).None? {
        ExactEntered(s, c, RoomKey(s, c, room), t);
      } else {
        ExactSame(s, t);
      }
    case ELeave(c, room) =>
      if IsValidIdentifier(room) {
        ExactRemoved(s, c, RoomKey(s, c, room), t);
      } else {
        ExactSame(s, t);
      }
    case EDisconnect(c, now, order) =>
      if cfg.sessionTtl == 0 {
        ExactCleared(s, c, t);
      } else {
        ExactDeferred(s, c, now, order, t);
      }
    case EExpire(c, now) => ExactExpired(s, c, t);
    case EWsConnect(c, token, tenant, slot) =>
      if KnownToken(s, c) == Some(token) && c in s.pending {
        ExactRestored(s, c, t);
      } else {
        ExactSame(s, t);
      }
    case _ => ExactSame(s, t);
  }

  lemma ExactStep(cfg: Config, s: State, e: Event)
    requires Exact(s) && Core(cfg, s) && Enabled(cfg, s, e) && Disciplined(s, e)
    ensures Exact(Step(cfg, s, e)) && Core(cfg, Step(cfg, s, e))
  {
    StepEffect(cfg, s, e);
    ExactEffect(cfg, s, e, Step(cfg, s, e));
    CoreEffect(cfg, s, e, Step(cfg, s, e));
  }

  /** In every disciplined run, membership is exactly what the two indexes record. */
  lemma ExactRun(cfg: Config, es: seq<Event>)
    requires Run(cfg, INIT, es, Disciplined)
    ensures Exact(Exec(cfg, INIT, es)) && Core(cfg, Exec(cfg, INIT, es))
  {
    forall t, e | Exact(t) && Core(cfg, t) && Enabled(cfg, t, e) && Disciplined(t, e)
      ensures Exact(Step(cfg, t, e)) && Core(cfg, Step(cfg, t, e))
    {
      ExactStep(cfg, t, e);
    }
    RunInduction(cfg, INIT, es, Disciplined, s => Exact(s) && Core(cfg, s));
  }

  /** With a zero session TTL nothing is ever pending, so every run is exact. */
  lemma {:induction false} ExactWithoutGrace(cfg: Config, s: State, es: seq<Event>)
    requires cfg.sessionTtl == 0 && Run(cfg, s, es, Anything)
    requires Exact(s) && Core(cfg, s)
    ensures var t := Exec(cfg, s, es);
      && t.pending == map[]
      && forall c, k :: c in Members(t.rooms, k) <==> k in RoomsOf(t.clientRooms, c)
    decreases |es|
  {
    if es == [] {
      assert forall c, k :: c in Members(s.rooms, k) <==> k in RoomsOf(s.clientRooms, c) || k in PendingRooms(s, c);
    } else {
      ExactStep(cfg, s, es[0]);
      ExactWithoutGrace(cfg, Step(cfg, s, es[0]), es[1..]);
    }
  }
}
