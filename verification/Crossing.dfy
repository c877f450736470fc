/** A run in which room DATA crosses tenants: a membership kept for a returning session is
    inherited by the next connection under the same client id, whatever its tenant. */
module Crossing {
  import opened Identifiers
  import opened RoomModel
  import opened Alignment

  const GRACE := Config(0, 0, 0, 30000, true)
  const CAROL := ClientId("c")
  const DAVE := ClientId("d")
  const ROOM := Key("one" + [TENANT_SEP] + "a")

  const KEPT: map<ClientId, Pending> := map[CAROL := Pending([ROOM], 0)]

  /** Carol's session in `ROOM` is pending; the given clients are connected. */
  function Kept(tenants: map<ClientId, string>, inbox: map<ClientId, seq<Frame>>, tokens: map<ClientId, Token>): State {
    State(map[ROOM := {CAROL}], map[], KEPT, map[], tenants, inbox, tokens, tokens)
  }

  lemma CarolConnects()
    ensures Reachable(GRACE, Anything,
      State(map[], map[], map[], map[], map[CAROL := "one"], map[CAROL := []], map[CAROL := "t"], map[CAROL := "t"]))
  {
    var s1 := State(map[], map[], map[], map[], map[CAROL := "one"], map[], map[CAROL := "t"], map[CAROL := "t"]);
    ReachableInit(GRACE, Anything);
    assert Step(GRACE, INIT, EWsConnect(CAROL, "t", Some("one"), true)) == s1;
    ReachableStep(GRACE, Anything, INIT, EWsConnect(CAROL, "t", Some("one"), true), s1);
    ReachableStep(GRACE, Anything, s1, ERegister(CAROL), s1.(inbox := map[CAROL := []]));
  }

  function Joined(): State {
    State(map[ROOM := {CAROL}], map[CAROL := {ROOM}], map[], map[], map[CAROL := "one"],
          map[CAROL := [Peers(ROOM, "a", {CAROL})]], map[CAROL := "t"], map[CAROL := "t"])
  }

  lemma CarolJoins()
    ensures Reachable(GRACE, Anything, Joined())
  {
    CarolConnects();
    var s := State(map[], map[], map[], map[], map[CAROL := "one"], map[CAROL := []], map[CAROL := "t"],
                   map[CAROL := "t"]);
    assert IsValidIdentifier("a") && RoomKey(s, CAROL, "a") == ROOM;
    assert JoinRefusal(GRACE, s, CAROL, "a", true) == None;
    assert {} + {CAROL} == {CAROL} && {} + {ROOM} == {ROOM};
    assert Enter(s, CAROL, ROOM) == s.(rooms := map[ROOM := {CAROL}], clientRooms := map[CAROL := {ROOM}]);
    assert [] + [Peers(ROOM, "a", {CAROL})] == [Peers(ROOM, "a", {CAROL})];
    assert Join(GRACE, s, CAROL, "a", true) == Joined();
    ReachableStep(GRACE, Anything, s, EJoin(CAROL, "a", true), Joined());
  }

  lemma CarolDrops()
    ensures Reachable(GRACE, Anything, Kept(map[], map[], map[]))
  {
    CarolJoins();
    var s := Joined();
    assert Elems([ROOM]) == {ROOM} == ClientRooms(s, CAROL);
    var s1 := Kept(map[], map[], map[]).(redis := map[CAROL := "t"]);
    assert Disconnect(GRACE, s, CAROL, 0, [ROOM]) == s1;
    ReachableStep(GRACE, Anything, s, EDisconnect(CAROL, 0, [ROOM]), s1);
    ReachableStep(GRACE, Anything, s1, EForgetToken(CAROL), Kept(map[], map[], map[]));
  }

  /** A new client connects and registers. */
  lemma Arrives(tenants: map<ClientId, string>, inbox: map<ClientId, seq<Frame>>, tokens: map<ClientId, Token>,
                c: ClientId, token: Token, tenant: string)
    requires Reachable(GRACE, Anything, Kept(tenants, inbox, tokens)) && c !in tokens
    ensures Reachable(GRACE, Anything, Kept(tenants[c := tenant], inbox[c := []], tokens[c := token]))
  {
    var s := Kept(tenants, inbox, tokens);
    var s1 := Kept(tenants[c := tenant], inbox, tokens[c := token]);
    assert Step(GRACE, s, EWsConnect(c, token, Some(tenant), true)) == s1;
    ReachableStep(GRACE, Anything, s, EWsConnect(c, token, Some(tenant), true), s1);
    ReachableStep(GRACE, Anything, s1, ERegister(c), s1.(inbox := inbox[c := []]));
  }

  /** "DATA never crosses tenants" fails: Carol, connected under "two" and without having
      joined anything there, is sent what Dave says in room "a" of "one". */
  lemma DataCrossesTenants()
    ensures exists s :: (
      && Reachable(GRACE, Anything, s)
      && Tenant(s, CAROL) == Some("two") && Tenant(s, DAVE) == Some("one") && CAROL in s.inbox && DAVE in s.inbox
      && var t := Step(GRACE, s, EData(DAVE, "a", "x"));
         CAROL in t.inbox && t.inbox[CAROL] == s.inbox[CAROL] + [Data(ROOM, "a", DAVE, "x")])
  {
    CarolDrops();
    Arrives(map[], map[], map[], DAVE, "u", "one");
    var s1 := Kept(map[DAVE := "one"], map[DAVE := []], map[DAVE := "u"]);
    Arrives(s1.tenants, s1.inbox, s1.clients, CAROL, "v", "two");
    var s := Kept(map[DAVE := "one", CAROL := "two"], map[DAVE := [], CAROL := []], map[DAVE := "u", CAROL := "v"]);
    assert s == Kept(s1.tenants[CAROL := "two"], s1.inbox[CAROL := []], s1.clients[CAROL := "v"]);
    assert IsValidIdentifier("a") && RoomKey(s, DAVE, "a") == ROOM;
    assert Members(s.rooms, ROOM) - {DAVE} == {CAROL};
  }

  /** Eviction forgets neither: a later connect without an API key acts under the old tenant. */
  lemma EvictedTenantStays(cfg: Config, s: State, c: ClientId, token: Token, k: Key)
    requires c !in s.redis
    ensures var t := Step(cfg, Step(cfg, s, EDropSender(c)), EWsConnect(c, token, None, true));
      Tenant(t, c) == Tenant(s, c) && (c in Members(t.rooms, k) <==> c in Members(s.rooms, k))
  {
    var s1 := Step(cfg, s, EDropSender(c));
    assert KnownToken(s1, c) == None;
  }
}
