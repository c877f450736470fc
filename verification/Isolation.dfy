/** Room traffic stays in its tenant's namespace, over whole runs. */
module Isolation {
  import opened Identifiers
  import opened RoomModel
  import opened RoomEffects

  /** `c` was admitted to the room called `room` while it belonged to `tenant`. */
  datatype Membership = Membership(c: ClientId, tenant: Option<string>, room: string)

  /** The admitted joins of a run. */
  function Admissions(cfg: Config, s: State, es: seq<Event>): set<Membership>
    decreases |es|
  {
    if es == [] then {}
    else Admission(cfg, s, es[0]) + Admissions(cfg, Step(cfg, s, es[0]), es[1..])
  }

  function Admission(cfg: Config, s: State, e: Event): set<Membership> {
    if e.EJoin? && JoinRefusal(cfg, s, e.c, e.room, e.allowed).None? then {Membership(e.c, Tenant(s, e.c), e.room)}
    else {}
  }

  function Reading(c: ClientId, k: Key): Membership {
    var (tenant, room) := ParseKey(k.name);
    Membership(c, tenant, room)
  }

  /** Every membership, current or kept for a returning session, goes back to an admission. */
  ghost predicate Accounted(s: State, js: set<Membership>) {
    && (forall d, k :: d in Members(s.rooms, k) ==> Reading(d, k) in js)
    && (forall d, k :: k in RoomsOf(s.clientRooms, d) ==> Reading(d, k) in js)
    && (forall d, k :: k in PendingRooms(s, d) ==> Reading(d, k) in js)
  }

  lemma AccountedEntered(s: State, c: ClientId, k: Key, t: State, js: set<Membership>)
    requires Accounted(s, js) && Entered(s, c, k, t) && Reading(c, k) in js
    ensures Accounted(t, js)
  {
    forall d, x | d in Members(t.rooms, x) ensures Reading(d, x) in js {
      assert d in Members(s.rooms, x) || (d == c && x == k);
    }
    forall d, x | x in RoomsOf(t.clientRooms, d) ensures Reading(d, x) in js {
      assert x in RoomsOf(s.clientRooms, d) || (d == c && x == k);
    }
    forall d, x | x in PendingRooms(t, d) ensures Reading(d, x) in js {
      assert x in PendingRooms(s, d);
    }
  }

  lemma AccountedFewer(s: State, t: State, js: set<Membership>)
    requires Accounted(s, js)
    requires forall d, k :: d in Members(t.rooms, k) ==> d in Members(s.rooms, k) || k in PendingRooms(s, d)
    requires forall d, k :: k in RoomsOf(t.clientRooms, d) ==> k in RoomsOf(s.clientRooms, d) || k in PendingRooms(s, d)
    requires forall d, k :: k in PendingRooms(t, d) ==> k in RoomsOf(s.clientRooms, d) || k in PendingRooms(s, d)
    ensures Accounted(t, js)
  {
  }

  lemma OnlyKnownRooms(cfg: Config, s: State, e: Event, t: State)
    requires Enabled(cfg, s, e) && Effect(cfg, s, e, t) && Admission(cfg, s, e) == {}
    ensures forall d, k :: d in Members(t.rooms, k) ==> d in Members(s.rooms, k) || k in PendingRooms(s, d)
    ensures forall d, k :: k in RoomsOf(t.clientRooms, d) ==> k in RoomsOf(s.clientRooms, d) || k in PendingRooms(s, d)
  {
  }

  lemma OnlyKnownPending(cfg: Config, s: State, e: Event, t: State)
    requires Enabled(cfg, s, e) && Effect(cfg, s, e, t)
    ensures forall d, k :: k in PendingRooms(t, d) ==> k in RoomsOf(s.clientRooms, d) || k in PendingRooms(s, d)
  {
    if e.EDisconnect? {
      assert forall k :: k in e.order ==> k in Elems(e.order);
    }
  }

  lemma AccountedStep(cfg: Config, s: State, e: Event, js: set<Membership>)
    requires Accounted(s, js) && Enabled(cfg, s, e)
    ensures Accounted(Step(cfg, s, e), js + Admission(cfg, s, e))
  {
    var t := Step(cfg, s, e);
    StepEffect(cfg, s, e);
    if Admission(cfg, s, e) == {} {
      OnlyKnownRooms(cfg, s, e, t);
      OnlyKnownPending(cfg, s, e, t);
      AccountedFewer(s, t, js);
      assert js + {} == js;
    } else {
      ValidHasNoSeparator(e.room);
      ParseInvertsNamespace(Tenant(s, e.c), e.room);
      AccountedEntered(s, e.c, RoomKey(s, e.c, e.room), t, js + Admission(cfg, s, e));
    }
  }

  lemma {:induction false} AccountedRun(cfg: Config, s: State, es: seq<Event>, js: set<Membership>)
    requires Accounted(s, js) && Run(cfg, s, es, Anything)
    ensures Accounted(Exec(cfg, s, es), js + Admissions(cfg, s, es))
    decreases |es|
  {
    if es == [] {
      assert js + {} == js;
    } else {
      var js' := js + Admission(cfg, s, es[0]);
      AccountedStep(cfg, s, es[0], js);
      AccountedRun(cfg, Step(cfg, s, es[0]), es[1..], js');
      assert js' + Admissions(cfg, Step(cfg, s, es[0]), es[1..]) == js + Admissions(cfg, s, es);
    }
  }

  /** Whoever a room frame reaches, the sender aside, is in the room the sender named. */
  lemma FrameReachesMembers(cfg: Config, s: State, e: Event, d: ClientId)
    requires (e.EData? || e.EPresence?) && d != e.c && d in s.inbox && Step(cfg, s, e).inbox[d] != s.inbox[d]
    ensures IsValidIdentifier(e.room) && d in Members(s.rooms, RoomKey(s, e.c, e.room))
  {
  }

  lemma MemberWasAdmitted(s: State, c: ClientId, room: string, d: ClientId, js: set<Membership>)
    requires Accounted(s, js) && IsValidIdentifier(room) && d in Members(s.rooms, RoomKey(s, c, room))
    ensures Membership(d, Tenant(s, c), room) in js
  {
    ValidHasNoSeparator(room);
    ParseInvertsNamespace(Tenant(s, c), room);
    assert Reading(d, RoomKey(s, c, room)) == Membership(d, Tenant(s, c), room);
  }

  /** After any run, whoever gets a frame of a room DATA or presence update was
      admitted to that very room name under the sender's current tenant. */
  lemma TrafficStaysInNamespace(cfg: Config, es: seq<Event>, e: Event, d: ClientId)
    requires Run(cfg, INIT, es, Anything) && (e.EData? || e.EPresence?) && d != e.c
    requires var s := Exec(cfg, INIT, es); d in s.inbox && Step(cfg, s, e).inbox[d] != s.inbox[d]
    ensures Membership(d, Tenant(Exec(cfg, INIT, es), e.c), e.room) in Admissions(cfg, INIT, es)
  {
    var s, js := Exec(cfg, INIT, es), Admissions(cfg, INIT, es);
    FrameReachesMembers(cfg, s, e, d);
    AccountedRun(cfg, INIT, es, {});
    assert {} + js == js;
    MemberWasAdmitted(s, e.c, e.room, d, js);
  }
}
