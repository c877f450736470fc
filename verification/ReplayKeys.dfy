/** One key space for rooms and clients: `handle_data` stores room DATA under the room's
    storage key and direct DATA under the recipient's id, and a catch-up asks by client id. */
module ReplayKeys {
  import opened Identifiers
  import opened ReplayBuffer
  import opened ReplayGap

  datatype Target =
    | ToRoom(tenant: Option<string>, room: string)
    | ToPeer(id: string)

  function KeyOf(t: Target): Key {
    match t
    case ToRoom(tenant, room) => Key(NamespaceRoom(tenant, room))
    case ToPeer(id) => Key(id)
  }

  datatype Traffic =
    | Say(to: Target, data: string, stored: bool, now: int)
    | Tidy(now: int)      // eviction of expired entries
    | Leave(k: Key)       // removal at a disconnect

  /** What the relay and the buffer see of it. */
  function Plain(t: Traffic): Event {
    match t
    case Say(to, data, stored, now) => Relay(KeyOf(to), data, stored, now)
    case Tidy(now) => Sweep(now)
    case Leave(k) => Forget(k)
  }

  function Events(ts: seq<Traffic>): seq<Event> {
    if ts == [] then [] else Events(ts[..|ts| - 1]) + [Plain(ts[|ts| - 1])]
  }

  /** Whom the messages in the log of `k` were addressed to, oldest first. */
  function Targets(ts: seq<Traffic>, k: Key): seq<Target> {
    if ts == [] then []
    else
      var before := Targets(ts[..|ts| - 1], k);
      match ts[|ts| - 1]
      case Say(to, _, stored, _) => if KeyOf(to) == k && stored then before + [to] else before
      case Tidy(_) => before
      case Leave(x) => if x == k then [] else before
  }

  lemma {:induction false} TargetsFit(ts: seq<Traffic>, k: Key)
    ensures |Targets(ts, k)| == |EventLog(Events(ts), k)|
    ensures forall i :: 0 <= i < |Targets(ts, k)| ==> KeyOf(Targets(ts, k)[i]) == k
    decreases |ts|
  {
    if ts != [] {
      var init := ts[..|ts| - 1];
      TargetsFit(init, k);
      assert Events(ts)[..|Events(ts)| - 1] == Events(init);
    }
  }

  /** The replay, each message with the target it was sent to. */
  function Tagged(ttl: nat, now: int, since: nat, log: seq<Entry>, to: seq<Target>): seq<(Target, string)>
    requires |log| == |to|
  {
    if log == [] then []
    else
      (if log[0].num > since && !Expired(ttl, now, log[0]) then [(to[0], log[0].data)] else [])
      + Tagged(ttl, now, since, log[1..], to[1..])
  }

  function Data(ms: seq<(Target, string)>): seq<string> { seq(|ms|, i requires 0 <= i < |ms| => ms[i].1) }

  lemma {:induction false} TaggedIsSelect(ttl: nat, now: int, since: nat, log: seq<Entry>, to: seq<Target>)
    requires |log| == |to|
    ensures Data(Tagged(ttl, now, since, log, to)) == Select(ttl, now, since, log)
  {
    if log != [] {
      TaggedIsSelect(ttl, now, since, log[1..], to[1..]);
    }
  }

  /** All of the replay was addressed to the client `id`. */
  ghost predicate OnlyFor(id: string, ms: seq<(Target, string)>) {
    forall i :: 0 <= i < |ms| ==> ms[i].0 == ToPeer(id)
  }

  lemma OnlyForCons(id: string, m: (Target, string), rest: seq<(Target, string)>)
    ensures OnlyFor(id, [m] + rest) <==> m.0 == ToPeer(id) && OnlyFor(id, rest)
  {
    var all := [m] + rest;
    assert all[0] == m;
    if OnlyFor(id, all) {
      forall i | 0 <= i < |rest| ensures rest[i].0 == ToPeer(id) {
        assert rest[i] == all[i + 1];
      }
    }
  }

  predicate Replayed(ttl: nat, now: int, since: nat, e: Entry) {
    e.num > since && !Expired(ttl, now, e)
  }

  /** No message in reach of the replay was said to a room. */
  ghost predicate NoneToRoom(ttl: nat, now: int, since: nat, log: seq<Entry>, to: seq<Target>)
    requires |log| == |to|
  {
    forall i :: 0 <= i < |log| && Replayed(ttl, now, since, log[i]) ==> !to[i].ToRoom?
  }

  lemma {:induction false} OnlyForIff(id: string, ttl: nat, now: int, since: nat, log: seq<Entry>, to: seq<Target>)
    requires |log| == |to| && forall i :: 0 <= i < |to| ==> KeyOf(to[i]) == Key(id)
    ensures OnlyFor(id, Tagged(ttl, now, since, log, to)) <==> NoneToRoom(ttl, now, since, log, to)
  {
    if log != [] {
      OnlyForIff(id, ttl, now, since, log[1..], to[1..]);
      NoneToRoomCons(ttl, now, since, log, to);
      var rest := Tagged(ttl, now, since, log[1..], to[1..]);
      OnlyForCons(id, (to[0], log[0].data), rest);
      assert KeyOf(to[0]) == Key(id);
      assert [] + rest == rest;
    }
  }

  lemma NoneToRoomCons(ttl: nat, now: int, since: nat, log: seq<Entry>, to: seq<Target>)
    requires |log| == |to| && log != []
    ensures NoneToRoom(ttl, now, since, log, to)
       <==> (Replayed(ttl, now, since, log[0]) ==> !to[0].ToRoom?) && NoneToRoom(ttl, now, since, log[1..], to[1..])
  {
    if NoneToRoom(ttl, now, since, log[1..], to[1..]) {
      forall i | 1 <= i < |log| && Replayed(ttl, now, since, log[i]) ensures !to[i].ToRoom? {
        assert log[1..][i - 1] == log[i] && to[1..][i - 1] == to[i];
      }
    }
    if NoneToRoom(ttl, now, since, log, to) {
      forall i | 0 <= i < |log[1..]| && Replayed(ttl, now, since, log[1..][i]) ensures !to[1..][i].ToRoom? {
        assert log[1..][i] == log[i + 1] && to[1..][i] == to[i + 1];
      }
    }
  }

  /** After any run, a catch-up of the client `id` is told only what was addressed to it exactly
      if nothing in its reach was said to a room whose storage key is that id. */
  lemma CatchUpIsOwnIff(max: nat, ttl: nat, ts: seq<Traffic>, id: string, since: nat, now: int)
    requires forall i :: 0 <= i < |Events(ts)| ==> Events(ts)[i].Forget? || Events(ts)[i].now <= now
    ensures var log := LastN(Log(Ops(Events(ts)), Key(id)), Capacity(max));
      var to := LastN(Targets(ts, Key(id)), Capacity(max));
      && |log| == |to|
      && Select(ttl, now, since, BufferOf(Exec(max, ttl, Ops(Events(ts))), Key(id)))
         == Data(Tagged(ttl, now, since, log, to))
      && (OnlyFor(id, Tagged(ttl, now, since, log, to)) <==> NoneToRoom(ttl, now, since, log, to))
      && forall i :: 0 <= i < |to| && to[i].ToRoom? ==> NamespaceRoom(to[i].tenant, to[i].room) == id
  {
    var k, es := Key(id), Events(ts);
    TargetsFit(ts, k);
    EventLogIsLog(es, k);
    OpsTimes(es, now);
    ReplayRefinesLog(max, ttl, Ops(es), k, since, now);
    var log, to := LastN(Log(Ops(es), k), Capacity(max)), LastN(Targets(ts, k), Capacity(max));
    assert forall i :: 0 <= i < |to| ==> KeyOf(to[i]) == k;
    TaggedIsSelect(ttl, now, since, log, to);
    OnlyForIff(id, ttl, now, since, log, to);
  }

  /** A validated id is the storage key of one room only: the untenanted one of that name. */
  lemma ValidIdIsUntenantedRoom(tenant: Option<string>, room: string, id: string)
    requires IsValidIdentifier(room) && IsValidIdentifier(id)
    ensures NamespaceRoom(tenant, room) == id <==> tenant == None && room == id
  {
    NamespaceInjective(tenant, room, None, id);
  }

  lemma LobbyLog()
    ensures var ts := [Say(ToRoom(None, "lobby"), "hello", true, 0)];
      Ops(Events(ts)) == [Push(Key("lobby"), 1, "hello", 0)] && Targets(ts, Key("lobby")) == [ToRoom(None, "lobby")]
  {
    var ts := [Say(ToRoom(None, "lobby"), "hello", true, 0)];
    assert ts[..0] == [];
    assert Events(ts) == [] + [Relay(Key("lobby"), "hello", true, 0)];
    assert Events(ts)[..0] == [];
    assert Targets(ts, Key("lobby")) == [] + [ToRoom(None, "lobby")];
  }

  /** A client called "lobby" is replayed what was said in the room "lobby" it never joined. */
  lemma RoomDataReplayedToNamesake()
    ensures var ts := [Say(ToRoom(None, "lobby"), "hello", true, 0)];
      && Select(10, 0, 0, BufferOf(Exec(1, 10, Ops(Events(ts))), Key("lobby"))) == ["hello"]
      && Targets(ts, Key("lobby")) == [ToRoom(None, "lobby")]
  {
    LobbyLog();
    var ops := [Push(Key("lobby"), 1, "hello", 0)];
    assert ops[..0] == [];
    assert PushTo(1, 10, [], Entry(1, "hello", 0)) == [Entry(1, "hello", 0)];
    assert Exec(1, 10, ops) == map[Key("lobby") := [Entry(1, "hello", 0)]];
    assert [Entry(1, "hello", 0)][1..] == [];
  }
}
