/** Numbering and storing as the two separate steps they are: `handle_data` takes a number
    from the global counter and only later pushes the message to the replay buffer. */
module ReplayRaces {
  import opened Identifiers
  import opened ReplayBuffer
  import opened ReplayGap

  type Task = nat

  datatype Relaying = Relaying(k: Key, num: nat, data: string)

  /** `ops` are the buffer operations so far. */
  datatype State = State(counter: nat, flying: map<Task, Relaying>, ops: seq<Op>)

  const START := State(0, map[], [])

  datatype Move =
    | Take(t: Task, k: Key, data: string)   // fetch_add on seq_counter
    | Put(t: Task, now: int)                // push to the replay buffer
    | Skip(t: Task)                         // ephemeral: not stored
    | Tend(op: Op)                          // eviction or removal

  predicate Enabled(s: State, e: Move) {
    match e
    case Take(t, _, _) => t !in s.flying
    case Put(t, _) => t in s.flying
    case Skip(t) => t in s.flying
    case Tend(op) => !op.Push?
  }

  function Step(s: State, e: Move): State
    requires Enabled(s, e)
  {
    match e
    case Take(t, k, data) =>
      s.(counter := s.counter + 1, flying := s.flying[t := Relaying(k, s.counter + 1, data)])
    case Put(t, now) =>
      var r := s.flying[t];
      s.(flying := s.flying - {t}, ops := s.ops + [Push(r.k, r.num, r.data, now)])
    case Skip(t) => s.(flying := s.flying - {t})
    case Tend(op) => s.(ops := s.ops + [op])
  }

  ghost predicate Leads(P: (State, Move) -> bool, s: State, es: seq<Move>, t: State)
    decreases |es|
  {
    if es == [] then s == t
    else Enabled(s, es[0]) && P(s, es[0]) && Leads(P, Step(s, es[0]), es[1..], t)
  }

  ghost predicate Anything(s: State, e: Move) { true }

  // ---------------------------------------------------------------- numbers are never used twice

  ghost predicate InRange(s: State, num: nat) { 0 < num <= s.counter }

  /** Numbers in flight and in the log of `k` are from 1 to the counter, all different. */
  ghost predicate Unique(s: State, k: Key) {
    var log := Log(s.ops, k);
    && (forall t :: t in s.flying ==> InRange(s, s.flying[t].num))
    && (forall t, u :: t in s.flying && u in s.flying && t != u ==> s.flying[t].num != s.flying[u].num)
    && (forall i :: 0 <= i < |log| ==> InRange(s, log[i].num))
    && (forall i, t :: 0 <= i < |log| && t in s.flying ==> log[i].num != s.flying[t].num)
    && (forall i, j :: 0 <= i < j < |log| ==> log[i].num != log[j].num)
  }

  lemma PutLog(s: State, t: Task, now: int, k: Key)
    requires Enabled(s, Put(t, now))
    ensures var r := s.flying[t];
      Log(Step(s, Put(t, now)).ops, k)
      == if r.k == k then Log(s.ops, k) + [Entry(r.num, r.data, now)] else Log(s.ops, k)
  {
    var r := s.flying[t];
    LogSnoc(s.ops, Push(r.k, r.num, r.data, now), k);
  }

  lemma UniqueStep(s: State, e: Move, k: Key)
    requires Unique(s, k) && Enabled(s, e)
    ensures Unique(Step(s, e), k)
  {
    match e
    case Put(t, now) => PutLog(s, t, now, k);
    case Tend(op) => LogSnoc(s.ops, op, k);
    case _ =>
  }

  /** However relays race, no number is stored twice: a replay repeats no message. */
  lemma {:induction false} UniqueRun(s: State, es: seq<Move>, t: State, k: Key)
    requires Leads(Anything, s, es, t) && Unique(s, k)
    ensures Unique(t, k)
    decreases |es|
  {
    if es != [] {
      UniqueStep(s, es[0], k);
      UniqueRun(Step(s, es[0]), es[1..], t, k);
    }
  }

  // ---------------------------------------------------------------- exactly when numbers increase

  /** A message is stored for `k` only above the newest number stored since its last removal. */
  predicate InTurn(k: Key, s: State, e: Move) {
    e.Put? && e.t in s.flying && s.flying[e.t].k == k && Log(s.ops, k) != [] ==>
      Log(s.ops, k)[|Log(s.ops, k)| - 1].num < s.flying[e.t].num
  }

  lemma IncreasingSnocIff(log: seq<Entry>, e: Entry)
    requires Increasing(log)
    ensures Increasing(log + [e]) <==> (log == [] || log[|log| - 1].num < e.num)
  {
    var more := log + [e];
    if log != [] && log[|log| - 1].num >= e.num {
      assert more[|log| - 1].num >= more[|log|].num;
    }
  }

  lemma IncreasingStepIff(s: State, e: Move, k: Key)
    requires Increasing(Log(s.ops, k)) && Enabled(s, e)
    ensures Increasing(Log(Step(s, e).ops, k)) <==> InTurn(k, s, e)
  {
    match e
    case Put(t, now) =>
      PutLog(s, t, now, k);
      IncreasingSnocIff(Log(s.ops, k), Entry(s.flying[t].num, s.flying[t].data, now));
    case Tend(op) => LogSnoc(s.ops, op, k);
    case _ =>
  }

  ghost predicate IncreasingThroughout(s: State, es: seq<Move>, k: Key)
    decreases |es|
  {
    && Increasing(Log(s.ops, k))
    && (es == [] || (Enabled(s, es[0]) && IncreasingThroughout(Step(s, es[0]), es[1..], k)))
  }

  /** Numbers increase along the log of `k` throughout a run exactly if every message is
      stored in its turn. */
  lemma {:induction false} IncreasingThroughoutIff(s: State, es: seq<Move>, t: State, k: Key)
    requires Leads(Anything, s, es, t) && Increasing(Log(s.ops, k))
    ensures IncreasingThroughout(s, es, k) <==> Leads((x, e) => InTurn(k, x, e), s, es, t)
    decreases |es|
  {
    if es != [] {
      IncreasingStepIff(s, es[0], k);
      if InTurn(k, s, es[0]) {
        IncreasingThroughoutIff(Step(s, es[0]), es[1..], t, k);
      } else {
        assert !Increasing(Log(Step(s, es[0]).ops, k));
      }
    }
  }

  lemma {:induction false} InTurnIncreasing(s: State, es: seq<Move>, t: State, k: Key)
    requires Leads((x, e) => InTurn(k, x, e), s, es, t) && Increasing(Log(s.ops, k))
    ensures Increasing(Log(t.ops, k))
    decreases |es|
  {
    if es != [] {
      IncreasingStepIff(s, es[0], k);
      InTurnIncreasing(Step(s, es[0]), es[1..], t, k);
    }
  }

  /** So in every such run gap detection is sound at this grain too. */
  lemma InTurnMeansComplete(max: nat, ttl: nat, es: seq<Move>, s: State, k: Key, requested: nat, now: int)
    requires Leads((x, e) => InTurn(k, x, e), START, es, s)
    requires forall i :: 0 <= i < |s.ops| ==> s.ops[i].Remove? || s.ops[i].now <= now
    requires var b := BufferOf(Exec(max, ttl, s.ops), k); b != [] && b[0].num <= requested
    ensures Select(ttl, now, requested, BufferOf(Exec(max, ttl, s.ops), k))
         == Select(ttl, now, requested, Log(s.ops, k))
  {
    InTurnIncreasing(START, es, s, k);
    TailRun(max, ttl, s.ops, k, now);
    TailComplete(Capacity(max), ttl, now, requested, BufferOf(Exec(max, ttl, s.ops), k), Log(s.ops, k));
  }

  // ---------------------------------------------------------------- runs that lose messages silently

  const PEER := Key("k")

  lemma TwoInTheWrongOrder()
    ensures var ops := [Push(PEER, 2, "two", 0), Push(PEER, 1, "one", 0)];
      && BufferOf(Exec(1, 10, ops), PEER) == [Entry(1, "one", 0)]
      && Select(10, 0, 1, BufferOf(Exec(1, 10, ops), PEER)) == []
      && Select(10, 0, 1, Log(ops, PEER)) == ["two"]
  {
    var ops := [Push(PEER, 2, "two", 0), Push(PEER, 1, "one", 0)];
    assert ops[..1] == [Push(PEER, 2, "two", 0)] && ops[..1][..0] == [];
    assert PushTo(1, 10, [], Entry(2, "two", 0)) == [Entry(2, "two", 0)];
    var b := [Entry(2, "two", 0)];
    assert Exec(1, 10, ops[..1]) == map[PEER := b];
    assert b[1..] == [];
    assert PushTo(1, 10, b, Entry(1, "one", 0)) == [Entry(1, "one", 0)];
    assert [Entry(1, "one", 0)][1..] == [];
    assert Log(ops[..1], PEER) == b;
    var log := [Entry(2, "two", 0), Entry(1, "one", 0)];
    assert Log(ops, PEER) == log && log[1..] == [Entry(1, "one", 0)];
  }

  /** Both take their numbers; the second stores first. */
  lemma RaceRun() returns (s: State)
    ensures Leads(Anything, START, [Take(1, PEER, "one"), Take(2, PEER, "two"), Put(2, 0), Put(1, 0)], s)
    ensures s.ops == [Push(PEER, 2, "two", 0), Push(PEER, 1, "one", 0)]
  {
    var es := [Take(1, PEER, "one"), Take(2, PEER, "two"), Put(2, 0), Put(1, 0)];
    var one, two := Relaying(PEER, 1, "one"), Relaying(PEER, 2, "two");
    var s1 := State(1, map[1 := one], []);
    var s2 := State(2, map[1 := one, 2 := two], []);
    assert Step(START, es[0]) == s1;
    assert s1.flying[2 := two] == s2.flying && Step(s1, es[1]) == s2;
    s := RaceEnds(s2, one, two);
    assert es[1..][1..] == [Put(2, 0), Put(1, 0)] && es[1..][0] == es[1];
    assert Leads(Anything, s1, es[1..], s);
  }

  lemma RaceEnds(s: State, one: Relaying, two: Relaying) returns (s2: State)
    requires s == State(2, map[1 := one, 2 := two], [])
    ensures Leads(Anything, s, [Put(2, 0), Put(1, 0)], s2)
    ensures s2.ops == [Push(two.k, two.num, two.data, 0), Push(one.k, one.num, one.data, 0)]
  {
    var es := [Put(2, 0), Put(1, 0)];
    var s1 := Step(s, es[0]);
    assert s1.flying == map[1 := one] && s1.ops == [Push(two.k, two.num, two.data, 0)];
    s2 := Step(s1, es[1]);
    assert es[1..][0] == es[1] && es[1..][1..] == [] && Leads(Anything, s2, [], s2);
    assert Leads(Anything, s1, es[1..], s2);
  }

  /** Two relays take 1 and 2 but store 2 first: with room for one message, the client that
      has seen 1 is told of no gap and never gets 2. */
  lemma RacingRelaysHideGap()
    ensures exists s :: (
      && Leads(Anything, START, [Take(1, PEER, "one"), Take(2, PEER, "two"), Put(2, 0), Put(1, 0)], s)
      && BufferOf(Exec(1, 10, s.ops), PEER) == [Entry(1, "one", 0)]
      && Select(10, 0, 1, BufferOf(Exec(1, 10, s.ops), PEER)) == []
      && Select(10, 0, 1, Log(s.ops, PEER)) == ["two"])
  {
    var s := RaceRun();
    TwoInTheWrongOrder();
  }

  lemma OneForgotten()
    ensures Ops([Relay(PEER, "one", true, 0), Forget(PEER)]) == [Push(PEER, 1, "one", 0), Remove(PEER)]
  {
    var es := [Relay(PEER, "one", true, 0), Forget(PEER)];
    assert es[..1] == [es[0]] && [es[0]][..0] == [];
    assert Ops([es[0]]) == [] + [Push(PEER, 1, "one", 0)];
  }

  /** A message relayed to a client that then drops its connection: on return within the
      TTL it is told of no gap and gets nothing. */
  lemma DisconnectForgetsSilently()
    ensures var ops := Ops([Relay(PEER, "one", true, 0), Forget(PEER)]);
      && BufferOf(Exec(1, 10, ops), PEER) == []
      && Select(10, 0, 0, BufferOf(Exec(1, 10, ops), PEER)) == []
      && Select(10, 0, 0, EverPushed(ops, PEER)) == ["one"]
  {
    OneForgotten();
    var first, ops := [Push(PEER, 1, "one", 0)], [Push(PEER, 1, "one", 0), Remove(PEER)];
    assert ops[..1] == first && first[..0] == [];
    var all := [Entry(1, "one", 0)];
    assert EverPushed(first, PEER) == [] + all;
    assert EverPushed(ops, PEER) == all + [];
    assert all[1..] == [];
  }
}
