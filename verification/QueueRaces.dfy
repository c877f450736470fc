/** Two runs of the offline queue in which a message comes at the wrong moment. */
module QueueRaces {
  import opened OfflineQueue

  const ALICE := Id("a")
  const BOB := Id("b")
  const DAVE := Id("d")
  const FIRST := Msg(Signal, ALICE, DAVE, "1")
  const SECOND := Msg(Signal, BOB, DAVE, "2")

  /** Bob is online, Dave is not and has something queued. */
  function Scene(clock: int, tasks: map<Task, Phase>, q: seq<Item>, stamp: int, expires: seq<(Id, Id)>): State {
    State(clock, {BOB}, Redis(map[DAVE := q], map[DAVE := stamp]), tasks,
          map[], map[DAVE := Msgs(q)], map[DAVE := q], map[], expires)
  }

  const BOB_IN := Touching(BOB, ToDeliver)

  function Test(timeout: nat): AgeTest { AgeTest(0, 1, timeout) }

  lemma OneQueued(timeout: nat)
    ensures Reachable(timeout, Anything, Scene(0, map[0 := BOB_IN], [Item(FIRST, 0)], 0, []))
  {
    var s1 := INIT.(online := {BOB}, tasks := map[0 := BOB_IN]);
    var s2 := s1.(tasks := map[0 := BOB_IN, 1 := Queueing(FIRST)]);
    var s3 := Scene(0, map[0 := BOB_IN], [Item(FIRST, 0)], 0, []);
    ReachInit(timeout, Anything);
    ReachStep(timeout, Anything, INIT, Register(0, BOB), s1);
    assert s1.tasks[1 := Queueing(FIRST)] == s2.tasks;
    ReachStep(timeout, Anything, s1, Lookup(1, FIRST), s2);
    assert s2.tasks - {1} == s3.tasks;
    assert [] + [Item(FIRST, 0)] == [Item(FIRST, 0)] && Msgs([Item(FIRST, 0)]) == [FIRST] == [] + [FIRST];
    assert Enqueue(s2, 1, FIRST) == s3;
    ReachStep(timeout, Anything, s2, Push(1), s3);
  }

  /** The sweep finds the first message old enough. */
  lemma SweepGoesOn(timeout: nat)
    ensures Reachable(timeout, Anything,
      Scene(timeout, map[0 := BOB_IN, 2 := Touching(DAVE, ToExpire(Test(timeout)))], [Item(FIRST, 0)], 0, []))
  {
    OneQueued(timeout);
    var s3 := Scene(0, map[0 := BOB_IN], [Item(FIRST, 0)], 0, []);
    var s4 := s3.(clock := timeout);
    var p := Touching(DAVE, ToExpire(Test(timeout)));
    var s5 := s4.(tasks := map[0 := BOB_IN, 2 := p]);
    ReachStep(timeout, Anything, s3, Tick(timeout), s4);
    assert s4.tasks[2 := p] == s5.tasks;
    assert TestAge(timeout, s4, 2, DAVE, timeout) == s5;
    ReachStep(timeout, Anything, s4, Check(2, DAVE, timeout), s5);
  }

  /** While the sweep is at `p`, the second message is queued. */
  lemma SecondComes(timeout: nat, p: Phase, stamp: int, expires: seq<(Id, Id)>)
    requires Reachable(timeout, Anything, Scene(timeout, map[0 := BOB_IN, 2 := p], [Item(FIRST, 0)], stamp, expires))
    ensures Reachable(timeout, Anything,
      Scene(timeout, map[0 := BOB_IN, 2 := p], [Item(FIRST, 0), Item(SECOND, timeout)], timeout, expires))
  {
    var q := [Item(FIRST, 0), Item(SECOND, timeout)];
    var s := Scene(timeout, map[0 := BOB_IN, 2 := p], [Item(FIRST, 0)], stamp, expires);
    var s1 := s.(tasks := s.tasks[1 := Queueing(SECOND)]);
    var s2 := Scene(timeout, s.tasks, q, timeout, expires);
    ReachStep(timeout, Anything, s, Lookup(1, SECOND), s1);
    assert s1.tasks - {1} == s2.tasks;
    assert [Item(FIRST, 0)] + [Item(SECOND, timeout)] == q && Msgs([Item(FIRST, 0)]) + [SECOND] == Msgs(q);
    assert Enqueue(s1, 1, SECOND) == s2;
    ReachStep(timeout, Anything, s1, Push(1), s2);
  }

  lemma SweepLists(timeout: nat, why: Purpose, q: seq<Item>, stamp: int)
    requires why.ToExpire?
    requires Reachable(timeout, Anything, Scene(timeout, map[0 := BOB_IN, 2 := Touching(DAVE, why)], q, stamp, []))
    ensures Reachable(timeout, Anything,
                      Scene(timeout, map[0 := BOB_IN, 2 := Sending(DAVE, why, 0, q)], q, timeout, []))
  {
    var s := Scene(timeout, map[0 := BOB_IN, 2 := Touching(DAVE, why)], q, stamp, []);
    var s1 := Scene(timeout, map[0 := BOB_IN, 2 := Listing(DAVE, why)], q, timeout, []);
    var s2 := Scene(timeout, map[0 := BOB_IN, 2 := Sending(DAVE, why, 0, q)], q, timeout, []);
    assert s.tasks[2 := Listing(DAVE, why)] == s1.tasks;
    ReachStep(timeout, Anything, s, Touch(2), s1);
    assert s1.tasks[2 := Sending(DAVE, why, 0, q)] == s2.tasks;
    ReachStep(timeout, Anything, s1, List(2), s2);
  }

  /** The sweep touches, reads and notifies about a queue that does not change meanwhile. */
  lemma SweepReads(timeout: nat, q: seq<Item>, stamp: int)
    requires Reachable(timeout, Anything,
      Scene(timeout, map[0 := BOB_IN, 2 := Touching(DAVE, ToExpire(Test(timeout)))], q, stamp, []))
    ensures var ns := Notices({BOB}, Msgs(q), {});
      Reachable(timeout, Anything,
        Scene(timeout, map[0 := BOB_IN, 2 := Clearing(DAVE, Expired(Test(timeout), 0, |q|, 0, |ns|, {BOB}))],
              q, timeout, ns))
  {
    var ns := Notices({BOB}, Msgs(q), {});
    var why := ToExpire(Test(timeout));
    var fate := Expired(Test(timeout), 0, |q|, 0, |ns|, {BOB});
    var s2 := Scene(timeout, map[0 := BOB_IN, 2 := Sending(DAVE, why, 0, q)], q, timeout, []);
    var s3 := Scene(timeout, map[0 := BOB_IN, 2 := Clearing(DAVE, fate)], q, timeout, ns);
    SweepLists(timeout, why, q, stamp);
    assert s2.tasks[2 := Clearing(DAVE, fate)] == s3.tasks && [] + ns == ns;
    assert Notify(s2, 2, DAVE, Test(timeout), 0, q) == s3;
    ReachStep(timeout, Anything, s2, Send(2, 0), s3);
  }

  lemma SweepClears(timeout: nat, fate: Fate, q: seq<Item>, expires: seq<(Id, Id)>) returns (s1: State)
    requires Reachable(timeout, Anything,
      Scene(timeout, map[0 := BOB_IN, 2 := Clearing(DAVE, fate)], q, timeout, expires))
    ensures Reachable(timeout, Anything, s1) && s1.clock == timeout && s1.expires == expires && s1.received == map[]
    ensures Queue(s1, DAVE) == [] && SeqAt(s1.past, DAVE) == [Chunk(0, q, fate)]
  {
    var s := Scene(timeout, map[0 := BOB_IN, 2 := Clearing(DAVE, fate)], q, timeout, expires);
    s1 := Step(timeout, s, Clear(2));
    ReachStep(timeout, Anything, s, Clear(2), s1);
    assert SeqAt(s1.past, DAVE) == [] + [Chunk(0, q, fate)];
  }

  lemma SecondNotified(timeout: nat)
    ensures Notices({BOB}, Msgs([Item(FIRST, 0), Item(SECOND, timeout)]), {}) == [(BOB, DAVE)]
  {
    var ms := Msgs([Item(FIRST, 0), Item(SECOND, timeout)]);
    assert ms == [FIRST, SECOND] && ms[1..] == [SECOND] && [SECOND][1..] == [];
    assert SeenKey(ALICE, DAVE) == "a_d" && SeenKey(BOB, DAVE) == "b_d";
    assert "a_d"[0] != "b_d"[0];
    assert Notices({BOB}, [SECOND], {} + {"a_d"}) == [(BOB, DAVE)];
  }

  /** A message queued between the sweep's age test and its read is expired, and its sender
      told so, at the very moment it was queued. */
  lemma ExpiredAtOnce(timeout: nat)
    ensures exists s, f: Fate :: (
      && Reachable(timeout, Anything, s) && f.Expired? && f.test.now == s.clock
      && SeqAt(s.past, DAVE) == [Chunk(0, [Item(FIRST, 0), Item(SECOND, s.clock)], f)]
      && s.expires == [(BOB, DAVE)] && s.received == map[])
  {
    var q := [Item(FIRST, 0), Item(SECOND, timeout)];
    SweepGoesOn(timeout);
    SecondComes(timeout, Touching(DAVE, ToExpire(Test(timeout))), 0, []);
    SweepReads(timeout, q, timeout);
    SecondNotified(timeout);
    var f := Expired(Test(timeout), 0, |q|, 0, 1, {BOB});
    var s := SweepClears(timeout, f, q, [(BOB, DAVE)]);
    assert f.Expired? && f.test.now == s.clock;
  }

  /** A message queued between a drain's read and its clear is gone: not queued, not
      received, not even its online sender notified. */
  lemma DroppedUnread(timeout: nat)
    ensures exists s, f: Fate :: (
      && Reachable(timeout, Anything, s) && f.Expired? && f.hi == 1
      && SeqAt(s.past, DAVE) == [Chunk(0, [Item(FIRST, 0), Item(SECOND, s.clock)], f)]
      && Queue(s, DAVE) == [] && s.expires == [] && s.received == map[])
  {
    var q := [Item(FIRST, 0)];
    var f := Expired(Test(timeout), 0, 1, 0, 0, {BOB});
    SweepGoesOn(timeout);
    assert Msgs(q) == [FIRST] && [FIRST][1..] == [];
    assert Notices({BOB}, Msgs(q), {}) == [];
    SweepReads(timeout, q, 0);
    SecondComes(timeout, Clearing(DAVE, f), timeout, []);
    var s := SweepClears(timeout, f, [Item(FIRST, 0), Item(SECOND, timeout)], []);
  }

  // ---------------------------------------------------------------- deliveries

  /** Dave has connected; the first message is queued and his deliveries are under way. */
  function Back(tasks: map<Task, Phase>, received: seq<Receipt>): State {
    var q := [Item(FIRST, 0)];
    State(0, {BOB, DAVE}, Redis(map[DAVE := q], map[DAVE := 0]), tasks,
          if received == [] then map[] else map[DAVE := received], map[DAVE := Msgs(q)], map[DAVE := q], map[], [])
  }

  lemma DaveConnects(timeout: nat)
    ensures Reachable(timeout, Anything, Back(map[0 := BOB_IN, 2 := Touching(DAVE, ToDeliver)], []))
  {
    OneQueued(timeout);
    var s := Scene(0, map[0 := BOB_IN], [Item(FIRST, 0)], 0, []);
    var s1 := Back(map[0 := BOB_IN, 2 := Touching(DAVE, ToDeliver)], []);
    assert s.tasks[2 := Touching(DAVE, ToDeliver)] == s1.tasks;
    ReachStep(timeout, Anything, s, Register(2, DAVE), s1);
  }

  /** A delivery touches and reads. */
  lemma DeliveryReads(timeout: nat, tasks: map<Task, Phase>, t: Task)
    requires t in tasks && tasks[t] == Touching(DAVE, ToDeliver) && Reachable(timeout, Anything, Back(tasks, []))
    ensures Reachable(timeout, Anything, Back(tasks[t := Sending(DAVE, ToDeliver, 0, [Item(FIRST, 0)])], []))
  {
    var s := Back(tasks, []);
    var s1 := Back(tasks[t := Listing(DAVE, ToDeliver)], []);
    var p := Sending(DAVE, ToDeliver, 0, [Item(FIRST, 0)]);
    ReachStep(timeout, Anything, s, Touch(t), s1);
    assert s1.tasks[t := p] == tasks[t := p];
    ReachStep(timeout, Anything, s1, List(t), Back(tasks[t := p], []));
  }

  lemma DaveReads(timeout: nat)
    ensures Reachable(timeout, Anything,
      Back(map[0 := BOB_IN, 2 := Sending(DAVE, ToDeliver, 0, [Item(FIRST, 0)])], []))
  {
    DaveConnects(timeout);
    var tasks := map[0 := BOB_IN, 2 := Touching(DAVE, ToDeliver)];
    DeliveryReads(timeout, tasks, 2);
    var p := Sending(DAVE, ToDeliver, 0, [Item(FIRST, 0)]);
    assert tasks[2 := p] == map[0 := BOB_IN, 2 := p];
  }

  /** The channel is closed before the first send: nothing goes out, and the queue is cleared. */
  lemma BrokenDeliveryDropsQueue(timeout: nat)
    ensures exists s, f: Fate :: (
      && Reachable(timeout, Anything, s) && f.Delivered? && f.mid == f.lo
      && SeqAt(s.past, DAVE) == [Chunk(0, [Item(FIRST, 0)], f)]
      && Queue(s, DAVE) == [] && SeqAt(s.received, DAVE) == [] && s.expires == [])
  {
    DaveReads(timeout);
    var q := [Item(FIRST, 0)];
    var f := Delivered(0, 0, 1, 0);
    var s := Back(map[0 := BOB_IN, 2 := Sending(DAVE, ToDeliver, 0, q)], []);
    var s1 := Deliver(s, 2, DAVE, 0, q, 0);
    ReachStep(timeout, Anything, s, Send(2, 0), s1);
    assert q[..0] == [] && SeqAt(s1.received, DAVE) == [];
    assert s1.tasks[2] == Clearing(DAVE, f);
    var s2 := ClearQueue(s1, 2, DAVE, f);
    ReachStep(timeout, Anything, s1, Clear(2), s2);
    assert SeqAt(s2.past, DAVE) == [] + [Chunk(0, q, f)];
    assert f.Delivered? && f.mid == f.lo;
  }

  /** Two deliveries, on two connections of Dave, both read before either clears. */
  lemma BothRead(timeout: nat)
    ensures var p := Sending(DAVE, ToDeliver, 0, [Item(FIRST, 0)]);
      Reachable(timeout, Anything, Back(map[0 := BOB_IN, 2 := p, 3 := p], []))
  {
    DaveReads(timeout);
    var p := Sending(DAVE, ToDeliver, 0, [Item(FIRST, 0)]);
    var s := Back(map[0 := BOB_IN, 2 := p], []);
    var s1 := Back(s.tasks[3 := Touching(DAVE, ToDeliver)], []);
    ReachStep(timeout, Anything, s, Register(3, DAVE), s1);
    DeliveryReads(timeout, s1.tasks, 3);
    assert s1.tasks[3 := p] == map[0 := BOB_IN, 2 := p, 3 := p];
  }

  /** Both then send: the message is received twice. */
  lemma DeliveredTwice(timeout: nat)
    ensures exists s :: (
      Reachable(timeout, Anything, s) && SeqAt(s.received, DAVE) == [Receipt(FIRST, 0), Receipt(FIRST, 0)])
  {
    BothRead(timeout);
    var q := [Item(FIRST, 0)];
    var p := Sending(DAVE, ToDeliver, 0, q);
    var s := Back(map[0 := BOB_IN, 2 := p, 3 := p], []);
    var s1, s2 := Deliver(s, 2, DAVE, 0, q, 1), Deliver(Deliver(s, 2, DAVE, 0, q, 1), 3, DAVE, 0, q, 1);
    assert q[..1] == q && Receipts(q, 0) == [Receipt(FIRST, 0)];
    ReachStep(timeout, Anything, s, Send(2, 1), s1);
    assert SeqAt(s1.received, DAVE) == [] + [Receipt(FIRST, 0)];
    ReachStep(timeout, Anything, s1, Send(3, 1), s2);
    assert SeqAt(s2.received, DAVE) == [Receipt(FIRST, 0)] + [Receipt(FIRST, 0)];
  }
}
