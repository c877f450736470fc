/** The ledger of the offline queues, in every run: what was ever queued for a peer is
    what left the queue, chunk by chunk with its fate, followed by what is queued now. */
module QueueLedger {
  import opened Identifiers
  import opened OfflineQueue

  // ---------------------------------------------------------------- chunks in order

  /** These parts of the chunks, in order. */
  function Picked(cs: seq<Chunk>, part: Chunk -> seq<Item>): seq<Item> {
    if cs == [] then [] else Picked(cs[..|cs| - 1], part) + part(cs[|cs| - 1])
  }

  lemma PickedSnoc(cs: seq<Chunk>, c: Chunk, part: Chunk -> seq<Item>)
    ensures Picked(cs + [c], part) == Picked(cs, part) + part(c)
  {
    assert (cs + [c])[..|cs|] == cs;
  }

  /** Everything but what was forwarded without being queued. */
  function Queued(c: Chunk): seq<Item> { if c.fate.Forwarded? then [] else c.items }

  /** All addressed to `d` and queued by `stamp`. */
  ghost predicate QueuedBy(q: seq<Item>, d: Id, stamp: int) {
    forall i :: 0 <= i < |q| ==> q[i].msg.dst == d && q[i].at <= stamp
  }

  /** What was ever queued for `d` is what has left the queue followed by the queue. */
  ghost predicate Ledger(s: State, d: Id) {
    && SeqAt(s.log, d) == Picked(SeqAt(s.past, d), Queued) + Queue(s, d)
    && QueuedBy(SeqAt(s.log, d), d, s.clock)
  }

  /** The queue was all there when the timestamp was last set. */
  ghost predicate Stamped(s: State, d: Id) {
    if d in s.redis.meta then QueuedBy(Queue(s, d), d, s.redis.meta[d]) && s.redis.meta[d] <= s.clock
    else Queue(s, d) == []
  }

  ghost predicate Base(s: State, d: Id) {
    Ledger(s, d) && Stamped(s, d)
  }

  lemma QueuedByLater(q: seq<Item>, d: Id, stamp: int, now: int)
    requires QueuedBy(q, d, stamp) && stamp <= now
    ensures QueuedBy(q, d, now)
  {
  }

  /** Nothing about `d`'s queue changed, and time only moved on. */
  lemma UntouchedBase(s: State, t: State, d: Id)
    requires Base(s, d) && t.clock >= s.clock
    requires Queue(t, d) == Queue(s, d) && SeqAt(t.log, d) == SeqAt(s.log, d)
    requires d in t.redis.meta <==> d in s.redis.meta
    requires d in s.redis.meta ==> s.redis.meta[d] <= t.redis.meta[d] <= t.clock
    requires Picked(SeqAt(t.past, d), Queued) == Picked(SeqAt(s.past, d), Queued)
    ensures Base(t, d)
  {
    QueuedByLater(SeqAt(s.log, d), d, s.clock, t.clock);
    if d in s.redis.meta {
      QueuedByLater(Queue(s, d), d, s.redis.meta[d], t.redis.meta[d]);
    }
  }

  lemma ForwardBase(s: State, m: Msg, d: Id)
    requires Base(s, d)
    ensures Base(Forward(s, m), d)
  {
    PickedSnoc(SeqAt(s.past, m.dst), Chunk(0, [Item(m, s.clock)], Forwarded), Queued);
    UntouchedBase(s, Forward(s, m), d);
  }

  lemma QueuedBySnoc(q: seq<Item>, d: Id, now: int, m: Msg)
    requires QueuedBy(q, d, now) && m.dst == d
    ensures QueuedBy(q + [Item(m, now)], d, now)
  {
  }

  lemma EnqueueBase(s: State, t: Task, m: Msg)
    requires Base(s, m.dst)
    ensures Base(Enqueue(s, t, m), m.dst)
  {
    var d := m.dst;
    var s' := Enqueue(s, t, m);
    var q, log, it := Queue(s, d), SeqAt(s.log, d), Item(m, s.clock);
    if d in s.redis.meta {
      QueuedByLater(q, d, s.redis.meta[d], s.clock);
    }
    QueuedBySnoc(q, d, s.clock, m);
    QueuedBySnoc(log, d, s.clock, m);
    assert Queue(s', d) == q + [it] && SeqAt(s'.log, d) == log + [it];
    assert log + [it] == Picked(SeqAt(s.past, d), Queued) + (q + [it]);
  }

  lemma TouchBase(s: State, x: Id, d: Id)
    requires Base(s, d)
    ensures Base(s.(redis := Touched(s.redis, x, s.clock)), d)
  {
    var s' := s.(redis := Touched(s.redis, x, s.clock));
    if d in s.redis.meta || x != d {
      UntouchedBase(s, s', d);
    }
  }

  lemma ClearBase(s: State, t: Task, x: Id, fate: Fate, d: Id)
    requires Base(s, d) && !fate.Forwarded?
    ensures Base(ClearQueue(s, t, x, fate), d)
  {
    var s' := ClearQueue(s, t, x, fate);
    if x == d {
      PickedSnoc(SeqAt(s.past, d), Chunk(Gone(s, d), Queue(s, d), fate), Queued);
      assert SeqAt(s'.log, d) == Picked(SeqAt(s'.past, d), Queued) + [];
    } else {
      assert Queue(s', d) == Queue(s, d);
      UntouchedBase(s, s', d);
    }
  }

  // ---------------------------------------------------------------- what tasks and chunks promise

  /** What the promises about `d` speak of. */
  datatype View = View(log: seq<Item>, gone: int, rec: seq<Receipt>, exp: seq<(Id, Id)>, clock: int)

  function ViewOf(s: State, d: Id): View {
    View(SeqAt(s.log, d), Gone(s, d), SeqAt(s.received, d), s.expires, s.clock)
  }

  /** Logs only grow, queues only lose from the front, time only moves on. */
  ghost predicate Later(v: View, w: View) {
    && v.log <= w.log && v.gone <= w.gone && v.rec <= w.rec && v.exp <= w.exp && v.clock <= w.clock
    && forall i :: |v.log| <= i < |w.log| ==> w.log[i].at >= v.clock
  }

  /** When a sweep went on, what was queued had been there for the timeout by its clock,
      and what is queued after has not been there at all. */
  ghost predicate TestOk(timeout: nat, v: View, test: AgeTest) {
    && 0 <= test.gone <= test.mark <= |v.log| && test.gone <= v.gone && test.now <= v.clock
    && (forall i :: test.gone <= i < test.mark ==> test.now - v.log[i].at >= timeout)
    && (forall i :: test.mark <= i < |v.log| ==> v.log[i].at >= test.now)
  }

  ghost predicate PurposeOk(timeout: nat, v: View, why: Purpose) {
    why.ToExpire? ==> TestOk(timeout, v, why.test)
  }

  /** What a delivery sent is in `received`, what a sweep notified in `expires`. */
  ghost predicate FateOk(timeout: nat, v: View, fate: Fate) {
    match fate
    case Forwarded => false
    case Evicted => true
    case Delivered(lo, mid, hi, pos) =>
      && 0 <= lo <= mid <= hi <= |v.log| && lo <= v.gone
      && 0 <= pos && pos + mid - lo <= |v.rec|
      && v.rec[pos..pos + mid - lo] == Receipts(v.log[lo..mid], lo)
    case Expired(test, lo, hi, pos, upto, online) =>
      && TestOk(timeout, v, test)
      && test.gone <= lo <= hi <= |v.log| && lo <= v.gone
      && 0 <= pos <= upto <= |v.exp|
      && v.exp[pos..upto] == Notices(online, Msgs(v.log[lo..hi]), {})
  }

  ghost predicate PhaseOk(timeout: nat, v: View, p: Phase) {
    match p
    case Queueing(_) => true
    case Touching(_, why) => PurposeOk(timeout, v, why)
    case Listing(_, why) => PurposeOk(timeout, v, why)
    case Sending(_, why, lo, batch) =>
      && PurposeOk(timeout, v, why) && (why.ToExpire? ==> why.test.gone <= lo)
      && 0 <= lo <= v.gone && lo + |batch| <= |v.log| && batch == v.log[lo..lo + |batch|]
    case Clearing(_, fate) => FateOk(timeout, v, fate)
  }

  /** A chunk from the queue is a stretch of the log, gone from the queue, that was
      dealt with as its fate says. */
  ghost predicate ChunkOk(timeout: nat, v: View, c: Chunk) {
    !c.fate.Forwarded? ==>
      && 0 <= c.start && c.start + |c.items| <= v.gone && v.gone <= |v.log|
      && c.items == v.log[c.start..c.start + |c.items|]
      && FateOk(timeout, v.(gone := c.start), c.fate)
  }

  function Target(p: Phase): Id { if p.Queueing? then p.m.dst else p.d }

  /** Whom a step is about. */
  function About(s: State, e: Event): Option<Id>
    requires Enabled(s, e)
  {
    match e
    case Tick(_) => None
    case Lookup(_, m) => Some(m.dst)
    case Register(_, d) => Some(d)
    case Check(_, d, _) => Some(d)
    case Evict(_, d) => Some(d)
    case Drop(d) => Some(d)
    case _ => Some(Target(s.tasks[e.t]))
  }

  /** The task `t` may be new, changed or gone; the others are as they were. */
  predicate OnlyTask(before: map<Task, Phase>, after: map<Task, Phase>, t: Task) {
    after - {t} == before - {t}
  }

  lemma OnlyTaskOf(before: map<Task, Phase>, after: map<Task, Phase>, t: Task)
    requires after == before || after == before - {t} || (t in after && after == before[t := after[t]])
    ensures OnlyTask(before, after, t)
  {
  }

  lemma BeginOnlyTask(timeout: nat, s: State, e: Event)
    requires Enabled(s, e) && (e.Lookup? || e.Register? || e.Check? || e.Evict?)
    ensures OnlyTask(s.tasks, Step(timeout, s, e).tasks, e.t)
  {
    OnlyTaskOf(s.tasks, Step(timeout, s, e).tasks, e.t);
  }

  lemma ReadOnlyTask(s: State, t: Task, d: Id, why: Purpose)
    ensures OnlyTask(s.tasks, ReadAll(s, t, d, why).tasks, t)
  {
    OnlyTaskOf(s.tasks, ReadAll(s, t, d, why).tasks, t);
  }

  lemma SendOnlyTask(timeout: nat, s: State, t: Task, k: nat)
    requires Enabled(s, Send(t, k))
    ensures OnlyTask(s.tasks, Step(timeout, s, Send(t, k)).tasks, t)
  {
    OnlyTaskOf(s.tasks, Step(timeout, s, Send(t, k)).tasks, t);
  }

  lemma NextOnlyTask(timeout: nat, s: State, e: Event)
    requires Enabled(s, e) && (e.Push? || e.Touch? || e.Clear?)
    ensures OnlyTask(s.tasks, Step(timeout, s, e).tasks, e.t)
  {
    OnlyTaskOf(s.tasks, Step(timeout, s, e).tasks, e.t);
  }

  lemma OnlyTaskOther(before: map<Task, Phase>, after: map<Task, Phase>, t: Task, u: Task)
    requires OnlyTask(before, after, t) && u != t
    ensures (u in after <==> u in before) && (u in before ==> after[u] == before[u])
  {
    assert u in after <==> u in after - {t};
    assert u in before <==> u in before - {t};
    assert u in before ==> after[u] == (after - {t})[u] == (before - {t})[u];
  }

  /** A step touches at most the one task it names ... */
  lemma OtherTaskStays(timeout: nat, s: State, e: Event, u: Task)
    requires Enabled(s, e) && (e.Tick? || e.Drop? || e.t != u)
    ensures var tasks := Step(timeout, s, e).tasks;
      (u in tasks <==> u in s.tasks) && (u in s.tasks ==> tasks[u] == s.tasks[u])
  {
    if !e.Tick? && !e.Drop? {
      if e.Lookup? || e.Register? || e.Check? || e.Evict? {
        BeginOnlyTask(timeout, s, e);
      } else if e.List? {
        ReadOnlyTask(s, e.t, s.tasks[e.t].d, s.tasks[e.t].why);
      } else if e.Send? {
        SendOnlyTask(timeout, s, e.t, e.k);
      } else {
        NextOnlyTask(timeout, s, e);
      }
      OnlyTaskOther(s.tasks, Step(timeout, s, e).tasks, e.t, u);
    }
  }

  /** ... and that one stays with the peer it is for. */
  lemma OwnTaskStays(timeout: nat, s: State, e: Event)
    requires Enabled(s, e) && !e.Tick? && !e.Drop?
    ensures var tasks := Step(timeout, s, e).tasks; e.t in tasks ==> About(s, e) == Some(Target(tasks[e.t]))
  {
  }

  lemma OneTask(timeout: nat, s: State, e: Event, u: Task)
    requires Enabled(s, e)
    ensures var tasks := Step(timeout, s, e).tasks;
      && (u in s.tasks && (e.Tick? || e.Drop? || e.t != u) ==> u in tasks && tasks[u] == s.tasks[u])
      && (u in tasks ==> (u in s.tasks && tasks[u] == s.tasks[u]) || About(s, e) == Some(Target(tasks[u])))
  {
    if e.Tick? || e.Drop? || e.t != u {
      OtherTaskStays(timeout, s, e, u);
    } else {
      OwnTaskStays(timeout, s, e);
    }
  }

  ghost predicate TasksOk(timeout: nat, s: State, d: Id) {
    forall t :: t in s.tasks && Target(s.tasks[t]) == d ==> PhaseOk(timeout, ViewOf(s, d), s.tasks[t])
  }

  ghost predicate ChunksOk(timeout: nat, s: State, d: Id) {
    forall i :: 0 <= i < |SeqAt(s.past, d)| ==> ChunkOk(timeout, ViewOf(s, d), SeqAt(s.past, d)[i])
  }

  ghost predicate Consistent(timeout: nat, s: State, d: Id) {
    Base(s, d) && TasksOk(timeout, s, d) && ChunksOk(timeout, s, d)
  }

  // ---------------------------------------------------------------- promises are kept

  lemma SlicePrefix<T>(a: seq<T>, b: seq<T>, i: int, j: int)
    requires a <= b && 0 <= i <= j <= |a|
    ensures a[i..j] == b[i..j]
  {
  }

  lemma TestLater(timeout: nat, v: View, w: View, test: AgeTest)
    requires TestOk(timeout, v, test) && Later(v, w)
    ensures TestOk(timeout, w, test)
  {
  }

  lemma FateLater(timeout: nat, v: View, w: View, fate: Fate)
    requires FateOk(timeout, v, fate) && Later(v, w)
    ensures FateOk(timeout, w, fate)
  {
    match fate
    case Delivered(lo, mid, hi, pos) =>
      SlicePrefix(v.log, w.log, lo, mid);
      SlicePrefix(v.rec, w.rec, pos, pos + mid - lo);
    case Expired(test, lo, hi, pos, upto, online) =>
      TestLater(timeout, v, w, test);
      SlicePrefix(v.log, w.log, lo, hi);
      SlicePrefix(v.exp, w.exp, pos, upto);
    case _ =>
  }

  lemma PhaseLater(timeout: nat, v: View, w: View, p: Phase)
    requires PhaseOk(timeout, v, p) && Later(v, w)
    ensures PhaseOk(timeout, w, p)
  {
    if !p.Queueing? && !p.Clearing? && p.why.ToExpire? {
      TestLater(timeout, v, w, p.why.test);
    }
    match p
    case Sending(_, why, lo, batch) => SlicePrefix(v.log, w.log, lo, lo + |batch|);
    case Clearing(_, fate) => FateLater(timeout, v, w, fate);
    case _ =>
  }

  lemma ChunkLater(timeout: nat, v: View, w: View, c: Chunk)
    requires ChunkOk(timeout, v, c) && Later(v, w) && w.gone <= |w.log|
    ensures ChunkOk(timeout, w, c)
  {
    if !c.fate.Forwarded? {
      FateLater(timeout, v.(gone := c.start), w.(gone := c.start), c.fate);
      SlicePrefix(v.log, w.log, c.start, c.start + |c.items|);
    }
  }

  /** Old promises carry over; only new tasks and new chunks need an argument. */
  lemma Carry(timeout: nat, s: State, s': State, d: Id)
    requires Consistent(timeout, s, d) && Base(s', d) && Later(ViewOf(s, d), ViewOf(s', d))
    requires forall t :: t in s'.tasks && Target(s'.tasks[t]) == d ==>
      (t in s.tasks && s'.tasks[t] == s.tasks[t]) || PhaseOk(timeout, ViewOf(s', d), s'.tasks[t])
    requires SeqAt(s.past, d) <= SeqAt(s'.past, d)
    requires forall i :: |SeqAt(s.past, d)| <= i < |SeqAt(s'.past, d)| ==>
      ChunkOk(timeout, ViewOf(s', d), SeqAt(s'.past, d)[i])
    ensures Consistent(timeout, s', d)
  {
    var v, w := ViewOf(s, d), ViewOf(s', d);
    forall t | t in s'.tasks && Target(s'.tasks[t]) == d ensures PhaseOk(timeout, w, s'.tasks[t]) {
      if t in s.tasks && s'.tasks[t] == s.tasks[t] {
        PhaseLater(timeout, v, w, s.tasks[t]);
      }
    }
    forall i | 0 <= i < |SeqAt(s'.past, d)| ensures ChunkOk(timeout, w, SeqAt(s'.past, d)[i]) {
      if i < |SeqAt(s.past, d)| {
        ChunkLater(timeout, v, w, SeqAt(s.past, d)[i]);
      }
    }
  }

  /** One chunk more and perhaps a task less; the rest carries over. */
  lemma ChunkAdded(timeout: nat, s: State, s': State, d: Id, c: Chunk, w: View)
    requires Consistent(timeout, s, d) && Base(s', d) && ViewOf(s', d) == w && Later(ViewOf(s, d), w)
    requires SeqAt(s'.past, d) == SeqAt(s.past, d) + [c] && ChunkOk(timeout, w, c)
    requires forall t :: t in s'.tasks ==> t in s.tasks && s'.tasks[t] == s.tasks[t]
    ensures Consistent(timeout, s', d)
  {
    Carry(timeout, s, s', d);
  }

  /** A step that leaves the queues alone and moves one task. */
  lemma TaskMoves(timeout: nat, s: State, s': State, t: Task, d: Id)
    requires Consistent(timeout, s, d)
    requires s'.redis == s.redis && s'.log == s.log && s'.past == s.past && s'.clock == s.clock
    requires s.expires <= s'.expires && SeqAt(s.received, d) <= SeqAt(s'.received, d)
    requires forall u :: u in s'.tasks && u != t ==> u in s.tasks && s'.tasks[u] == s.tasks[u]
    requires t in s'.tasks && Target(s'.tasks[t]) == d ==> PhaseOk(timeout, ViewOf(s', d), s'.tasks[t])
    ensures Consistent(timeout, s', d)
  {
    UntouchedBase(s, s', d);
    Carry(timeout, s, s', d);
  }

  /** The same with the new phase and what the promises speak of then made explicit. */
  lemma TaskMovesTo(timeout: nat, s: State, s': State, t: Task, p: Phase, w: View, d: Id)
    requires Consistent(timeout, s, d)
    requires s'.redis == s.redis && s'.log == s.log && s'.past == s.past && s'.clock == s.clock
    requires s.expires <= s'.expires && SeqAt(s.received, d) <= SeqAt(s'.received, d)
    requires s'.tasks == s.tasks[t := p] && ViewOf(s', d) == w && (Target(p) == d ==> PhaseOk(timeout, w, p))
    ensures Consistent(timeout, s', d)
  {
    TaskMoves(timeout, s, s', t, d);
  }

  lemma TaskPut(timeout: nat, s: State, online: set<Id>, t: Task, p: Phase, d: Id)
    requires Consistent(timeout, s, d) && (Target(p) == d ==> PhaseOk(timeout, ViewOf(s, d), p))
    ensures Consistent(timeout, s.(online := online, tasks := s.tasks[t := p]), d)
  {
    var s' := s.(online := online, tasks := s.tasks[t := p]);
    assert ViewOf(s', d) == ViewOf(s, d);
    TaskMoves(timeout, s, s', t, d);
  }

  lemma TaskEnds(timeout: nat, s: State, t: Task, d: Id)
    requires Consistent(timeout, s, d)
    ensures Consistent(timeout, s.(tasks := s.tasks - {t}), d)
  {
    TaskMoves(timeout, s, s.(tasks := s.tasks - {t}), t, d);
  }

  // ---------------------------------------------------------------- step by step

  lemma ForwardLater(s: State, m: Msg, d: Id)
    ensures Later(ViewOf(s, d), ViewOf(Forward(s, m), d))
  {
    if m.dst != d {
      assert ViewOf(Forward(s, m), d) == ViewOf(s, d);
    }
  }

  lemma ForwardConsistent(timeout: nat, s: State, m: Msg, d: Id)
    requires Consistent(timeout, s, d)
    ensures Consistent(timeout, Forward(s, m), d)
  {
    var s' := Forward(s, m);
    ForwardBase(s, m, d);
    ForwardLater(s, m, d);
    if m.dst == d {
      ChunkAdded(timeout, s, s', d, Chunk(0, [Item(m, s.clock)], Forwarded), ViewOf(s', d));
    } else {
      Carry(timeout, s, s', d);
    }
  }

  lemma TransmitConsistent(timeout: nat, s: State, t: Task, m: Msg, d: Id)
    requires Consistent(timeout, s, d)
    ensures Consistent(timeout, Transmit(s, t, m), d)
  {
    if m.dst in s.online {
      ForwardConsistent(timeout, s, m, d);
    } else {
      TaskPut(timeout, s, s.online, t, Queueing(m), d);
    }
  }

  lemma EnqueueLater(s: State, t: Task, m: Msg, d: Id)
    requires QueuedBy(SeqAt(s.log, d), d, s.clock)
    ensures Later(ViewOf(s, d), ViewOf(Enqueue(s, t, m), d))
  {
    var s' := Enqueue(s, t, m);
    if m.dst == d {
      assert SeqAt(s'.log, d) == SeqAt(s.log, d) + [Item(m, s.clock)];
      assert Queue(s', d) == Queue(s, d) + [Item(m, s.clock)];
    } else {
      assert ViewOf(s', d) == ViewOf(s, d);
    }
  }

  lemma EnqueueConsistent(timeout: nat, s: State, t: Task, m: Msg, d: Id)
    requires Consistent(timeout, s, d)
    ensures Consistent(timeout, Enqueue(s, t, m), d)
  {
    var s' := Enqueue(s, t, m);
    if m.dst == d {
      EnqueueBase(s, t, m);
    } else {
      assert Queue(s', d) == Queue(s, d) && SeqAt(s'.log, d) == SeqAt(s.log, d);
      UntouchedBase(s, s', d);
    }
    EnqueueLater(s, t, m, d);
    Carry(timeout, s, s', d);
  }

  /** A queue that passes the age test has been quiet for the timeout. */
  lemma AgedTest(timeout: nat, s: State, d: Id, now: int)
    requires Base(s, d) && now <= s.clock && Stale(timeout, s.redis, d, now)
    ensures TestOk(timeout, ViewOf(s, d), AgeTest(Gone(s, d), |SeqAt(s.log, d)|, now))
  {
    var log, q := SeqAt(s.log, d), Queue(s, d);
    forall i | Gone(s, d) <= i < |log| ensures now - log[i].at >= timeout {
      assert log[i] == q[i - Gone(s, d)];
    }
  }

  lemma TestAgeConsistent(timeout: nat, s: State, t: Task, x: Id, now: int, d: Id)
    requires Consistent(timeout, s, d) && Enabled(s, Check(t, x, now))
    ensures Consistent(timeout, TestAge(timeout, s, t, x, now), d)
  {
    if Stale(timeout, s.redis, x, now) {
      if x == d {
        AgedTest(timeout, s, d, now);
      }
      TaskPut(timeout, s, s.online, t, Touching(x, ToExpire(AgeTest(Gone(s, x), |SeqAt(s.log, x)|, now))), d);
    }
  }

  lemma TouchConsistent(timeout: nat, s: State, t: Task, x: Id, why: Purpose, d: Id)
    requires Consistent(timeout, s, d) && (x == d ==> PurposeOk(timeout, ViewOf(s, d), why))
    ensures Consistent(timeout, s.(redis := Touched(s.redis, x, s.clock), tasks := s.tasks[t := Listing(x, why)]), d)
  {
    var s1 := s.(redis := Touched(s.redis, x, s.clock));
    TouchBase(s, x, d);
    assert ViewOf(s1, d) == ViewOf(s, d);
    Carry(timeout, s, s1, d);
    TaskPut(timeout, s1, s.online, t, Listing(x, why), d);
  }

  lemma ReadPhaseOk(timeout: nat, s: State, d: Id, why: Purpose)
    requires Base(s, d) && PurposeOk(timeout, ViewOf(s, d), why)
    ensures PhaseOk(timeout, ViewOf(s, d), Sending(d, why, Gone(s, d), Queue(s, d)))
  {
    var log, q, lo := SeqAt(s.log, d), Queue(s, d), Gone(s, d);
    assert q == log[lo..lo + |q|];
  }

  lemma ReadConsistent(timeout: nat, s: State, t: Task, x: Id, why: Purpose, d: Id)
    requires Consistent(timeout, s, d) && (x == d ==> PurposeOk(timeout, ViewOf(s, d), why))
    ensures Consistent(timeout, ReadAll(s, t, x, why), d)
  {
    if x == d {
      ReadPhaseOk(timeout, s, d, why);
    }
    TaskPut(timeout, s, s.online, t, Sending(x, why, Gone(s, x), Queue(s, x)), d);
    TaskEnds(timeout, s, t, d);
  }

  lemma DeliveredOk(timeout: nat, v: View, d: Id, lo: int, batch: seq<Item>, k: nat)
    requires k <= |batch| && PhaseOk(timeout, v, Sending(d, ToDeliver, lo, batch))
    ensures FateOk(timeout, v.(rec := v.rec + Receipts(batch[..k], lo)), Delivered(lo, lo + k, lo + |batch|, |v.rec|))
  {
    assert batch[..k] == v.log[lo..lo + k];
  }

  lemma DeliverView(s: State, t: Task, x: Id, lo: int, batch: seq<Item>, k: nat, d: Id)
    requires k <= |batch|
    ensures ViewOf(Deliver(s, t, x, lo, batch, k), d)
         == if x == d then ViewOf(s, d).(rec := SeqAt(s.received, d) + Receipts(batch[..k], lo)) else ViewOf(s, d)
  {
  }

  lemma DeliverConsistent(timeout: nat, s: State, t: Task, x: Id, lo: int, batch: seq<Item>, k: nat, d: Id)
    requires Consistent(timeout, s, d) && k <= |batch|
    requires x == d ==> PhaseOk(timeout, ViewOf(s, d), Sending(d, ToDeliver, lo, batch))
    ensures Consistent(timeout, Deliver(s, t, x, lo, batch, k), d)
  {
    var s' := Deliver(s, t, x, lo, batch, k);
    DeliverView(s, t, x, lo, batch, k, d);
    if x == d {
      DeliveredOk(timeout, ViewOf(s, d), d, lo, batch, k);
    }
    TaskMovesTo(timeout, s, s', t, Clearing(x, Delivered(lo, lo + k, lo + |batch|, |SeqAt(s.received, x)|)),
                ViewOf(s', d), d);
  }

  lemma NotifiedOk(timeout: nat, v: View, d: Id, test: AgeTest, lo: int, batch: seq<Item>, online: set<Id>)
    requires PhaseOk(timeout, v, Sending(d, ToExpire(test), lo, batch))
    ensures var ns := Notices(online, Msgs(batch), {});
      FateOk(timeout, v.(exp := v.exp + ns), Expired(test, lo, lo + |batch|, |v.exp|, |v.exp| + |ns|, online))
  {
  }

  lemma NoticesGoOut(timeout: nat, s: State, s': State, t: Task, x: Id, fate: Fate, ns: seq<(Id, Id)>, d: Id)
    requires s' == s.(expires := s.expires + ns, tasks := s.tasks[t := Clearing(x, fate)])
    requires Consistent(timeout, s, d)
    requires x == d ==> FateOk(timeout, ViewOf(s, d).(exp := s.expires + ns), fate)
    ensures Consistent(timeout, s', d)
  {
    var w := ViewOf(s, d).(exp := s.expires + ns);
    assert ViewOf(s', d) == w;
    TaskMovesTo(timeout, s, s', t, Clearing(x, fate), w, d);
  }

  lemma NotifyConsistent(timeout: nat, s: State, t: Task, x: Id, test: AgeTest, lo: int, batch: seq<Item>, d: Id)
    requires Consistent(timeout, s, d)
    requires x == d ==> PhaseOk(timeout, ViewOf(s, d), Sending(d, ToExpire(test), lo, batch))
    ensures Consistent(timeout, Notify(s, t, x, test, lo, batch), d)
  {
    var ns, n := Notices(s.online, Msgs(batch), {}), |s.expires|;
    var fate := Expired(test, lo, lo + |batch|, n, n + |ns|, s.online);
    if x == d {
      NotifiedOk(timeout, ViewOf(s, d), d, test, lo, batch, s.online);
    }
    NoticesGoOut(timeout, s, Notify(s, t, x, test, lo, batch), t, x, fate, ns, d);
  }

  lemma SendConsistent(timeout: nat, s: State, t: Task, k: nat, d: Id)
    requires Consistent(timeout, s, d) && Enabled(s, Send(t, k))
    ensures Consistent(timeout, Step(timeout, s, Send(t, k)), d)
  {
    var p := s.tasks[t];
    assert p.d == d ==> PhaseOk(timeout, ViewOf(s, d), p);
    if p.why.ToDeliver? {
      DeliverConsistent(timeout, s, t, p.d, p.lo, p.batch, k, d);
    } else {
      NotifyConsistent(timeout, s, t, p.d, p.why.test, p.lo, p.batch, d);
    }
  }

  lemma ClearedView(s: State, t: Task, d: Id, fate: Fate)
    requires Base(s, d)
    ensures var w := ViewOf(s, d).(gone := |SeqAt(s.log, d)|);
      ViewOf(ClearQueue(s, t, d, fate), d) == w && Later(ViewOf(s, d), w)
  {
  }

  lemma ClearConsistent(timeout: nat, s: State, t: Task, fate: Fate, d: Id)
    requires Consistent(timeout, s, d) && FateOk(timeout, ViewOf(s, d), fate)
    ensures Consistent(timeout, ClearQueue(s, t, d, fate), d)
  {
    var c, w := Chunk(Gone(s, d), Queue(s, d), fate), ViewOf(s, d).(gone := |SeqAt(s.log, d)|);
    ClearBase(s, t, d, fate, d);
    ClearedView(s, t, d, fate);
    ClearedChunkOk(timeout, s, d, fate, w);
    ChunkAdded(timeout, s, ClearQueue(s, t, d, fate), d, c, w);
  }

  lemma ClearElsewhere(timeout: nat, s: State, t: Task, x: Id, fate: Fate, d: Id)
    requires Consistent(timeout, s, d) && x != d
    ensures Consistent(timeout, ClearQueue(s, t, x, fate), d)
  {
    var s' := ClearQueue(s, t, x, fate);
    assert Queue(s', d) == Queue(s, d) && SeqAt(s'.past, d) == SeqAt(s.past, d);
    UntouchedBase(s, s', d);
    Carry(timeout, s, s', d);
  }

  lemma ClearedChunkOk(timeout: nat, s: State, d: Id, fate: Fate, w: View)
    requires Base(s, d) && FateOk(timeout, ViewOf(s, d), fate)
    requires w == ViewOf(s, d).(gone := |SeqAt(s.log, d)|)
    ensures ChunkOk(timeout, w, Chunk(Gone(s, d), Queue(s, d), fate))
  {
    assert w.(gone := Gone(s, d)) == ViewOf(s, d);
    assert Queue(s, d) == w.log[Gone(s, d)..];
  }

  lemma ConsistentStep(timeout: nat, s: State, e: Event, d: Id)
    requires Consistent(timeout, s, d) && Enabled(s, e)
    ensures Consistent(timeout, Step(timeout, s, e), d)
  {
    var s' := Step(timeout, s, e);
    match e
    case Lookup(t, m) => TransmitConsistent(timeout, s, t, m, d);
    case Push(t) => EnqueueConsistent(timeout, s, t, s.tasks[t].m, d);
    case Check(t, x, now) => TestAgeConsistent(timeout, s, t, x, now, d);
    case Touch(t) =>
      assert s.tasks[t].d == d ==> PhaseOk(timeout, ViewOf(s, d), s.tasks[t]);
      TouchConsistent(timeout, s, t, s.tasks[t].d, s.tasks[t].why, d);
    case List(t) =>
      assert s.tasks[t].d == d ==> PhaseOk(timeout, ViewOf(s, d), s.tasks[t]);
      ReadConsistent(timeout, s, t, s.tasks[t].d, s.tasks[t].why, d);
    case Send(t, k) => SendConsistent(timeout, s, t, k, d);
    case Clear(t) =>
      if s.tasks[t].d == d {
        assert PhaseOk(timeout, ViewOf(s, d), s.tasks[t]);
        ClearConsistent(timeout, s, t, s.tasks[t].fate, d);
      } else {
        ClearElsewhere(timeout, s, t, s.tasks[t].d, s.tasks[t].fate, d);
      }
    case Register(t, x) => TaskPut(timeout, s, s.online + {x}, t, Touching(x, ToDeliver), d);
    case Evict(t, x) => TaskPut(timeout, s, s.online - {x}, t, Clearing(x, Evicted), d);
    case Drop(x) => TaskMoves(timeout, s, s', 0, d);
    case Tick(now) =>
      UntouchedBase(s, s', d);
      Carry(timeout, s, s', d);
  }

  /** In every run, however transmissions, deliveries, sweeps and evictions interleave. */
  lemma {:induction false} LedgerRun(timeout: nat, s: State, es: seq<Event>, t: State, d: Id)
    requires Leads(timeout, Anything, s, es, t) && Consistent(timeout, s, d)
    ensures Consistent(timeout, t, d)
    decreases |es|
  {
    if es != [] {
      ConsistentStep(timeout, s, es[0], d);
      LedgerRun(timeout, Step(timeout, s, es[0]), es[1..], t, d);
    }
  }

  lemma ReachableConsistent(timeout: nat, s: State, d: Id)
    requires Reachable(timeout, Anything, s)
    ensures Consistent(timeout, s, d)
  {
    var es :| Leads(timeout, Anything, INIT, es, s);
    LedgerRun(timeout, INIT, es, s, d);
  }

  /** In every reachable state: the queue is the end of the log. */
  lemma QueueIsTail(timeout: nat, s: State, d: Id)
    requires Reachable(timeout, Anything, s)
    ensures 0 <= Gone(s, d) && Queue(s, d) == SeqAt(s.log, d)[Gone(s, d)..]
    ensures QueuedBy(SeqAt(s.log, d), d, s.clock)
  {
    ReachableConsistent(timeout, s, d);
  }

  /** In every reachable state: what a task is about to do is justified. */
  lemma TaskJustified(timeout: nat, s: State, t: Task)
    requires Reachable(timeout, Anything, s) && t in s.tasks
    ensures PhaseOk(timeout, ViewOf(s, Target(s.tasks[t])), s.tasks[t])
  {
    ReachableConsistent(timeout, s, Target(s.tasks[t]));
  }

  /** In every reachable state: what has left a queue was a stretch of the log, dealt with
      as its fate says. */
  lemma ChunkJustified(timeout: nat, s: State, d: Id, c: Chunk)
    requires Reachable(timeout, Anything, s) && c in SeqAt(s.past, d)
    ensures ChunkOk(timeout, ViewOf(s, d), c)
  {
    ReachableConsistent(timeout, s, d);
    var i :| 0 <= i < |SeqAt(s.past, d)| && SeqAt(s.past, d)[i] == c;
  }
}
