/** What became of the messages that left an offline queue, and when: deliveries received,
    expiries notified once and never early unless queued behind the sweep's back, and
    exactly what a drain drops unread. */
module QueueFates {
  import opened Identifiers
  import opened OfflineQueue
  import opened QueueLedger

  // ---------------------------------------------------------------- notices

  lemma SeenKeyInjective(a: Id, b: Id, d: Id)
    ensures SeenKey(a, d) == SeenKey(b, d) <==> a == b
  {
    var k, l := SeenKey(a, d), SeenKey(b, d);
    if k == l {
      assert a.name == k[..|k| - 1 - |d.name|] && b.name == l[..|l| - 1 - |d.name|];
    }
  }

  predicate Sent(ms: seq<Msg>, x: Id) {
    exists i :: 0 <= i < |ms| && ms[i].src == x
  }

  lemma SentCons(ms: seq<Msg>, x: Id)
    requires ms != []
    ensures Sent(ms, x) <==> ms[0].src == x || Sent(ms[1..], x)
  {
    if Sent(ms[1..], x) {
      var i :| 0 <= i < |ms[1..]| && ms[1..][i].src == x;
      assert ms[i + 1].src == x;
    }
    if Sent(ms, x) && ms[0].src != x {
      var i :| 0 <= i < |ms| && ms[i].src == x;
      assert ms[1..][i - 1].src == x;
    }
  }

  /** On a queue whose messages all have the same destination, the ambiguous key is safe:
      each online sender not seen before gets exactly one notice, and nobody else any. */
  lemma {:induction false} NoticesOnce(online: set<Id>, ms: seq<Msg>, seen: set<string>, d: Id, x: Id, y: Id)
    requires forall i :: 0 <= i < |ms| ==> ms[i].dst == d
    ensures multiset(Notices(online, ms, seen))[(x, y)]
         == if y == d && x in online && SeenKey(x, d) !in seen && Sent(ms, x) then 1 else 0
  {
    if ms != [] {
      var src, rest := ms[0].src, ms[1..];
      SeenKeyInjective(src, x, d);
      SentCons(ms, x);
      var key := SeenKey(src, d);
      NoticesOnce(online, rest, if key in seen then seen else seen + {key}, d, x, y);
    }
  }

  /** On a list with several destinations the key would be wrong: "a_b" to "c" hides "a" to "b_c". */
  lemma KeyIsAmbiguous()
    ensures var ms := [Msg(Signal, Id("a_b"), Id("c"), ""), Msg(Signal, Id("a"), Id("b_c"), "")];
      Notices({Id("a_b"), Id("a")}, ms, {}) == [(Id("a_b"), Id("c"))]
  {
    var ms := [Msg(Signal, Id("a_b"), Id("c"), ""), Msg(Signal, Id("a"), Id("b_c"), "")];
    assert SeenKey(Id("a_b"), Id("c")) == "a_b_c" == SeenKey(Id("a"), Id("b_c"));
    var online := {Id("a_b"), Id("a")};
    assert ms[1..] == [ms[1]] && ms[1..][1..] == [];
    assert Notices(online, ms[1..], {} + {"a_b_c"}) == [];
  }

  lemma ReadNoticesOnce(log: seq<Item>, d: Id, stamp: int, lo: int, hi: int, online: set<Id>, x: Id, y: Id)
    requires QueuedBy(log, d, stamp) && 0 <= lo <= hi <= |log|
    ensures multiset(Notices(online, Msgs(log[lo..hi]), {}))[(x, y)]
         == if y == d && x in online && Sent(Msgs(log[lo..hi]), x) then 1 else 0
  {
    NoticesOnce(online, Msgs(log[lo..hi]), {}, d, x, y);
  }

  lemma ReadIsLogged(timeout: nat, s: State, t: Task)
    requires Reachable(timeout, Anything, s) && t in s.tasks && s.tasks[t].Sending?
    ensures var p := s.tasks[t];
      0 <= p.lo && p.lo + |p.batch| <= |SeqAt(s.log, p.d)| && p.batch == SeqAt(s.log, p.d)[p.lo..p.lo + |p.batch|]
  {
    TaskJustified(timeout, s, t);
  }

  lemma BatchNoticesOnce(log: seq<Item>, d: Id, stamp: int, lo: int, batch: seq<Item>, online: set<Id>, x: Id, y: Id)
    requires QueuedBy(log, d, stamp) && 0 <= lo && lo + |batch| <= |log| && batch == log[lo..lo + |batch|]
    ensures multiset(Notices(online, Msgs(batch), {}))[(x, y)]
         == if y == d && x in online && Sent(Msgs(batch), x) then 1 else 0
  {
    ReadNoticesOnce(log, d, stamp, lo, lo + |batch|, online, x, y);
  }

  /** One sweep of one queue, in any reachable state: one EXPIRE per distinct online sender
      of what it read, whatever has happened to the queue since. */
  lemma SweepNotifiesOnce(timeout: nat, s: State, t: Task, p: Phase, x: Id, y: Id)
    requires Reachable(timeout, Anything, s) && t in s.tasks && s.tasks[t] == p && p.Sending? && p.why.ToExpire?
    ensures Step(timeout, s, Send(t, 0)).expires == s.expires + Notices(s.online, Msgs(p.batch), {})
    ensures multiset(Notices(s.online, Msgs(p.batch), {}))[(x, y)]
         == if y == p.d && x in s.online && Sent(Msgs(p.batch), x) then 1 else 0
  {
    QueueIsTail(timeout, s, p.d);
    ReadIsLogged(timeout, s, t);
    BatchNoticesOnce(SeqAt(s.log, p.d), p.d, s.clock, p.lo, p.batch, s.online, x, y);
  }

  // ---------------------------------------------------------------- the keys

  function StampOf(r: Redis, d: Id): Option<int> {
    if d in r.meta then Some(r.meta[d]) else None
  }

  /** What the three operations leave in the queue and the stamp of every peer: a push appends and
      stamps, a touch stamps only, a clear leaves neither. */
  lemma KeysLaw(r: Redis, m: Msg, d: Id, now: int, x: Id)
    ensures SeqAt(Pushed(r, m, now).queues, x) == SeqAt(r.queues, x) + if x == m.dst then [Item(m, now)] else []
    ensures StampOf(Pushed(r, m, now), x) == if x == m.dst then Some(now) else StampOf(r, x)
    ensures SeqAt(Touched(r, d, now).queues, x) == SeqAt(r.queues, x)
    ensures StampOf(Touched(r, d, now), x) == if x == d then Some(now) else StampOf(r, x)
    ensures SeqAt(Cleared(r, d).queues, x) == if x == d then [] else SeqAt(r.queues, x)
    ensures StampOf(Cleared(r, d), x) == if x == d then None else StampOf(r, x)
  {
  }

  /** A read holds the whole queue and leaves it in place; a delivery with nothing to deliver is over. */
  lemma ReadLaw(s: State, t: Task, d: Id, why: Purpose)
    ensures var s' := ReadAll(s, t, d, why);
      && s'.redis == s.redis
      && (why.ToDeliver? && Queue(s, d) == [] ==> t !in s'.tasks)
      && (why.ToExpire? || Queue(s, d) != [] ==>
          t in s'.tasks && s'.tasks[t].Sending? && s'.tasks[t].d == d && s'.tasks[t].batch == Queue(s, d))
  {
  }

  // ---------------------------------------------------------------- what is queued at all

  /** A message for a peer with a sender goes straight out; for one without it is queued if it
      is neither LEAVE nor EXPIRE, and dropped if it is. */
  lemma TransmitLaw(s: State, t: Task, m: Msg)
    ensures var s' := Transmit(s, t, m);
      && s'.redis == s.redis && s'.log == s.log && s'.online == s.online && s'.expires == s.expires
      && (m.dst in s.online ==>
          && SeqAt(s'.received, m.dst) == SeqAt(s.received, m.dst) + [Receipt(m, -1)] && s'.tasks == s.tasks
          && forall d :: d != m.dst ==> SeqAt(s'.received, d) == SeqAt(s.received, d))
      && (m.dst !in s.online && m.kind.LeaveOrExpire? ==> s' == s)
      && (m.dst !in s.online && m.kind.Signal? ==> s' == s.(tasks := s.tasks[t := Queueing(m)]))
  {
  }

  ghost predicate AllSignals(q: seq<Item>) {
    forall i :: 0 <= i < |q| ==> q[i].msg.kind.Signal?
  }

  /** LEAVE and EXPIRE are neither in a queue nor on their way to one. */
  ghost predicate SignalsOnly(s: State) {
    && (forall t :: t in s.tasks && s.tasks[t].Queueing? ==> s.tasks[t].m.kind.Signal?)
    && (forall d :: AllSignals(SeqAt(s.log, d)))
  }

  lemma SignalsOnlyStep(timeout: nat, s: State, e: Event)
    requires SignalsOnly(s) && Enabled(s, e)
    ensures SignalsOnly(Step(timeout, s, e))
  {
    var s' := Step(timeout, s, e);
    forall t | t in s'.tasks && s'.tasks[t].Queueing? ensures s'.tasks[t].m.kind.Signal? {
      if e.Tick? || e.Drop? || e.t != t {
        OtherTaskStays(timeout, s, e, t);
      }
    }
    forall d ensures AllSignals(SeqAt(s'.log, d)) {
      assert AllSignals(SeqAt(s.log, d));
    }
  }

  /** In every run nothing but signals is ever queued. */
  lemma {:induction false} SignalsOnlyRun(timeout: nat, s: State, es: seq<Event>, t: State)
    requires Leads(timeout, Anything, s, es, t) && SignalsOnly(s)
    ensures SignalsOnly(t)
    decreases |es|
  {
    if es != [] {
      SignalsOnlyStep(timeout, s, es[0]);
      SignalsOnlyRun(timeout, Step(timeout, s, es[0]), es[1..], t);
    }
  }

  /** Who has a sender changes by registration, eviction and loss only. */
  lemma OnlineLaw(timeout: nat, s: State, e: Event, d: Id)
    requires Enabled(s, e)
    ensures d in Step(timeout, s, e).online
       <==> (e.Register? && e.d == d) || (d in s.online && !((e.Evict? || e.Drop?) && e.d == d))
  {
  }

  /** The sweep goes on exactly if the queue's stamp, or zero without one, is the timeout old. */
  lemma SweepGoesOnIff(timeout: nat, s: State, t: Task, d: Id, now: int)
    requires t !in s.tasks
    ensures t in TestAge(timeout, s, t, d, now).tasks
       <==> now - (if d in s.redis.meta then s.redis.meta[d] else 0) >= timeout
    ensures var s' := TestAge(timeout, s, t, d, now);
      && s' == s.(tasks := s'.tasks)
      && (t in s'.tasks ==>
          && s'.tasks[t].Touching? && s'.tasks[t].d == d && s'.tasks[t].why.ToExpire?
          && s'.tasks[t].why.test.now == now && s'.tasks[t].why.test.mark == |SeqAt(s.log, d)|)
  {
  }

  // ---------------------------------------------------------------- what became of a chunk

  /** In every run: what a delivery sent before its channel broke is in what the peer received,
      as the message of that position in the log. */
  lemma DeliveredIsReceived(timeout: nat, s: State, d: Id, c: Chunk, j: nat)
    requires Reachable(timeout, Anything, s) && c in SeqAt(s.past, d) && c.fate.Delivered?
    requires j < |c.items| && c.start + j < c.fate.mid
    ensures var at := c.fate.pos + (c.start + j - c.fate.lo);
      0 <= at < |SeqAt(s.received, d)| && SeqAt(s.received, d)[at] == Receipt(c.items[j].msg, c.start + j)
  {
    ChunkJustified(timeout, s, d, c);
    var f, rec, log := c.fate, SeqAt(s.received, d), SeqAt(s.log, d);
    var sent := rec[f.pos..f.pos + f.mid - f.lo];
    assert sent == Receipts(log[f.lo..f.mid], f.lo);
    assert sent[c.start + j - f.lo] == Receipt(log[c.start + j].msg, c.start + j);
  }

  /** Chunks from the queue are stretches of the log one after another. */
  ghost predicate Apart(past: seq<Chunk>) {
    forall i, j :: 0 <= i < j < |past| && !past[i].fate.Forwarded? && !past[j].fate.Forwarded? ==>
      past[i].start + |past[i].items| <= past[j].start
  }

  lemma ApartSnoc(past: seq<Chunk>, c: Chunk)
    requires Apart(past)
    requires c.fate.Forwarded? ||
      forall i :: 0 <= i < |past| && !past[i].fate.Forwarded? ==> past[i].start + |past[i].items| <= c.start
    ensures Apart(past + [c])
  {
  }

  lemma ApartCleared(timeout: nat, s: State, d: Id, fate: Fate)
    requires Consistent(timeout, s, d) && Apart(SeqAt(s.past, d))
    ensures Apart(SeqAt(s.past, d) + [Chunk(Gone(s, d), Queue(s, d), fate)])
  {
    var past := SeqAt(s.past, d);
    forall i | 0 <= i < |past| && !past[i].fate.Forwarded? ensures past[i].start + |past[i].items| <= Gone(s, d) {
      assert ChunkOk(timeout, ViewOf(s, d), past[i]);
    }
    ApartSnoc(past, Chunk(Gone(s, d), Queue(s, d), fate));
  }

  lemma ApartStep(timeout: nat, s: State, e: Event, d: Id)
    requires Consistent(timeout, s, d) && Apart(SeqAt(s.past, d)) && Enabled(s, e)
    ensures Apart(SeqAt(Step(timeout, s, e).past, d))
  {
    if e.Clear? && s.tasks[e.t].d == d {
      ApartCleared(timeout, s, d, s.tasks[e.t].fate);
    } else if e.Lookup? && e.m.dst == d && d in s.online {
      ApartSnoc(SeqAt(s.past, d), Chunk(0, [Item(e.m, s.clock)], Forwarded));
    } else {
      assert SeqAt(Step(timeout, s, e).past, d) == SeqAt(s.past, d);
    }
  }

  lemma {:induction false} ApartRun(timeout: nat, s: State, es: seq<Event>, t: State, d: Id)
    requires Leads(timeout, Anything, s, es, t) && Consistent(timeout, s, d) && Apart(SeqAt(s.past, d))
    ensures Apart(SeqAt(t.past, d))
    decreases |es|
  {
    if es != [] {
      ApartStep(timeout, s, es[0], d);
      ConsistentStep(timeout, s, es[0], d);
      ApartRun(timeout, Step(timeout, s, es[0]), es[1..], t, d);
    }
  }

  /** Delivered messages have places of their own: those of different chunks, and different
      ones of a chunk, are received at different places. */
  lemma DeliveredPlacesDiffer(timeout: nat, s: State, d: Id, i: nat, a: nat, j: nat, b: nat)
    requires Reachable(timeout, Anything, s) && i < |SeqAt(s.past, d)| && j < |SeqAt(s.past, d)| && (i != j || a != b)
    requires var c := SeqAt(s.past, d)[i]; c.fate.Delivered? && a < |c.items| && c.start + a < c.fate.mid
    requires var c := SeqAt(s.past, d)[j]; c.fate.Delivered? && b < |c.items| && c.start + b < c.fate.mid
    ensures var c, c' := SeqAt(s.past, d)[i], SeqAt(s.past, d)[j];
      c.fate.pos + (c.start + a - c.fate.lo) != c'.fate.pos + (c'.start + b - c'.fate.lo)
  {
    var c, c' := SeqAt(s.past, d)[i], SeqAt(s.past, d)[j];
    var es :| Leads(timeout, Anything, INIT, es, s);
    ApartRun(timeout, INIT, es, s, d);
    assert c.start + a != c'.start + b;
    DeliveredIsReceived(timeout, s, d, c, a);
    DeliveredIsReceived(timeout, s, d, c', b);
  }

  lemma ExpiredFacts(timeout: nat, s: State, d: Id, c: Chunk)
    requires Reachable(timeout, Anything, s) && c in SeqAt(s.past, d) && c.fate.Expired?
    ensures var f, log := c.fate, SeqAt(s.log, d);
      && 0 <= f.lo <= f.hi <= |log| && 0 <= f.pos <= f.upto <= |s.expires|
      && f.lo <= c.start && c.start + |c.items| <= |log| && c.items == log[c.start..c.start + |c.items|]
      && s.expires[f.pos..f.upto] == Notices(f.online, Msgs(log[f.lo..f.hi]), {})
  {
    ChunkJustified(timeout, s, d, c);
  }

  /** In every run: the notices of a sweep are one for each sender, online at the time, of
      what it read, all about this peer. */
  lemma ExpiredIsNotified(timeout: nat, s: State, d: Id, c: Chunk, x: Id, y: Id)
    requires Reachable(timeout, Anything, s) && c in SeqAt(s.past, d) && c.fate.Expired?
    ensures var f := c.fate;
      && 0 <= f.pos <= f.upto <= |s.expires| && 0 <= f.lo <= f.hi <= |SeqAt(s.log, d)|
      && multiset(s.expires[f.pos..f.upto])[(x, y)]
         == (if y == d && x in f.online && Sent(Msgs(SeqAt(s.log, d)[f.lo..f.hi]), x) then 1 else 0)
  {
    ExpiredFacts(timeout, s, d, c);
    QueueIsTail(timeout, s, d);
    ReadNoticesOnce(SeqAt(s.log, d), d, s.clock, c.fate.lo, c.fate.hi, c.fate.online, x, y);
  }

  /** So whoever sent an expired message that the sweep read, and was online then, was told once. */
  lemma ExpiredSenderToldOnce(timeout: nat, s: State, d: Id, c: Chunk, j: nat)
    requires Reachable(timeout, Anything, s) && c in SeqAt(s.past, d) && c.fate.Expired?
    requires j < |c.items| && c.start + j < c.fate.hi && c.items[j].msg.src in c.fate.online
    ensures 0 <= c.fate.pos <= c.fate.upto <= |s.expires|
    ensures multiset(s.expires[c.fate.pos..c.fate.upto])[(c.items[j].msg.src, d)] == 1
  {
    ExpiredFacts(timeout, s, d, c);
    ExpiredIsNotified(timeout, s, d, c, c.items[j].msg.src, d);
    SentWithin(SeqAt(s.log, d), c.fate.lo, c.fate.hi, c.start + j);
    assert c.items[j] == SeqAt(s.log, d)[c.start + j];
  }

  lemma SentWithin(log: seq<Item>, lo: int, hi: int, i: int)
    requires 0 <= lo <= i < hi <= |log|
    ensures Sent(Msgs(log[lo..hi]), log[i].msg.src)
  {
    assert Msgs(log[lo..hi])[i - lo] == log[i].msg;
  }

  /** What a sweep expires has spent the timeout in the queue, by the sweep's clock,
      exactly if it was queued before the sweep's age test; the rest has spent no time at all. */
  lemma AgedIffQueuedBeforeCheck(timeout: nat, s: State, d: Id, c: Chunk, j: nat)
    requires Reachable(timeout, Anything, s) && c in SeqAt(s.past, d) && c.fate.Expired? && j < |c.items|
    ensures c.start + j < c.fate.test.mark ==> c.fate.test.now - c.items[j].at >= timeout
    ensures c.start + j >= c.fate.test.mark ==> c.items[j].at >= c.fate.test.now
    ensures timeout > 0 ==> (c.fate.test.now - c.items[j].at >= timeout <==> c.start + j < c.fate.test.mark)
  {
    ChunkJustified(timeout, s, d, c);
    assert c.items[j] == SeqAt(s.log, d)[c.start + j];
  }

  lemma TailAgedIff(timeout: nat, v: View, test: AgeTest)
    requires TestOk(timeout, v, test) && timeout > 0 && v.gone <= |v.log|
    ensures (forall i :: v.gone <= i < |v.log| ==> test.now - v.log[i].at >= timeout)
       <==> |v.log| == test.mark || v.gone == |v.log|
  {
    assert |v.log| > test.mark ==> v.log[|v.log| - 1].at >= test.now;
  }

  /** The same before the clear: it expires nothing early exactly if nothing was queued for
      the peer since the sweep's age test, or the queue is empty by now. */
  lemma ClearExpiresNothingEarlyIff(timeout: nat, s: State, t: Task)
    requires Reachable(timeout, Anything, s) && Enabled(s, Clear(t)) && s.tasks[t].fate.Expired? && timeout > 0
    ensures var d, test := s.tasks[t].d, s.tasks[t].fate.test;
      && 0 <= Gone(s, d)
      && ((forall i :: Gone(s, d) <= i < |SeqAt(s.log, d)| ==> test.now - SeqAt(s.log, d)[i].at >= timeout)
          <==> |SeqAt(s.log, d)| == test.mark || Queue(s, d) == [])
  {
    var d, test := s.tasks[t].d, s.tasks[t].fate.test;
    TaskJustified(timeout, s, t);
    QueueIsTail(timeout, s, d);
    TailAgedIff(timeout, ViewOf(s, d), test);
  }

  // ---------------------------------------------------------------- what a drain drops unread

  /** Up to where in the log a drain has read; -1 before its read. */
  function ReadUpTo(p: Phase): int {
    match p
    case Sending(_, _, lo, batch) => lo + |batch|
    case Clearing(_, Delivered(_, _, hi, _)) => hi
    case Clearing(_, Expired(_, _, hi, _, _, _)) => hi
    case _ => -1
  }

  /** Task `t` has read `d`'s queue as it was in `s`, and nobody has cleared it since. */
  ghost predicate Holds(s: State, u: State, t: Task, d: Id) {
    && t in u.tasks && Target(u.tasks[t]) == d && ReadUpTo(u.tasks[t]) == |SeqAt(s.log, d)|
    && Gone(u, d) == Gone(s, d) && SeqAt(s.log, d) <= SeqAt(u.log, d)
  }

  /** `e` does not clear `d`'s queue. */
  predicate KeepsQueue(d: Id, s: State, e: Event) {
    e.Clear? && e.t in s.tasks && s.tasks[e.t].Clearing? ==> s.tasks[e.t].d != d
  }

  lemma PushKeeps(u: State, x: Task, m: Msg, d: Id)
    ensures var u' := Enqueue(u, x, m); Gone(u', d) == Gone(u, d) && SeqAt(u.log, d) <= SeqAt(u'.log, d)
  {
    var u' := Enqueue(u, x, m);
    if m.dst != d {
      assert Queue(u', d) == Queue(u, d);
    }
  }

  lemma ClearKeeps(u: State, t: Task, x: Id, fate: Fate, d: Id)
    requires x != d
    ensures var u' := ClearQueue(u, t, x, fate); Gone(u', d) == Gone(u, d) && u'.log == u.log
  {
    assert Queue(ClearQueue(u, t, x, fate), d) == Queue(u, d);
  }

  lemma QueueKeeps(timeout: nat, u: State, e: Event, d: Id)
    requires Enabled(u, e) && KeepsQueue(d, u, e)
    ensures var u' := Step(timeout, u, e); Gone(u', d) == Gone(u, d) && SeqAt(u.log, d) <= SeqAt(u'.log, d)
  {
    if e.Push? {
      PushKeeps(u, e.t, u.tasks[e.t].m, d);
    } else if e.Clear? {
      ClearKeeps(u, e.t, u.tasks[e.t].d, u.tasks[e.t].fate, d);
    } else {
      assert Step(timeout, u, e).log == u.log && Step(timeout, u, e).redis.queues == u.redis.queues;
    }
  }

  /** A drain past its read keeps what it read, whoever moves; only its clear ends it. */
  lemma TaskKeeps(timeout: nat, u: State, e: Event, t: Task)
    requires Enabled(u, e) && t in u.tasks && ReadUpTo(u.tasks[t]) >= 0 && !(e.Clear? && e.t == t)
    ensures var u' := Step(timeout, u, e);
      && t in u'.tasks && Target(u'.tasks[t]) == Target(u.tasks[t]) && ReadUpTo(u'.tasks[t]) == ReadUpTo(u.tasks[t])
  {
    if e.Send? && e.t == t {
      var p := u.tasks[t];
      assert Step(timeout, u, e).tasks[t].Clearing?;
    } else if e.Send? || e.Lookup? || e.List? || e.Check? {
      assert Step(timeout, u, e).tasks[t] == u.tasks[t];
    }
  }

  lemma HoldsStep(timeout: nat, s: State, u: State, e: Event, t: Task, d: Id)
    requires Holds(s, u, t, d) && Enabled(u, e) && KeepsQueue(d, u, e)
    ensures Holds(s, Step(timeout, u, e), t, d)
  {
    QueueKeeps(timeout, u, e, d);
    TaskKeeps(timeout, u, e, t);
  }

  lemma {:induction false} HoldsRun(timeout: nat, s: State, u: State, es: seq<Event>, w: State, t: Task, d: Id)
    requires Holds(s, u, t, d) && Leads(timeout, (x, e) => KeepsQueue(d, x, e), u, es, w)
    ensures Holds(s, w, t, d)
    decreases |es|
  {
    if es != [] {
      HoldsStep(timeout, s, u, es[0], t, d);
      HoldsRun(timeout, s, Step(timeout, u, es[0]), es[1..], w, t, d);
    }
  }

  lemma ReadHolds(timeout: nat, s: State, t: Task, d: Id)
    requires Reachable(timeout, Anything, s) && Enabled(s, List(t)) && s.tasks[t].d == d
    requires t in Step(timeout, s, List(t)).tasks
    ensures Holds(s, Step(timeout, s, List(t)), t, d)
  {
  }

  lemma HeldClear(timeout: nat, s: State, t: Task, u: State, d: Id)
    requires Reachable(timeout, Anything, s) && Reachable(timeout, Anything, u)
    requires Holds(s, u, t, d) && Enabled(u, Clear(t))
    ensures SeqAt(ClearQueue(u, t, d, u.tasks[t].fate).past, d) == SeqAt(u.past, d)
         + [Chunk(Gone(s, d), Queue(s, d) + SeqAt(u.log, d)[|SeqAt(s.log, d)|..], u.tasks[t].fate)]
  {
    QueueIsTail(timeout, s, d);
    QueueIsTail(timeout, u, d);
    TailSplits(SeqAt(s.log, d), SeqAt(u.log, d), Gone(s, d));
  }

  /** The drain `t` reads its queue in `s` and, other drains keeping away, clears it in `u`.
      What it clears is what it read followed by exactly what was queued in between: that part
      is dropped unread, and there is none iff nothing was queued. */
  lemma DrainDropsExactly(timeout: nat, s: State, t: Task, es: seq<Event>, u: State, d: Id)
    requires Reachable(timeout, Anything, s) && Enabled(s, List(t)) && s.tasks[t].d == d
    requires t in Step(timeout, s, List(t)).tasks
    requires Leads(timeout, (x, e) => KeepsQueue(d, x, e), Step(timeout, s, List(t)), es, u) && Enabled(u, Clear(t))
    ensures SeqAt(s.log, d) <= SeqAt(u.log, d) && ReadUpTo(u.tasks[t]) == |SeqAt(s.log, d)|
    ensures SeqAt(Step(timeout, u, Clear(t)).past, d) == SeqAt(u.past, d)
         + [Chunk(Gone(s, d), Queue(s, d) + SeqAt(u.log, d)[|SeqAt(s.log, d)|..], u.tasks[t].fate)]
  {
    var s1 := Step(timeout, s, List(t));
    ReadHolds(timeout, s, t, d);
    HoldsRun(timeout, s, s1, es, u, t, d);
    ReachStep(timeout, Anything, s, List(t), s1);
    ReachRun(timeout, (x, e) => KeepsQueue(d, x, e), s1, es, u);
    HeldClear(timeout, s, t, u, d);
  }

  lemma TailSplits<T>(a: seq<T>, b: seq<T>, n: int)
    requires a <= b && 0 <= n <= |a|
    ensures b[n..] == a[n..] + b[|a|..]
  {
  }

  lemma {:induction false} ReachRun(timeout: nat, P: (State, Event) -> bool, s: State, es: seq<Event>, t: State)
    requires Reachable(timeout, Anything, s) && Leads(timeout, P, s, es, t)
    ensures Reachable(timeout, Anything, t)
    decreases |es|
  {
    if es != [] {
      ReachStep(timeout, Anything, s, es[0], Step(timeout, s, es[0]));
      ReachRun(timeout, P, Step(timeout, s, es[0]), es[1..], t);
    }
  }
}
