/** Conservation when the tasks of one peer do not overlap: every message accepted for it is
    received, queued, expired, evicted, or cut off by a connection that broke during its
    delivery; in order, once, and nothing expires early.  Other peers' tasks interleave freely. */
module QueueDelivery {
  import opened Identifiers
  import opened OfflineQueue
  import opened QueueLedger
  import opened QueueFates

  /** Nothing is under way for `d`. */
  ghost predicate Idle(s: State, d: Id) {
    forall t :: t in s.tasks ==> Target(s.tasks[t]) != d
  }

  predicate Begins(e: Event) { e.Lookup? || e.Register? || e.Check? || e.Evict? }

  /** The tasks of `d` run one at a time. */
  ghost predicate Serial(d: Id, s: State, e: Event) {
    Enabled(s, e) && Begins(e) && About(s, e) == Some(d) ==> Idle(s, d)
  }

  ghost function SerialFor(d: Id): (State, Event) -> bool { (s, e) => Serial(d, s, e) }

  // ---------------------------------------------------------------- parts of a chunk

  /** How much of a delivered chunk went out. */
  function Reach(c: Chunk): nat
    requires c.fate.Delivered?
  {
    var n := c.fate.mid - c.start;
    if n <= 0 then 0 else if n >= |c.items| then |c.items| else n
  }

  function Whole(c: Chunk): seq<Item> { c.items }

  /** What the peer got. */
  function Out(c: Chunk): seq<Item> {
    match c.fate
    case Forwarded => c.items
    case Delivered(_, _, _, _) => c.items[..Reach(c)]
    case _ => []
  }

  /** What was cleared although the channel had broken before it went out. */
  function CutOff(c: Chunk): seq<Item> { if c.fate.Delivered? then c.items[Reach(c)..] else [] }

  function Lapsed(c: Chunk): seq<Item> { if c.fate.Expired? then c.items else [] }

  function Thrown(c: Chunk): seq<Item> { if c.fate.Evicted? then c.items else [] }

  /** The messages received. */
  function Heard(rec: seq<Receipt>): seq<Msg> { seq(|rec|, i requires 0 <= i < |rec| => rec[i].msg) }

  lemma HeardMore(rec: seq<Receipt>, q: seq<Item>, lo: int)
    ensures Heard(rec + Receipts(q, lo)) == Heard(rec) + Msgs(q)
  {
  }

  lemma MsgsConcat(a: seq<Item>, b: seq<Item>)
    ensures Msgs(a + b) == Msgs(a) + Msgs(b)
  {
  }

  lemma PickedChunk(cs: seq<Chunk>, c: Chunk, part: Chunk -> seq<Item>)
    ensures Msgs(Picked(cs + [c], part)) == Msgs(Picked(cs, part)) + Msgs(part(c))
  {
    PickedSnoc(cs, c, part);
    MsgsConcat(Picked(cs, part), part(c));
  }

  // ---------------------------------------------------------------- one peer's books

  /** `n` is how many messages were ever queued. */
  datatype Book = Book(acc: seq<Msg>, rec: seq<Msg>, q: seq<Item>, n: nat, past: seq<Chunk>, online: bool)

  function BookOf(s: State, d: Id): Book {
    Book(SeqAt(s.accepted, d), Heard(SeqAt(s.received, d)), Queue(s, d), |SeqAt(s.log, d)|, SeqAt(s.past, d),
         d in s.online)
  }

  /** The phase is one of a delivery. */
  predicate Delivering(b: Option<Phase>) {
    && b.Some? && !b.value.Queueing?
    && if b.value.Clearing? then b.value.fate.Delivered? else b.value.why.ToDeliver?
  }

  /** What has gone out of a queue that is still to be cleared. */
  function UnderWay(k: Book, b: Option<Phase>): seq<Item> {
    match b
    case Some(Clearing(_, Delivered(lo, mid, _, _))) => if 0 <= mid - lo <= |k.q| then k.q[..mid - lo] else []
    case _ => []
  }

  predicate PurposeFits(k: Book, why: Purpose) {
    why.ToExpire? ==> why.test.mark == k.n
  }

  /** Nothing has been queued since the task tested, or read. */
  predicate PhaseFits(k: Book, p: Phase) {
    match p
    case Queueing(m) => !k.online
    case Touching(_, why) => PurposeFits(k, why)
    case Listing(_, why) => PurposeFits(k, why)
    case Sending(_, why, lo, batch) => PurposeFits(k, why) && batch == k.q && lo + |batch| == k.n
    case Clearing(_, Delivered(lo, mid, hi, _)) => lo <= mid <= hi == k.n && lo + |k.q| == k.n
    case Clearing(_, Expired(test, _, hi, _, _, _)) => test.mark == hi == k.n
    case Clearing(_, Evicted) => true
    case Clearing(_, Forwarded) => false
  }

  /** The drain read the whole chunk, and a sweep tested its age. */
  predicate ChunkFits(c: Chunk) {
    match c.fate
    case Delivered(lo, mid, hi, _) => c.start == lo <= mid <= hi == c.start + |c.items|
    case Expired(test, _, hi, _, _, _) => c.start + |c.items| <= hi && c.start + |c.items| <= test.mark
    case _ => true
  }

  ghost predicate AllFit(past: seq<Chunk>) {
    forall i :: 0 <= i < |past| ==> ChunkFits(past[i])
  }

  /** The books balance; `b` is the peer's task, if it has one. */
  ghost predicate Balanced(k: Book, b: Option<Phase>) {
    && k.acc == Msgs(Picked(k.past, Whole)) + Msgs(k.q)
    && k.rec == Msgs(Picked(k.past, Out)) + Msgs(UnderWay(k, b))
    && (k.online && !Delivering(b) ==> k.q == [])
    && (b.Some? ==> PhaseFits(k, b.value))
    && AllFit(k.past)
  }

  lemma ForwardBalanced(k: Book, m: Msg, at: int)
    requires Balanced(k, None) && k.online
    ensures Balanced(k.(acc := k.acc + [m], rec := k.rec + [m],
                        past := k.past + [Chunk(0, [Item(m, at)], Forwarded)]), None)
  {
    var c := Chunk(0, [Item(m, at)], Forwarded);
    PickedChunk(k.past, c, Whole);
    PickedChunk(k.past, c, Out);
    assert Msgs(c.items) == [m] && Msgs([]) == [];
  }

  lemma PushBalanced(k: Book, m: Msg, at: int)
    requires Balanced(k, Some(Queueing(m)))
    ensures Balanced(k.(acc := k.acc + [m], q := k.q + [Item(m, at)], n := k.n + 1), None)
  {
    MsgsConcat(k.q, [Item(m, at)]);
    assert Msgs([Item(m, at)]) == [m];
  }

  lemma StartBalanced(k: Book, online: bool, p: Phase)
    requires Balanced(k, None) && PhaseFits(k.(online := online), p) && !p.Sending?
    requires online ==> k.online || (p.Touching? && p.why.ToDeliver?)
    requires p.Clearing? ==> p.fate.Evicted?
    ensures Balanced(k.(online := online), Some(p))
  {
  }

  lemma ReadBalanced(k: Book, d: Id, why: Purpose, lo: int, batch: seq<Item>)
    requires Balanced(k, Some(Listing(d, why))) && batch == k.q && lo == k.n - |k.q|
    ensures Balanced(k, Some(Sending(d, why, lo, batch)))
    ensures k.q == [] ==> Balanced(k, None)
  {
  }

  lemma DeliverBalanced(k: Book, d: Id, lo: int, batch: seq<Item>, n: nat, pos: int)
    requires Balanced(k, Some(Sending(d, ToDeliver, lo, batch))) && n <= |batch|
    ensures Balanced(k.(rec := k.rec + Msgs(batch[..n])),
                     Some(Clearing(d, Delivered(lo, lo + n, lo + |batch|, pos))))
  {
    assert Msgs([]) == [];
  }

  lemma NotifyBalanced(k: Book, d: Id, test: AgeTest, lo: int, batch: seq<Item>, pos: int, upto: int, online: set<Id>)
    requires Balanced(k, Some(Sending(d, ToExpire(test), lo, batch)))
    ensures Balanced(k, Some(Clearing(d, Expired(test, lo, lo + |batch|, pos, upto, online))))
  {
  }

  lemma FitSnoc(cs: seq<Chunk>, c: Chunk)
    requires AllFit(cs) && ChunkFits(c)
    ensures AllFit(cs + [c])
  {
  }

  lemma ClearedAccepted(acc: seq<Msg>, past: seq<Chunk>, q: seq<Item>, c: Chunk)
    requires acc == Msgs(Picked(past, Whole)) + Msgs(q) && c.items == q
    ensures acc == Msgs(Picked(past + [c], Whole)) + Msgs([])
  {
    PickedChunk(past, c, Whole);
  }

  lemma ClearedReceived(rec: seq<Msg>, past: seq<Chunk>, went: seq<Item>, c: Chunk)
    requires rec == Msgs(Picked(past, Out)) + Msgs(went) && Out(c) == went
    ensures rec == Msgs(Picked(past + [c], Out)) + Msgs([])
  {
    PickedChunk(past, c, Out);
  }

  lemma ClearedFits(k: Book, d: Id, fate: Fate)
    requires PhaseFits(k, Clearing(d, fate))
    ensures var c := Chunk(k.n - |k.q|, k.q, fate);
      ChunkFits(c) && Out(c) == UnderWay(k, Some(Clearing(d, fate)))
  {
  }

  /** The books after the clear. */
  function AfterClear(k: Book, fate: Fate): Book {
    k.(q := [], past := k.past + [Chunk(k.n - |k.q|, k.q, fate)])
  }

  lemma EmptyBalanced(acc: seq<Msg>, rec: seq<Msg>, n: nat, past: seq<Chunk>, online: bool)
    requires acc == Msgs(Picked(past, Whole)) + Msgs([]) && rec == Msgs(Picked(past, Out)) + Msgs([]) && AllFit(past)
    ensures Balanced(Book(acc, rec, [], n, past, online), None)
  {
  }

  lemma BalancedParts(k: Book, b: Option<Phase>)
    requires Balanced(k, b) && b.Some?
    ensures k.acc == Msgs(Picked(k.past, Whole)) + Msgs(k.q)
    ensures k.rec == Msgs(Picked(k.past, Out)) + Msgs(UnderWay(k, b))
    ensures PhaseFits(k, b.value) && AllFit(k.past)
  {
  }

  lemma ClearedParts(acc: seq<Msg>, rec: seq<Msg>, q: seq<Item>, went: seq<Item>, past: seq<Chunk>, c: Chunk)
    requires acc == Msgs(Picked(past, Whole)) + Msgs(q) && rec == Msgs(Picked(past, Out)) + Msgs(went) && AllFit(past)
    requires ChunkFits(c) && c.items == q && Out(c) == went
    ensures acc == Msgs(Picked(past + [c], Whole)) + Msgs([]) && rec == Msgs(Picked(past + [c], Out)) + Msgs([])
    ensures AllFit(past + [c])
  {
    FitSnoc(past, c);
    ClearedAccepted(acc, past, q, c);
    ClearedReceived(rec, past, went, c);
  }

  lemma ClearBalanced(k: Book, d: Id, fate: Fate)
    requires Balanced(k, Some(Clearing(d, fate)))
    ensures Balanced(AfterClear(k, fate), None)
  {
    BalancedParts(k, Some(Clearing(d, fate)));
    ClearedFits(k, d, fate);
    AfterClearBalanced(k, fate, UnderWay(k, Some(Clearing(d, fate))), Chunk(k.n - |k.q|, k.q, fate));
  }

  lemma AfterClearBalanced(k: Book, fate: Fate, went: seq<Item>, c: Chunk)
    requires k.acc == Msgs(Picked(k.past, Whole)) + Msgs(k.q) && k.rec == Msgs(Picked(k.past, Out)) + Msgs(went)
    requires AllFit(k.past) && c == Chunk(k.n - |k.q|, k.q, fate) && ChunkFits(c) && Out(c) == went
    ensures Balanced(AfterClear(k, fate), None)
  {
    var past := k.past + [c];
    assert AfterClear(k, fate) == Book(k.acc, k.rec, [], k.n, past, k.online);
    ClearedParts(k.acc, k.rec, k.q, went, k.past, c);
    EmptyBalanced(k.acc, k.rec, k.n, past, k.online);
  }

  // ---------------------------------------------------------------- the machine keeps the books

  /** `d` has no task, or the one task `t` in phase `b`. */
  ghost predicate Sole(s: State, d: Id, t: Task, b: Option<Phase>) {
    match b
    case None => Idle(s, d)
    case Some(p) =>
      && t in s.tasks && s.tasks[t] == p && Target(p) == d
      && forall u :: u in s.tasks && u != t ==> Target(s.tasks[u]) != d
  }

  ghost predicate InOrder(s: State, d: Id) {
    exists t, b :: Sole(s, d, t, b) && Balanced(BookOf(s, d), b)
  }

  lemma Kept(s: State, d: Id, t: Task, b: Option<Phase>, k: Book)
    requires Sole(s, d, t, b) && BookOf(s, d) == k && Balanced(k, b)
    ensures InOrder(s, d)
  {
  }

  lemma EndsIdle(s: State, s': State, d: Id, t: Task, p: Phase)
    requires Sole(s, d, t, Some(p)) && s'.tasks == s.tasks - {t}
    ensures Sole(s', d, t, None)
  {
  }

  /** Steps about others, and time, leave `d`'s books and tasks alone. */
  lemma OtherQueue(timeout: nat, s: State, e: Event, d: Id)
    requires Enabled(s, e) && About(s, e) != Some(d)
    ensures Queue(Step(timeout, s, e), d) == Queue(s, d)
  {
  }

  lemma OtherLog(timeout: nat, s: State, e: Event, d: Id)
    requires Enabled(s, e) && About(s, e) != Some(d)
    ensures SeqAt(Step(timeout, s, e).log, d) == SeqAt(s.log, d)
  {
  }

  lemma OtherPast(timeout: nat, s: State, e: Event, d: Id)
    requires Enabled(s, e) && About(s, e) != Some(d)
    ensures SeqAt(Step(timeout, s, e).past, d) == SeqAt(s.past, d)
  {
  }

  lemma OtherOnline(timeout: nat, s: State, e: Event, d: Id)
    requires Enabled(s, e) && About(s, e) != Some(d)
    ensures d in Step(timeout, s, e).online <==> d in s.online
  {
  }

  lemma OtherAccepted(timeout: nat, s: State, e: Event, d: Id)
    requires Enabled(s, e) && About(s, e) != Some(d)
    ensures SeqAt(Step(timeout, s, e).accepted, d) == SeqAt(s.accepted, d)
  {
  }

  lemma OtherReceived(timeout: nat, s: State, e: Event, d: Id)
    requires Enabled(s, e) && About(s, e) != Some(d)
    ensures SeqAt(Step(timeout, s, e).received, d) == SeqAt(s.received, d)
  {
  }

  lemma OtherBook(timeout: nat, s: State, e: Event, d: Id)
    requires Enabled(s, e) && About(s, e) != Some(d)
    ensures BookOf(Step(timeout, s, e), d) == BookOf(s, d)
  {
    OtherQueue(timeout, s, e, d);
    OtherLog(timeout, s, e, d);
    OtherPast(timeout, s, e, d);
    OtherOnline(timeout, s, e, d);
    OtherAccepted(timeout, s, e, d);
    OtherReceived(timeout, s, e, d);
  }

  lemma OtherTasks(timeout: nat, s: State, e: Event, d: Id)
    requires Enabled(s, e) && About(s, e) != Some(d)
    ensures var s' := Step(timeout, s, e);
      && (forall u :: u in s'.tasks && Target(s'.tasks[u]) == d ==> u in s.tasks && s.tasks[u] == s'.tasks[u])
      && (forall u :: u in s.tasks && Target(s.tasks[u]) == d ==> u in s'.tasks && s.tasks[u] == s'.tasks[u])
  {
    var s' := Step(timeout, s, e);
    forall u | u in s'.tasks && Target(s'.tasks[u]) == d ensures u in s.tasks && s.tasks[u] == s'.tasks[u] {
      OneTask(timeout, s, e, u);
    }
    forall u | u in s.tasks && Target(s.tasks[u]) == d ensures u in s'.tasks && s.tasks[u] == s'.tasks[u] {
      OneTask(timeout, s, e, u);
    }
  }

  lemma OtherInOrder(timeout: nat, s: State, e: Event, d: Id, t: Task, b: Option<Phase>)
    requires Enabled(s, e) && About(s, e) != Some(d) && Sole(s, d, t, b) && Balanced(BookOf(s, d), b)
    ensures InOrder(Step(timeout, s, e), d)
  {
    OtherBook(timeout, s, e, d);
    OtherTasks(timeout, s, e, d);
    Kept(Step(timeout, s, e), d, t, b, BookOf(s, d));
  }

  lemma StartInOrder(s: State, online: set<Id>, t: Task, p: Phase, d: Id)
    requires Idle(s, d) && t !in s.tasks && Balanced(BookOf(s, d), None) && Target(p) == d
    requires PhaseFits(BookOf(s, d).(online := d in online), p) && !p.Sending?
    requires d in online ==> d in s.online || (p.Touching? && p.why.ToDeliver?)
    requires p.Clearing? ==> p.fate.Evicted?
    ensures InOrder(s.(online := online, tasks := s.tasks[t := p]), d)
  {
    var s' := s.(online := online, tasks := s.tasks[t := p]);
    StartBalanced(BookOf(s, d), d in online, p);
    Kept(s', d, t, Some(p), BookOf(s, d).(online := d in online));
  }

  lemma TransmitInOrder(s: State, t: Task, m: Msg)
    requires Idle(s, m.dst) && t !in s.tasks && Balanced(BookOf(s, m.dst), None)
    ensures InOrder(Transmit(s, t, m), m.dst)
  {
    var d := m.dst;
    var s' := Transmit(s, t, m);
    if d in s.online {
      var k := BookOf(s, d);
      ForwardBalanced(k, m, s.clock);
      assert Heard(SeqAt(s.received, d) + [Receipt(m, -1)]) == k.rec + [m];
      Kept(s', d, t, None, k.(acc := k.acc + [m], rec := k.rec + [m],
                              past := k.past + [Chunk(0, [Item(m, s.clock)], Forwarded)]));
    } else if m.kind.LeaveOrExpire? {
      Kept(s, d, t, None, BookOf(s, d));
    } else {
      StartInOrder(s, s.online, t, Queueing(m), d);
    }
  }

  lemma TestAgeInOrder(timeout: nat, s: State, t: Task, d: Id, now: int)
    requires Idle(s, d) && t !in s.tasks && Balanced(BookOf(s, d), None)
    ensures InOrder(TestAge(timeout, s, t, d, now), d)
  {
    if Stale(timeout, s.redis, d, now) {
      StartInOrder(s, s.online, t, Touching(d, ToExpire(AgeTest(Gone(s, d), |SeqAt(s.log, d)|, now))), d);
    } else {
      Kept(s, d, t, None, BookOf(s, d));
    }
  }

  lemma PushInOrder(s: State, t: Task, m: Msg)
    requires Sole(s, m.dst, t, Some(Queueing(m))) && Balanced(BookOf(s, m.dst), Some(Queueing(m)))
    ensures InOrder(Enqueue(s, t, m), m.dst)
  {
    var k := BookOf(s, m.dst);
    PushBalanced(k, m, s.clock);
    EndsIdle(s, Enqueue(s, t, m), m.dst, t, Queueing(m));
    Kept(Enqueue(s, t, m), m.dst, t, None,
         k.(acc := k.acc + [m], q := k.q + [Item(m, s.clock)], n := k.n + 1));
  }

  /** The task moves on, and the books with it. */
  lemma MoveInOrder(s: State, s': State, d: Id, t: Task, p: Phase, k: Book)
    requires t in s.tasks && (forall u :: u in s.tasks && u != t ==> Target(s.tasks[u]) != d)
    requires s'.tasks == s.tasks[t := p] && Target(p) == d && BookOf(s', d) == k && Balanced(k, Some(p))
    ensures InOrder(s', d)
  {
    Kept(s', d, t, Some(p), k);
  }

  lemma TouchInOrder(timeout: nat, s: State, t: Task, d: Id, why: Purpose)
    requires Sole(s, d, t, Some(Touching(d, why))) && Balanced(BookOf(s, d), Some(Touching(d, why)))
    ensures InOrder(Step(timeout, s, Touch(t)), d)
  {
    var s' := Step(timeout, s, Touch(t));
    MoveInOrder(s, s', d, t, Listing(d, why), BookOf(s, d));
  }

  lemma ReadInOrder(s: State, t: Task, d: Id, why: Purpose)
    requires Sole(s, d, t, Some(Listing(d, why))) && Balanced(BookOf(s, d), Some(Listing(d, why)))
    ensures InOrder(ReadAll(s, t, d, why), d)
  {
    var s' := ReadAll(s, t, d, why);
    ReadBalanced(BookOf(s, d), d, why, Gone(s, d), Queue(s, d));
    if why.ToDeliver? && Queue(s, d) == [] {
      EndsIdle(s, s', d, t, Listing(d, why));
      Kept(s', d, t, None, BookOf(s, d));
    } else {
      MoveInOrder(s, s', d, t, Sending(d, why, Gone(s, d), Queue(s, d)), BookOf(s, d));
    }
  }

  lemma DeliverInOrder(s: State, t: Task, d: Id, lo: int, batch: seq<Item>, n: nat)
    requires n <= |batch|
    requires Sole(s, d, t, Some(Sending(d, ToDeliver, lo, batch)))
    requires Balanced(BookOf(s, d), Some(Sending(d, ToDeliver, lo, batch)))
    ensures InOrder(Deliver(s, t, d, lo, batch, n), d)
  {
    var s' := Deliver(s, t, d, lo, batch, n);
    var pos := |SeqAt(s.received, d)|;
    DeliverBalanced(BookOf(s, d), d, lo, batch, n, pos);
    HeardMore(SeqAt(s.received, d), batch[..n], lo);
    MoveInOrder(s, s', d, t, Clearing(d, Delivered(lo, lo + n, lo + |batch|, pos)),
                BookOf(s, d).(rec := BookOf(s, d).rec + Msgs(batch[..n])));
  }

  lemma NotifyInOrder(s: State, t: Task, d: Id, test: AgeTest, lo: int, batch: seq<Item>)
    requires Sole(s, d, t, Some(Sending(d, ToExpire(test), lo, batch)))
    requires Balanced(BookOf(s, d), Some(Sending(d, ToExpire(test), lo, batch)))
    ensures InOrder(Notify(s, t, d, test, lo, batch), d)
  {
    var s' := Notify(s, t, d, test, lo, batch);
    var pos, upto := |s.expires|, |s.expires| + |Notices(s.online, Msgs(batch), {})|;
    NotifyBalanced(BookOf(s, d), d, test, lo, batch, pos, upto, s.online);
    MoveInOrder(s, s', d, t, Clearing(d, Expired(test, lo, lo + |batch|, pos, upto, s.online)), BookOf(s, d));
  }

  lemma ClearedBook(s: State, t: Task, d: Id, fate: Fate)
    ensures BookOf(ClearQueue(s, t, d, fate), d) == AfterClear(BookOf(s, d), fate)
  {
  }

  lemma ClearInOrder(s: State, t: Task, d: Id, fate: Fate)
    requires Sole(s, d, t, Some(Clearing(d, fate))) && Balanced(BookOf(s, d), Some(Clearing(d, fate)))
    ensures InOrder(ClearQueue(s, t, d, fate), d)
  {
    ClearBalanced(BookOf(s, d), d, fate);
    ClearKept(s, ClearQueue(s, t, d, fate), t, d, fate, AfterClear(BookOf(s, d), fate));
  }

  lemma ClearKept(s: State, s': State, t: Task, d: Id, fate: Fate, k: Book)
    requires s' == ClearQueue(s, t, d, fate) && Sole(s, d, t, Some(Clearing(d, fate)))
    requires k == AfterClear(BookOf(s, d), fate) && Balanced(k, None)
    ensures InOrder(s', d)
  {
    ClearedBook(s, t, d, fate);
    EndsIdle(s, s', d, t, Clearing(d, fate));
    Kept(s', d, t, None, k);
  }

  lemma BeginInOrder(timeout: nat, s: State, e: Event, d: Id)
    requires Idle(s, d) && Balanced(BookOf(s, d), None) && Enabled(s, e) && Begins(e) && About(s, e) == Some(d)
    ensures InOrder(Step(timeout, s, e), d)
  {
    match e
    case Lookup(t, m) => TransmitInOrder(s, t, m);
    case Register(t, _) => StartInOrder(s, s.online + {d}, t, Touching(d, ToDeliver), d);
    case Check(t, _, now) => TestAgeInOrder(timeout, s, t, d, now);
    case Evict(t, _) => StartInOrder(s, s.online - {d}, t, Clearing(d, Evicted), d);
  }

  lemma NextInOrder(timeout: nat, s: State, e: Event, d: Id, t: Task, p: Phase)
    requires Sole(s, d, t, Some(p)) && Balanced(BookOf(s, d), Some(p)) && Enabled(s, e)
    requires (e.Push? || e.Touch? || e.List? || e.Send? || e.Clear?) && e.t == t
    ensures InOrder(Step(timeout, s, e), d)
  {
    match e
    case Push(_) => PushInOrder(s, t, p.m);
    case Touch(_) => TouchInOrder(timeout, s, t, d, p.why);
    case List(_) => ReadInOrder(s, t, d, p.why);
    case Send(_, n) =>
      if p.why.ToDeliver? {
        DeliverInOrder(s, t, d, p.lo, p.batch, n);
      } else {
        NotifyInOrder(s, t, d, p.why.test, p.lo, p.batch);
      }
    case Clear(_) => ClearInOrder(s, t, d, p.fate);
  }

  lemma DropInOrder(s: State, d: Id, t: Task, b: Option<Phase>)
    requires Sole(s, d, t, b) && Balanced(BookOf(s, d), b)
    ensures InOrder(s.(online := s.online - {d}), d)
  {
    var s' := s.(online := s.online - {d});
    Kept(s', d, t, b, BookOf(s, d).(online := false));
  }

  lemma InOrderStep(timeout: nat, s: State, e: Event, d: Id)
    requires InOrder(s, d) && Enabled(s, e) && Serial(d, s, e)
    ensures InOrder(Step(timeout, s, e), d)
  {
    var t, b :| Sole(s, d, t, b) && Balanced(BookOf(s, d), b);
    if About(s, e) != Some(d) {
      OtherInOrder(timeout, s, e, d, t, b);
    } else if Begins(e) {
      BeginInOrder(timeout, s, e, d);
    } else if e.Drop? {
      DropInOrder(s, d, t, b);
    } else {
      NextInOrder(timeout, s, e, d, t, b.value);
    }
  }

  lemma {:induction false} InOrderRun(timeout: nat, s: State, es: seq<Event>, t: State, d: Id)
    requires Leads(timeout, SerialFor(d), s, es, t) && InOrder(s, d)
    ensures InOrder(t, d)
    decreases |es|
  {
    if es != [] {
      InOrderStep(timeout, s, es[0], d);
      InOrderRun(timeout, Step(timeout, s, es[0]), es[1..], t, d);
    }
  }

  lemma SerialInOrder(timeout: nat, s: State, d: Id)
    requires Reachable(timeout, SerialFor(d), s)
    ensures InOrder(s, d)
  {
    var es :| Leads(timeout, SerialFor(d), INIT, es, s);
    assert Msgs([]) == [] && Heard([]) == [] && Balanced(BookOf(INIT, d), None);
    Kept(INIT, d, 0, None, BookOf(INIT, d));
    InOrderRun(timeout, INIT, es, s, d);
  }

  // ---------------------------------------------------------------- nothing is doubled, and what is lost

  /** Between tasks: what was accepted for `d` is what is past, chunk by chunk, followed by
      what is queued, and what `d` received is exactly what went out of those chunks. */
  lemma AcceptedAccountedFor(timeout: nat, s: State, d: Id)
    requires Reachable(timeout, SerialFor(d), s) && Idle(s, d)
    ensures SeqAt(s.accepted, d) == Msgs(Picked(SeqAt(s.past, d), Whole)) + Msgs(Queue(s, d))
    ensures Heard(SeqAt(s.received, d)) == Msgs(Picked(SeqAt(s.past, d), Out))
    ensures d in s.online ==> Queue(s, d) == []
  {
    SerialInOrder(timeout, s, d);
    var t, b :| Sole(s, d, t, b) && Balanced(BookOf(s, d), b);
    assert Msgs([]) == [];
  }

  lemma PartsOfChunk(c: Chunk)
    ensures multiset(Msgs(Whole(c)))
         == multiset(Msgs(Out(c))) + multiset(Msgs(CutOff(c))) + multiset(Msgs(Lapsed(c))) + multiset(Msgs(Thrown(c)))
  {
    if c.fate.Delivered? {
      assert c.items == Out(c) + CutOff(c);
      MsgsConcat(Out(c), CutOff(c));
    }
  }

  lemma {:induction false} PartsPartition(cs: seq<Chunk>)
    ensures multiset(Msgs(Picked(cs, Whole)))
         == multiset(Msgs(Picked(cs, Out))) + multiset(Msgs(Picked(cs, CutOff)))
          + multiset(Msgs(Picked(cs, Lapsed))) + multiset(Msgs(Picked(cs, Thrown)))
    decreases |cs|
  {
    if cs != [] {
      var init, c := cs[..|cs| - 1], cs[|cs| - 1];
      assert cs == init + [c];
      PartsPartition(init);
      PartsOfChunk(c);
      PickedChunk(init, c, Whole);
      PickedChunk(init, c, Out);
      PickedChunk(init, c, CutOff);
      PickedChunk(init, c, Lapsed);
      PickedChunk(init, c, Thrown);
    }
  }

  /** Every accepted message is, exactly once, received, queued, expired, evicted, or cut off. */
  lemma EveryMessageOnce(timeout: nat, s: State, d: Id)
    requires Reachable(timeout, SerialFor(d), s) && Idle(s, d)
    ensures var past := SeqAt(s.past, d);
      multiset(SeqAt(s.accepted, d))
      == multiset(Heard(SeqAt(s.received, d))) + multiset(Msgs(Queue(s, d)))
       + multiset(Msgs(Picked(past, Lapsed))) + multiset(Msgs(Picked(past, Thrown)))
       + multiset(Msgs(Picked(past, CutOff)))
  {
    AcceptedAccountedFor(timeout, s, d);
    PartsPartition(SeqAt(s.past, d));
  }

  // ---------------------------------------------------------------- exactly when nothing is cut off

  predicate SentAll(f: Fate) { f.Delivered? ==> f.mid == f.hi }

  /** A delivery for `d` sends all it read: its channel does not break. */
  predicate Unbroken(d: Id, s: State, e: Event) {
    Enabled(s, e) && e.Send? && s.tasks[e.t].d == d && s.tasks[e.t].why.ToDeliver? ==> e.k == |s.tasks[e.t].batch|
  }

  ghost function UnbrokenFor(d: Id): (State, Event) -> bool { (s, e) => Unbroken(d, s, e) }

  ghost predicate AllSent(past: seq<Chunk>) {
    forall i :: 0 <= i < |past| ==> SentAll(past[i].fate)
  }

  ghost predicate TasksSent(s: State, d: Id) {
    forall t :: t in s.tasks && s.tasks[t].Clearing? && s.tasks[t].d == d ==> SentAll(s.tasks[t].fate)
  }

  ghost predicate NoneBroken(s: State, d: Id) {
    AllSent(SeqAt(s.past, d)) && TasksSent(s, d)
  }

  lemma AllSentSnoc(past: seq<Chunk>, c: Chunk)
    ensures AllSent(past + [c]) <==> AllSent(past) && SentAll(c.fate)
  {
    if AllSent(past + [c]) {
      assert (past + [c])[|past|] == c;
      forall i | 0 <= i < |past| ensures SentAll(past[i].fate) {
        assert (past + [c])[i] == past[i];
      }
    }
  }

  lemma NoneBrokenClear(s: State, t: Task, d: Id, fate: Fate)
    requires t in s.tasks && s.tasks[t] == Clearing(d, fate)
    ensures NoneBroken(ClearQueue(s, t, d, fate), d) <==> NoneBroken(s, d)
  {
    var s' := ClearQueue(s, t, d, fate);
    AllSentSnoc(SeqAt(s.past, d), Chunk(Gone(s, d), Queue(s, d), fate));
    if NoneBroken(s', d) {
      forall u | u in s.tasks && s.tasks[u].Clearing? && s.tasks[u].d == d ensures SentAll(s.tasks[u].fate) {
        assert u != t ==> u in s'.tasks;
      }
    }
  }

  lemma TasksSentPut(s: State, s': State, t: Task, fate: Fate, d: Id)
    requires t in s.tasks && !s.tasks[t].Clearing? && s'.tasks == s.tasks[t := Clearing(d, fate)]
    ensures TasksSent(s', d) <==> TasksSent(s, d) && SentAll(fate)
  {
    if TasksSent(s', d) {
      assert s'.tasks[t] == Clearing(d, fate);
      forall u | u in s.tasks && s.tasks[u].Clearing? && s.tasks[u].d == d ensures SentAll(s.tasks[u].fate) {
        assert u in s'.tasks && s'.tasks[u] == s.tasks[u];
      }
    }
  }

  lemma NoneBrokenSend(timeout: nat, s: State, t: Task, n: nat, d: Id)
    requires Enabled(s, Send(t, n)) && s.tasks[t].d == d
    ensures NoneBroken(Step(timeout, s, Send(t, n)), d) <==> NoneBroken(s, d) && Unbroken(d, s, Send(t, n))
  {
    var s' := Step(timeout, s, Send(t, n));
    assert s'.past == s.past;
    TasksSentPut(s, s', t, s'.tasks[t].fate, d);
  }

  /** Neither clears `d`'s queue nor sends: no fate of `d` changes. */
  lemma NoneBrokenOther(timeout: nat, s: State, e: Event, d: Id)
    requires Enabled(s, e) && ((!e.Send? && !e.Clear?) || s.tasks[e.t].d != d)
    ensures NoneBroken(Step(timeout, s, e), d) <==> NoneBroken(s, d)
  {
    var s' := Step(timeout, s, e);
    PastOther(timeout, s, e, d);
    assert TasksSent(s', d) <==> TasksSent(s, d) by {
      forall u ensures (u in s'.tasks && s'.tasks[u].Clearing? && s'.tasks[u].d == d ==> SentAll(s'.tasks[u].fate))
                  <==> (u in s.tasks && s.tasks[u].Clearing? && s.tasks[u].d == d ==> SentAll(s.tasks[u].fate)) {
        TaskOther(timeout, s, e, d, u);
      }
    }
  }

  lemma PastOther(timeout: nat, s: State, e: Event, d: Id)
    requires Enabled(s, e) && ((!e.Send? && !e.Clear?) || s.tasks[e.t].d != d)
    ensures AllSent(SeqAt(Step(timeout, s, e).past, d)) <==> AllSent(SeqAt(s.past, d))
  {
    if e.Lookup? && e.m.dst == d && d in s.online {
      AllSentSnoc(SeqAt(s.past, d), Chunk(0, [Item(e.m, s.clock)], Forwarded));
    } else {
      assert SeqAt(Step(timeout, s, e).past, d) == SeqAt(s.past, d);
    }
  }

  lemma TaskOther(timeout: nat, s: State, e: Event, d: Id, u: Task)
    requires Enabled(s, e) && ((!e.Send? && !e.Clear?) || s.tasks[e.t].d != d)
    ensures var s' := Step(timeout, s, e);
      (u in s'.tasks && s'.tasks[u].Clearing? && s'.tasks[u].d == d ==> SentAll(s'.tasks[u].fate))
      <==> (u in s.tasks && s.tasks[u].Clearing? && s.tasks[u].d == d ==> SentAll(s.tasks[u].fate))
  {
    OneTask(timeout, s, e, u);
  }

  lemma NoneBrokenStepIff(timeout: nat, s: State, e: Event, d: Id)
    requires Enabled(s, e)
    ensures NoneBroken(Step(timeout, s, e), d) <==> NoneBroken(s, d) && Unbroken(d, s, e)
  {
    if e.Clear? && s.tasks[e.t].d == d {
      NoneBrokenClear(s, e.t, d, s.tasks[e.t].fate);
    } else if e.Send? && s.tasks[e.t].d == d {
      NoneBrokenSend(timeout, s, e.t, e.k, d);
    } else {
      NoneBrokenOther(timeout, s, e, d);
    }
  }

  lemma {:induction false} NoneBrokenRunIff(timeout: nat, P: (State, Event) -> bool,
                                            s: State, es: seq<Event>, t: State, d: Id)
    requires Leads(timeout, P, s, es, t)
    ensures NoneBroken(t, d) <==> NoneBroken(s, d) && Leads(timeout, UnbrokenFor(d), s, es, t)
    decreases |es|
  {
    if es != [] {
      NoneBrokenStepIff(timeout, s, es[0], d);
      NoneBrokenRunIff(timeout, P, Step(timeout, s, es[0]), es[1..], t, d);
    }
  }

  lemma {:induction false} NothingCutOffIff(past: seq<Chunk>)
    requires AllFit(past)
    ensures Picked(past, CutOff) == [] <==> AllSent(past)
    decreases |past|
  {
    if past != [] {
      var init, c := past[..|past| - 1], past[|past| - 1];
      assert past == init + [c];
      NothingCutOffIff(init);
      PickedSnoc(init, c, CutOff);
      AllSentSnoc(init, c);
    }
  }

  lemma SerialFits(timeout: nat, s: State, d: Id)
    requires Reachable(timeout, SerialFor(d), s)
    ensures AllFit(SeqAt(s.past, d))
  {
    SerialInOrder(timeout, s, d);
    var t, b :| Sole(s, d, t, b) && Balanced(BookOf(s, d), b);
  }

  /** "Every accepted message is received, queued, expired or evicted" holds exactly of the runs
      in which no delivery's channel breaks before all it read has gone out. */
  lemma ConservedIffUnbroken(timeout: nat, es: seq<Event>, s: State, d: Id)
    requires Leads(timeout, SerialFor(d), INIT, es, s) && Idle(s, d)
    ensures var past := SeqAt(s.past, d);
      multiset(SeqAt(s.accepted, d))
        == multiset(Heard(SeqAt(s.received, d))) + multiset(Msgs(Queue(s, d)))
         + multiset(Msgs(Picked(past, Lapsed))) + multiset(Msgs(Picked(past, Thrown)))
      <==> Leads(timeout, UnbrokenFor(d), INIT, es, s)
  {
    var past := SeqAt(s.past, d);
    EveryMessageOnce(timeout, s, d);
    SerialFits(timeout, s, d);
    NothingCutOffIff(past);
    NoneBrokenRunIff(timeout, SerialFor(d), INIT, es, s, d);
    assert |Msgs(Picked(past, CutOff))| == |Picked(past, CutOff)|;
    NothingMore(multiset(SeqAt(s.accepted, d)),
                multiset(Heard(SeqAt(s.received, d))) + multiset(Msgs(Queue(s, d)))
                + multiset(Msgs(Picked(past, Lapsed))) + multiset(Msgs(Picked(past, Thrown))),
                Msgs(Picked(past, CutOff)));
  }

  lemma NothingMore(all: multiset<Msg>, some: multiset<Msg>, more: seq<Msg>)
    requires all == some + multiset(more)
    ensures all == some <==> more == []
  {
    assert |all| == |some| + |more|;
  }

  // ---------------------------------------------------------------- expiry and order

  lemma {:induction false} SerialIsRun(timeout: nat, d: Id, s: State, es: seq<Event>, t: State)
    requires Leads(timeout, SerialFor(d), s, es, t)
    ensures Leads(timeout, Anything, s, es, t)
    decreases |es|
  {
    if es != [] {
      SerialIsRun(timeout, d, Step(timeout, s, es[0]), es[1..], t);
    }
  }

  lemma SerialReachable(timeout: nat, d: Id, s: State)
    requires Reachable(timeout, SerialFor(d), s)
    ensures Reachable(timeout, Anything, s)
  {
    var es :| Leads(timeout, SerialFor(d), INIT, es, s);
    SerialIsRun(timeout, d, INIT, es, s);
  }

  /** No message of `d` expires before it has spent the timeout in the queue. */
  lemma NeverEarly(timeout: nat, s: State, d: Id, c: Chunk, j: nat)
    requires Reachable(timeout, SerialFor(d), s) && c in SeqAt(s.past, d) && c.fate.Expired? && j < |c.items|
    ensures c.fate.test.now - c.items[j].at >= timeout && c.fate.test.now <= s.clock
  {
    SerialFits(timeout, s, d);
    assert ChunkFits(c) by {
      var i :| 0 <= i < |SeqAt(s.past, d)| && SeqAt(s.past, d)[i] == c;
    }
    SerialReachable(timeout, d, s);
    AgedIffQueuedBeforeCheck(timeout, s, d, c, j);
    ChunkJustified(timeout, s, d, c);
  }

  /** `xs` can be got from `ys` by leaving messages out. */
  ghost predicate Subsequence(xs: seq<Msg>, ys: seq<Msg>)
    decreases |ys|
  {
    if ys == [] then xs == []
    else
      var n := |ys| - 1;
      Subsequence(xs, ys[..n]) || (xs != [] && xs[|xs| - 1] == ys[n] && Subsequence(xs[..|xs| - 1], ys[..n]))
  }

  /** All of `zs` may be taken, or left out. */
  lemma {:induction false} SubsequenceMore(xs: seq<Msg>, ys: seq<Msg>, zs: seq<Msg>)
    requires Subsequence(xs, ys)
    ensures Subsequence(xs, ys + zs) && Subsequence(xs + zs, ys + zs)
    decreases |zs|
  {
    if zs == [] {
      assert ys + zs == ys && xs + zs == xs;
    } else {
      var n := |zs| - 1;
      SubsequenceMore(xs, ys, zs[..n]);
      assert (ys + zs)[..|ys + zs| - 1] == ys + zs[..n] && (xs + zs)[..|xs + zs| - 1] == xs + zs[..n];
    }
  }

  /** A first part may be taken and the rest left out. */
  lemma SubsequencePrefix(xs: seq<Msg>, ys: seq<Msg>, out: seq<Msg>, zs: seq<Msg>)
    requires Subsequence(xs, ys) && out <= zs
    ensures Subsequence(xs + out, ys + zs)
  {
    SubsequenceMore(xs, ys, out);
    SubsequenceMore(xs + out, ys + out, zs[|out|..]);
    assert ys + out + zs[|out|..] == ys + zs;
  }

  lemma OutIsPrefix(c: Chunk)
    ensures Msgs(Out(c)) <= Msgs(Whole(c))
  {
  }

  lemma {:induction false} OutInOrder(cs: seq<Chunk>)
    ensures Subsequence(Msgs(Picked(cs, Out)), Msgs(Picked(cs, Whole)))
    decreases |cs|
  {
    if cs != [] {
      var init, c := cs[..|cs| - 1], cs[|cs| - 1];
      assert cs == init + [c];
      OutInOrder(init);
      PickedChunk(init, c, Whole);
      PickedChunk(init, c, Out);
      OutIsPrefix(c);
      SubsequencePrefix(Msgs(Picked(init, Out)), Msgs(Picked(init, Whole)), Msgs(Out(c)), Msgs(Whole(c)));
    }
  }

  /** What `d` receives is, in order and without repetition, a selection of what was accepted for it. */
  lemma DeliveryInOrder(timeout: nat, s: State, d: Id)
    requires Reachable(timeout, SerialFor(d), s) && Idle(s, d)
    ensures Subsequence(Heard(SeqAt(s.received, d)), SeqAt(s.accepted, d))
  {
    AcceptedAccountedFor(timeout, s, d);
    OutInOrder(SeqAt(s.past, d));
    SubsequenceMore(Heard(SeqAt(s.received, d)), Msgs(Picked(SeqAt(s.past, d), Whole)), Msgs(Queue(s, d)));
  }
}
