/** At-most-once delivery from the offline queue: two connections of one client may read the
    same queue before either clears it. */
module QueueOnce {
  import opened OfflineQueue
  import opened QueueLedger

  /** The positions of the queued messages that were received. */
  function Positions(rec: seq<Receipt>): set<int> {
    set r | r in rec && r.pos >= 0 :: r.pos
  }

  /** No queued message was received twice. */
  ghost predicate AtMostOnce(rec: seq<Receipt>) {
    forall i, j :: 0 <= i < j < |rec| && rec[i].pos >= 0 ==> rec[i].pos != rec[j].pos
  }

  // ---------------------------------------------------------------- stretches that deliveries have read

  /** A stretch of the log a delivery has read and not sent yet. */
  datatype Stretch = Stretch(lo: int, hi: int)

  ghost function Stretches(s: State, d: Id): set<Stretch> {
    set t | t in s.tasks && s.tasks[t].Sending? && s.tasks[t].d == d && s.tasks[t].why.ToDeliver?
      :: Stretch(s.tasks[t].lo, s.tasks[t].lo + |s.tasks[t].batch|)
  }

  /** If anything of the stretch has gone out, its first message has. */
  ghost predicate Led(out: set<int>, lo: int, hi: int) {
    forall p :: p in out && lo <= p < hi ==> lo in out
  }

  /** Stretches begin together or lie apart, and are sent from the front. */
  ghost predicate Blocks(out: set<int>, gone: int, n: int, R: set<Stretch>) {
    && 0 <= gone <= n && (forall p :: p in out ==> p < n) && Led(out, gone, n)
    && (forall r :: r in R ==> 0 <= r.lo <= r.hi <= n && (r.lo == gone || r.hi <= gone) && Led(out, r.lo, r.hi))
    && (forall r, q :: r in R && q in R ==> r.lo == q.lo || r.hi <= q.lo || q.hi <= r.lo)
  }

  lemma BlocksRead(out: set<int>, gone: int, n: int, R: set<Stretch>, R': set<Stretch>)
    requires Blocks(out, gone, n, R) && R' <= R + {Stretch(gone, n)}
    ensures Blocks(out, gone, n, R')
  {
  }

  lemma BlocksSend(out: set<int>, gone: int, n: int, R: set<Stretch>, r: Stretch, k: nat, out': set<int>)
    requires Blocks(out, gone, n, R) && r in R && r.lo + k <= r.hi
    requires forall p :: p in out' <==> p in out || r.lo <= p < r.lo + k
    ensures Blocks(out', gone, n, R)
  {
    forall q | q in R ensures Led(out', q.lo, q.hi) {
      assert Led(out, q.lo, q.hi);
    }
  }

  lemma BlocksFewer(out: set<int>, gone: int, n: int, R: set<Stretch>, R': set<Stretch>)
    requires Blocks(out, gone, n, R) && R' <= R
    ensures Blocks(out, gone, n, R')
  {
  }

  lemma BlocksPush(out: set<int>, gone: int, n: int, R: set<Stretch>)
    requires Blocks(out, gone, n, R)
    ensures Blocks(out, gone, n + 1, R)
  {
    assert forall r :: r in R ==> Led(out, r.lo, r.hi);
  }

  lemma BlocksClear(out: set<int>, gone: int, n: int, R: set<Stretch>)
    requires Blocks(out, gone, n, R)
    ensures Blocks(out, n, n, R)
  {
    assert forall r :: r in R ==> Led(out, r.lo, r.hi);
  }

  // ---------------------------------------------------------------- the machine keeps them

  ghost predicate BlocksOf(s: State, d: Id) {
    Blocks(Positions(SeqAt(s.received, d)), Gone(s, d), |SeqAt(s.log, d)|, Stretches(s, d))
  }

  lemma PositionsMore(rec: seq<Receipt>, q: seq<Item>, lo: int)
    requires lo >= 0
    ensures forall p :: p in Positions(rec + Receipts(q, lo)) <==> p in Positions(rec) || lo <= p < lo + |q|
  {
    var all := rec + Receipts(q, lo);
    forall p ensures p in Positions(all) <==> p in Positions(rec) || lo <= p < lo + |q| {
      if lo <= p < lo + |q| {
        assert all[|rec| + (p - lo)] == Receipt(q[p - lo].msg, p);
      }
      if p in Positions(rec) {
        var r :| r in rec && r.pos == p;
        assert r in all;
      }
    }
  }

  lemma PositionsForwarded(rec: seq<Receipt>, m: Msg)
    ensures Positions(rec + [Receipt(m, -1)]) == Positions(rec)
  {
    forall p | p in Positions(rec) ensures p in Positions(rec + [Receipt(m, -1)]) {
      var r :| r in rec && r.pos == p;
      assert r in rec + [Receipt(m, -1)];
    }
  }

  /** A step that is no read adds no stretch. */
  lemma StretchesFewer(timeout: nat, s: State, e: Event, d: Id)
    requires Enabled(s, e) && !(e.List? && s.tasks[e.t].d == d)
    ensures Stretches(Step(timeout, s, e), d) <= Stretches(s, d)
  {
    var s' := Step(timeout, s, e);
    forall r | r in Stretches(s', d) ensures r in Stretches(s, d) {
      var t :| t in s'.tasks && s'.tasks[t].Sending? && s'.tasks[t].d == d && s'.tasks[t].why.ToDeliver?
        && r == Stretch(s'.tasks[t].lo, s'.tasks[t].lo + |s'.tasks[t].batch|);
      SendingBefore(timeout, s, e, t, d);
    }
  }

  lemma SendingBefore(timeout: nat, s: State, e: Event, t: Task, d: Id)
    requires Enabled(s, e) && !(e.List? && s.tasks[e.t].d == d)
    requires var s' := Step(timeout, s, e); t in s'.tasks && s'.tasks[t].Sending? && s'.tasks[t].d == d
    ensures t in s.tasks && s.tasks[t] == Step(timeout, s, e).tasks[t]
  {
    if e.Tick? || e.Drop? || e.t != t {
      OtherTaskStays(timeout, s, e, t);
    } else if e.List? {
      OwnTaskStays(timeout, s, e);
    }
  }

  lemma SendingAfterRead(s: State, t: Task, d: Id, why: Purpose, u: Task)
    requires var s' := ReadAll(s, t, d, why); u in s'.tasks && s'.tasks[u].Sending?
    ensures var p := ReadAll(s, t, d, why).tasks[u];
      p == Sending(d, why, Gone(s, d), Queue(s, d)) || (u in s.tasks && s.tasks[u] == p)
  {
  }

  lemma StretchesRead(s: State, t: Task, d: Id, why: Purpose)
    ensures Stretches(ReadAll(s, t, d, why), d) <= Stretches(s, d) + {Stretch(Gone(s, d), |SeqAt(s.log, d)|)}
  {
    var tasks := ReadAll(s, t, d, why).tasks;
    forall r | r in Stretches(ReadAll(s, t, d, why), d)
      ensures r in Stretches(s, d) || r == Stretch(Gone(s, d), |SeqAt(s.log, d)|)
    {
      var u :| u in tasks && tasks[u].Sending? && tasks[u].d == d && tasks[u].why.ToDeliver?
        && r == Stretch(tasks[u].lo, tasks[u].lo + |tasks[u].batch|);
      SendingAfterRead(s, t, d, why, u);
    }
  }

  lemma DeliverBlocks(timeout: nat, s: State, t: Task, k: nat, d: Id)
    requires BlocksOf(s, d) && Enabled(s, Send(t, k)) && s.tasks[t].d == d && s.tasks[t].why.ToDeliver?
    ensures BlocksOf(Step(timeout, s, Send(t, k)), d)
  {
    var p := s.tasks[t];
    var s' := Step(timeout, s, Send(t, k));
    var r := Stretch(p.lo, p.lo + |p.batch|);
    var out, R := Positions(SeqAt(s.received, d)), Stretches(s, d);
    assert r in R;
    PositionsMore(SeqAt(s.received, d), p.batch[..k], p.lo);
    var out' := Positions(SeqAt(s'.received, d));
    BlocksSend(out, Gone(s, d), |SeqAt(s.log, d)|, R, r, k, out');
    StretchesFewer(timeout, s, Send(t, k), d);
    BlocksFewer(out', Gone(s, d), |SeqAt(s.log, d)|, R, Stretches(s', d));
  }

  lemma ReadBlocks(s: State, t: Task, d: Id, why: Purpose)
    requires BlocksOf(s, d)
    ensures BlocksOf(ReadAll(s, t, d, why), d)
  {
    StretchesRead(s, t, d, why);
    BlocksRead(Positions(SeqAt(s.received, d)), Gone(s, d), |SeqAt(s.log, d)|, Stretches(s, d),
               Stretches(ReadAll(s, t, d, why), d));
  }

  lemma PushBlocks(timeout: nat, s: State, t: Task, d: Id)
    requires BlocksOf(s, d) && Enabled(s, Push(t)) && s.tasks[t].m.dst == d
    ensures BlocksOf(Step(timeout, s, Push(t)), d)
  {
    var s' := Step(timeout, s, Push(t));
    var out, n := Positions(SeqAt(s.received, d)), |SeqAt(s.log, d)|;
    BlocksPush(out, Gone(s, d), n, Stretches(s, d));
    StretchesFewer(timeout, s, Push(t), d);
    BlocksFewer(out, Gone(s, d), n + 1, Stretches(s, d), Stretches(s', d));
  }

  lemma ClearBlocks(timeout: nat, s: State, t: Task, d: Id)
    requires BlocksOf(s, d) && Enabled(s, Clear(t)) && s.tasks[t].d == d
    ensures BlocksOf(Step(timeout, s, Clear(t)), d)
  {
    var s' := Step(timeout, s, Clear(t));
    var out, n := Positions(SeqAt(s.received, d)), |SeqAt(s.log, d)|;
    BlocksClear(out, Gone(s, d), n, Stretches(s, d));
    StretchesFewer(timeout, s, Clear(t), d);
    BlocksFewer(out, n, n, Stretches(s, d), Stretches(s', d));
  }

  /** Whether the step changes `d`'s log, queue or received messages other than by forwarding. */
  predicate Touches(s: State, e: Event, d: Id)
    requires Enabled(s, e)
  {
    || (e.Push? && s.tasks[e.t].m.dst == d)
    || ((e.Clear? || e.List?) && s.tasks[e.t].d == d)
    || (e.Send? && s.tasks[e.t].d == d && s.tasks[e.t].why.ToDeliver?)
  }

  lemma UntouchedQueue(timeout: nat, s: State, e: Event, d: Id)
    requires Enabled(s, e) && !Touches(s, e, d)
    ensures var s' := Step(timeout, s, e); Queue(s', d) == Queue(s, d) && SeqAt(s'.log, d) == SeqAt(s.log, d)
  {
  }

  lemma UntouchedReceived(timeout: nat, s: State, e: Event, d: Id)
    requires Enabled(s, e) && !Touches(s, e, d)
    ensures SeqAt(Step(timeout, s, e).received, d)
         == SeqAt(s.received, d) + if e.Lookup? && e.m.dst == d && d in s.online then [Receipt(e.m, -1)] else []
  {
  }

  lemma UntouchedBlocks(timeout: nat, s: State, e: Event, d: Id)
    requires BlocksOf(s, d) && Enabled(s, e) && !Touches(s, e, d)
    ensures BlocksOf(Step(timeout, s, e), d)
  {
    var s' := Step(timeout, s, e);
    UntouchedQueue(timeout, s, e, d);
    UntouchedReceived(timeout, s, e, d);
    if e.Lookup? {
      PositionsForwarded(SeqAt(s.received, d), e.m);
    }
    StretchesFewer(timeout, s, e, d);
    BlocksFewer(Positions(SeqAt(s.received, d)), Gone(s, d), |SeqAt(s.log, d)|, Stretches(s, d), Stretches(s', d));
  }

  lemma BlocksStep(timeout: nat, s: State, e: Event, d: Id)
    requires BlocksOf(s, d) && Enabled(s, e)
    ensures BlocksOf(Step(timeout, s, e), d)
  {
    if !Touches(s, e, d) {
      UntouchedBlocks(timeout, s, e, d);
    } else {
      match e
      case Push(t) => PushBlocks(timeout, s, t, d);
      case List(t) => ReadBlocks(s, t, d, s.tasks[t].why);
      case Send(t, k) => DeliverBlocks(timeout, s, t, k, d);
      case Clear(t) => ClearBlocks(timeout, s, t, d);
    }
  }

  // ---------------------------------------------------------------- exactly when nothing arrives twice

  /** A delivery for `d` that sends anything finds the first message it read not sent before. */
  predicate First(d: Id, s: State, e: Event) {
    Enabled(s, e) && e.Send? && s.tasks[e.t].d == d && s.tasks[e.t].why.ToDeliver? && e.k > 0 ==>
      s.tasks[e.t].lo !in Positions(SeqAt(s.received, d))
  }

  ghost function FirstFor(d: Id): (State, Event) -> bool { (s, e) => First(d, s, e) }

  lemma OnceSendIff(rec: seq<Receipt>, q: seq<Item>, lo: int, hi: int)
    requires AtMostOnce(rec) && Led(Positions(rec), lo, hi) && 0 <= lo && lo + |q| <= hi
    ensures AtMostOnce(rec + Receipts(q, lo)) <==> (q != [] ==> lo !in Positions(rec))
  {
    var all := rec + Receipts(q, lo);
    if q != [] && lo in Positions(rec) {
      var r :| r in rec && r.pos == lo;
      var i :| 0 <= i < |rec| && rec[i] == r;
      assert all[i].pos == all[|rec|].pos == lo;
    } else {
      forall i, j | 0 <= i < j < |all| && all[i].pos >= 0 ensures all[i].pos != all[j].pos {
        if i < |rec| <= j {
          assert rec[i].pos in Positions(rec);
          assert all[j].pos == lo + (j - |rec|);
        }
      }
    }
  }

  lemma OncePrefix(rec: seq<Receipt>, more: seq<Receipt>)
    requires AtMostOnce(rec + more)
    ensures AtMostOnce(rec)
  {
    forall i, j | 0 <= i < j < |rec| && rec[i].pos >= 0 ensures rec[i].pos != rec[j].pos {
      assert (rec + more)[i] == rec[i] && (rec + more)[j] == rec[j];
    }
  }

  lemma OnceDeliverIff(timeout: nat, s: State, t: Task, k: nat, d: Id)
    requires BlocksOf(s, d) && Enabled(s, Send(t, k)) && s.tasks[t].d == d && s.tasks[t].why.ToDeliver?
    ensures AtMostOnce(SeqAt(Step(timeout, s, Send(t, k)).received, d))
       <==> AtMostOnce(SeqAt(s.received, d)) && First(d, s, Send(t, k))
  {
    var p, rec := s.tasks[t], SeqAt(s.received, d);
    assert Stretch(p.lo, p.lo + |p.batch|) in Stretches(s, d);
    if AtMostOnce(rec) {
      OnceSendIff(rec, p.batch[..k], p.lo, p.lo + |p.batch|);
    } else if AtMostOnce(rec + Receipts(p.batch[..k], p.lo)) {
      OncePrefix(rec, Receipts(p.batch[..k], p.lo));
    }
  }

  lemma OnceForwardIff(rec: seq<Receipt>, m: Msg)
    ensures AtMostOnce(rec + [Receipt(m, -1)]) <==> AtMostOnce(rec)
  {
    if AtMostOnce(rec + [Receipt(m, -1)]) {
      OncePrefix(rec, [Receipt(m, -1)]);
    }
  }

  lemma OnceStepIff(timeout: nat, s: State, e: Event, d: Id)
    requires BlocksOf(s, d) && Enabled(s, e)
    ensures AtMostOnce(SeqAt(Step(timeout, s, e).received, d)) <==> AtMostOnce(SeqAt(s.received, d)) && First(d, s, e)
  {
    if !Touches(s, e, d) {
      UntouchedReceived(timeout, s, e, d);
      if e.Lookup? {
        OnceForwardIff(SeqAt(s.received, d), e.m);
      }
      assert SeqAt(s.received, d) + [] == SeqAt(s.received, d);
    } else if e.Send? {
      OnceDeliverIff(timeout, s, e.t, e.k, d);
    } else {
      assert SeqAt(Step(timeout, s, e).received, d) == SeqAt(s.received, d);
    }
  }

  lemma {:induction false} OnceRunIff(timeout: nat, s: State, es: seq<Event>, t: State, d: Id)
    requires Leads(timeout, Anything, s, es, t) && BlocksOf(s, d)
    ensures AtMostOnce(SeqAt(t.received, d))
       <==> AtMostOnce(SeqAt(s.received, d)) && Leads(timeout, FirstFor(d), s, es, t)
    decreases |es|
  {
    if es != [] {
      OnceStepIff(timeout, s, es[0], d);
      BlocksStep(timeout, s, es[0], d);
      OnceRunIff(timeout, Step(timeout, s, es[0]), es[1..], t, d);
    }
  }

  /** In every run: no queued message is received twice exactly if no delivery sends anything of
      a queue whose first message another delivery, having read the same queue, already sent. */
  lemma AtMostOnceIff(timeout: nat, es: seq<Event>, t: State, d: Id)
    requires Leads(timeout, Anything, INIT, es, t)
    ensures AtMostOnce(SeqAt(t.received, d)) <==> Leads(timeout, FirstFor(d), INIT, es, t)
  {
    assert Positions([]) == {} && Stretches(INIT, d) == {};
    assert BlocksOf(INIT, d);
    OnceRunIff(timeout, INIT, es, t, d);
  }
}
