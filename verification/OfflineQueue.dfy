/** Messages for offline peers: queued in Redis, then delivered, expired or cleared
    (handle_transmission, deliver_queued_messages, the expiry sweep, redis_realm), at the
    grain of single Redis round trips. */
module OfflineQueue {

  datatype Id = Id(name: string)

  type Task = nat

  /** LEAVE and EXPIRE are never queued; the other signaling types are. */
  datatype Kind = Signal | LeaveOrExpire

  datatype Msg = Msg(kind: Kind, src: Id, dst: Id, body: string)

  /** A queued message with the time it was queued at. */
  datatype Item = Item(msg: Msg, at: int)

  function SeqAt<T>(m: map<Id, seq<T>>, d: Id): seq<T> { if d in m then m[d] else [] }
  function Msgs(q: seq<Item>): seq<Msg> { seq(|q|, i requires 0 <= i < |q| => q[i].msg) }

  /** A message as received, with its position among all ever queued for the peer; -1 if it
      never was. */
  datatype Receipt = Receipt(msg: Msg, pos: int)

  /** What the peer receives when `q`, from position `lo` on, is sent. */
  function Receipts(q: seq<Item>, lo: int): seq<Receipt> {
    seq(|q|, i requires 0 <= i < |q| => Receipt(q[i].msg, lo + i))
  }

  // ---------------------------------------------------------------- the Redis keys

  datatype Redis = Redis(queues: map<Id, seq<Item>>, meta: map<Id, int>)

  /** `add_message_to_queue`: the message and the timestamp. */
  function Pushed(r: Redis, m: Msg, now: int): Redis {
    Redis(r.queues[m.dst := SeqAt(r.queues, m.dst) + [Item(m, now)]], r.meta[m.dst := now])
  }

  /** The SET with which `read_all_messages` begins. */
  function Touched(r: Redis, d: Id, now: int): Redis {
    r.(meta := r.meta[d := now])
  }

  /** `clear_message_queue`. */
  function Cleared(r: Redis, d: Id): Redis {
    Redis(r.queues - {d}, r.meta - {d})
  }

  /** `get_queue_last_read_at`, with the sweep's default. */
  function LastReadAt(r: Redis, d: Id): int { if d in r.meta then r.meta[d] else 0 }

  /** The sweep's age test. */
  predicate Stale(timeout: nat, r: Redis, d: Id, now: int) { now - LastReadAt(r, d) >= timeout }

  // ---------------------------------------------------------------- EXPIRE notices

  function SeenKey(src: Id, dst: Id): string { src.name + "_" + dst.name }

  /** The sweep's loop: one notice per new key, to the sender if it is online. */
  function Notices(online: set<Id>, ms: seq<Msg>, seen: set<string>): seq<(Id, Id)> {
    if ms == [] then []
    else
      var key := SeenKey(ms[0].src, ms[0].dst);
      if key in seen then Notices(online, ms[1..], seen)
      else
        (if ms[0].src in online then [(ms[0].src, ms[0].dst)] else [])
        + Notices(online, ms[1..], seen + {key})
  }

  // ---------------------------------------------------------------- tasks and the ledger

  /** A sweep's age test: its clock, how many messages had ever been queued when it
      tested, and how many of them had left the queue. */
  datatype AgeTest = AgeTest(gone: int, mark: int, now: int)

  /** Why a queue is drained. */
  datatype Purpose = ToDeliver | ToExpire(test: AgeTest)

  /** How messages left: `[lo, hi)` is what the drain read, as positions in the log; of it
      `[lo, mid)` went out, to `received` from `pos` on; `[pos, upto)` are its notices. */
  datatype Fate =
    | Forwarded
    | Evicted
    | Delivered(lo: int, mid: int, hi: int, pos: int)
    | Expired(test: AgeTest, lo: int, hi: int, pos: int, upto: int, online: set<Id>)

  /** Messages that went together; `start` is the position of the first in the log. */
  datatype Chunk = Chunk(start: int, items: seq<Item>, fate: Fate)

  /** What a handler or the sweep is about to do. */
  datatype Phase =
    | Queueing(m: Msg)                                        // RPUSH: nobody was online
    | Touching(d: Id, why: Purpose)                           // SET of the timestamp
    | Listing(d: Id, why: Purpose)                            // LRANGE
    | Sending(d: Id, why: Purpose, lo: int, batch: seq<Item>) // sends of what was read
    | Clearing(d: Id, fate: Fate)                             // DEL

  /** `online` has the peers with a sender.  `received`, `accepted`, `log`, `past` and
      `expires`, and the positions in tasks, are ledgers no step reads. */
  datatype State = State(
    clock: int,
    online: set<Id>,
    redis: Redis,
    tasks: map<Task, Phase>,
    received: map<Id, seq<Receipt>>,   // everything sent to a peer, over all its connections
    accepted: map<Id, seq<Msg>>,       // everything handle_transmission sent or queued for it
    log: map<Id, seq<Item>>,           // everything ever queued for it
    past: map<Id, seq<Chunk>>,         // everything forwarded to it or gone from its queue
    expires: seq<(Id, Id)>)            // EXPIRE notices sent, as (to, about)

  const INIT := State(0, {}, Redis(map[], map[]), map[], map[], map[], map[], map[], [])

  function Queue(s: State, d: Id): seq<Item> { SeqAt(s.redis.queues, d) }

  /** How many of the messages ever queued for `d` have left its queue. */
  function Gone(s: State, d: Id): int { |SeqAt(s.log, d)| - |Queue(s, d)| }

  // ---------------------------------------------------------------- steps

  datatype Event =
    | Tick(now: int)
    | Lookup(t: Task, m: Msg)              // handle_transmission: forward, or go on to queue
    | Push(t: Task)
    | Register(t: Task, d: Id)             // a connection's sender, its delivery to come
    | Check(t: Task, d: Id, now: int)      // the sweep's age test, by the clock it started with
    | Touch(t: Task)
    | List(t: Task)
    | Send(t: Task, k: nat)                // a delivery sends `k` messages before its channel breaks
    | Evict(t: Task, d: Id)                // sender removed, clear to come
    | Clear(t: Task)
    | Drop(d: Id)                          // sender gone

  predicate Enabled(s: State, e: Event) {
    match e
    case Tick(now) => now >= s.clock
    case Push(t) => t in s.tasks && s.tasks[t].Queueing?
    case Check(t, _, now) => t !in s.tasks && now <= s.clock
    case Touch(t) => t in s.tasks && s.tasks[t].Touching?
    case List(t) => t in s.tasks && s.tasks[t].Listing?
    case Send(t, k) => t in s.tasks && s.tasks[t].Sending? && k <= |s.tasks[t].batch|
    case Clear(t) => t in s.tasks && s.tasks[t].Clearing?
    case Drop(_) => true
    case _ => e.t !in s.tasks
  }

  function Forward(s: State, m: Msg): State {
    s.(received := s.received[m.dst := SeqAt(s.received, m.dst) + [Receipt(m, -1)]],
       accepted := s.accepted[m.dst := SeqAt(s.accepted, m.dst) + [m]],
       past := s.past[m.dst := SeqAt(s.past, m.dst) + [Chunk(0, [Item(m, s.clock)], Forwarded)]])
  }

  function Transmit(s: State, t: Task, m: Msg): State {
    if m.dst in s.online then Forward(s, m)
    else if m.kind.LeaveOrExpire? then s
    else s.(tasks := s.tasks[t := Queueing(m)])
  }

  function Enqueue(s: State, t: Task, m: Msg): State {
    s.(redis := Pushed(s.redis, m, s.clock),
       accepted := s.accepted[m.dst := SeqAt(s.accepted, m.dst) + [m]],
       log := s.log[m.dst := SeqAt(s.log, m.dst) + [Item(m, s.clock)]],
       tasks := s.tasks - {t})
  }

  /** A queue stamped within the timeout is skipped. */
  function TestAge(timeout: nat, s: State, t: Task, d: Id, now: int): State {
    if !Stale(timeout, s.redis, d, now) then s
    else s.(tasks := s.tasks[t := Touching(d, ToExpire(AgeTest(Gone(s, d), |SeqAt(s.log, d)|, now)))])
  }

  /** A delivery that reads an empty queue is over; a sweep goes on. */
  function ReadAll(s: State, t: Task, d: Id, why: Purpose): State {
    if why.ToDeliver? && Queue(s, d) == [] then s.(tasks := s.tasks - {t})
    else s.(tasks := s.tasks[t := Sending(d, why, Gone(s, d), Queue(s, d))])
  }

  function Deliver(s: State, t: Task, d: Id, lo: int, batch: seq<Item>, k: nat): State
    requires k <= |batch|
  {
    var rec := SeqAt(s.received, d);
    s.(received := s.received[d := rec + Receipts(batch[..k], lo)],
       tasks := s.tasks[t := Clearing(d, Delivered(lo, lo + k, lo + |batch|, |rec|))])
  }

  function Notify(s: State, t: Task, d: Id, test: AgeTest, lo: int, batch: seq<Item>): State {
    var notices := Notices(s.online, Msgs(batch), {});
    var n := |s.expires|;
    s.(expires := s.expires + notices,
       tasks := s.tasks[t := Clearing(d, Expired(test, lo, lo + |batch|, n, n + |notices|, s.online))])
  }

  function ClearQueue(s: State, t: Task, d: Id, fate: Fate): State {
    s.(redis := Cleared(s.redis, d),
       past := s.past[d := SeqAt(s.past, d) + [Chunk(Gone(s, d), Queue(s, d), fate)]],
       tasks := s.tasks - {t})
  }

  function Step(timeout: nat, s: State, e: Event): State
    requires Enabled(s, e)
  {
    match e
    case Tick(now) => s.(clock := now)
    case Lookup(t, m) => Transmit(s, t, m)
    case Push(t) => Enqueue(s, t, s.tasks[t].m)
    case Register(t, d) => s.(online := s.online + {d}, tasks := s.tasks[t := Touching(d, ToDeliver)])
    case Check(t, d, now) => TestAge(timeout, s, t, d, now)
    case Touch(t) =>
      var p := s.tasks[t];
      s.(redis := Touched(s.redis, p.d, s.clock), tasks := s.tasks[t := Listing(p.d, p.why)])
    case List(t) => ReadAll(s, t, s.tasks[t].d, s.tasks[t].why)
    case Send(t, k) =>
      var p := s.tasks[t];
      if p.why.ToDeliver? then Deliver(s, t, p.d, p.lo, p.batch, k) else Notify(s, t, p.d, p.why.test, p.lo, p.batch)
    case Evict(t, d) => s.(online := s.online - {d}, tasks := s.tasks[t := Clearing(d, Evicted)])
    case Clear(t) => ClearQueue(s, t, s.tasks[t].d, s.tasks[t].fate)
    case Drop(d) => s.(online := s.online - {d})
  }

  /** `es` is a run from `s` to `t` whose every step satisfies `P`. */
  ghost predicate Leads(timeout: nat, P: (State, Event) -> bool, s: State, es: seq<Event>, t: State)
    decreases |es|
  {
    if es == [] then s == t
    else Enabled(s, es[0]) && P(s, es[0]) && Leads(timeout, P, Step(timeout, s, es[0]), es[1..], t)
  }

  ghost predicate Anything(s: State, e: Event) { true }

  ghost predicate Reachable(timeout: nat, P: (State, Event) -> bool, s: State) {
    exists es :: Leads(timeout, P, INIT, es, s)
  }

  lemma {:induction false} LeadsSnoc(timeout: nat, P: (State, Event) -> bool, s: State, es: seq<Event>, t: State,
                                     e: Event)
    requires Leads(timeout, P, s, es, t) && Enabled(t, e) && P(t, e)
    ensures Leads(timeout, P, s, es + [e], Step(timeout, t, e))
    decreases |es|
  {
    if es == [] {
      assert [] + [e] == [e] && [e][1..] == [];
      assert Leads(timeout, P, Step(timeout, s, e), [], Step(timeout, t, e));
    } else {
      assert (es + [e])[1..] == es[1..] + [e];
      LeadsSnoc(timeout, P, Step(timeout, s, es[0]), es[1..], t, e);
    }
  }

  lemma ReachStep(timeout: nat, P: (State, Event) -> bool, s: State, e: Event, t: State)
    requires Reachable(timeout, P, s) && Enabled(s, e) && P(s, e) && t == Step(timeout, s, e)
    ensures Reachable(timeout, P, t)
  {
    var es :| Leads(timeout, P, INIT, es, s);
    LeadsSnoc(timeout, P, INIT, es, s, e);
  }

  lemma ReachInit(timeout: nat, P: (State, Event) -> bool)
    ensures Reachable(timeout, P, INIT)
  {
    assert Leads(timeout, P, INIT, [], INIT);
  }
}
