/** Gap detection: the sequence numbers the relay assigns, and what a reconnecting
    client may conclude from the oldest buffered one. */
module ReplayGap {
  import opened Identifiers
  import opened ReplayBuffer

  /** A relayed DATA message, or maintenance of the buffer.  Ephemeral messages
      (and messages without room and destination) take a number but are not stored. */
  datatype Event =
    | Relay(k: Key, data: string, stored: bool, now: int)
    | Sweep(now: int)
    | Forget(k: Key)

  /** `seq_counter` after the run. */
  function Counter(es: seq<Event>): nat {
    if es == [] then 0 else Counter(es[..|es| - 1]) + if es[|es| - 1].Relay? then 1 else 0
  }

  /** The buffer operations of the run, with the numbers `handle_data` assigns. */
  function Ops(es: seq<Event>): seq<Op> {
    if es == [] then []
    else
      var init := es[..|es| - 1];
      match es[|es| - 1]
      case Relay(k, data, stored, now) =>
        if stored then Ops(init) + [Push(k, Counter(init) + 1, data, now)] else Ops(init)
      case Sweep(now) => Ops(init) + [Evict(now)]
      case Forget(k) => Ops(init) + [Remove(k)]
  }

  ghost predicate Increasing(log: seq<Entry>) {
    forall i, j :: 0 <= i < j < |log| ==> log[i].num < log[j].num
  }

  ghost predicate InTimeOrder(log: seq<Entry>) {
    forall i, j :: 0 <= i < j < |log| ==> log[i].at <= log[j].at
  }

  /** The log of the run, event by event. */
  function EventLog(es: seq<Event>, k: Key): seq<Entry> {
    if es == [] then []
    else
      var before := EventLog(es[..|es| - 1], k);
      match es[|es| - 1]
      case Relay(x, data, stored, now) =>
        if x == k && stored then before + [Entry(Counter(es[..|es| - 1]) + 1, data, now)] else before
      case Sweep(_) => before
      case Forget(x) => if x == k then [] else before
  }

  lemma LogSnoc(ops: seq<Op>, op: Op, k: Key)
    ensures Log(ops + [op], k) == LogStep(Log(ops, k), op, k)
  {
    assert (ops + [op])[..|ops|] == ops;
  }

  lemma {:induction false} EventLogIsLog(es: seq<Event>, k: Key)
    ensures EventLog(es, k) == Log(Ops(es), k)
    decreases |es|
  {
    if es != [] {
      var init := es[..|es| - 1];
      EventLogIsLog(init, k);
      match es[|es| - 1]
      case Relay(x, data, stored, now) => LogSnoc(Ops(init), Push(x, Counter(init) + 1, data, now), k);
      case Sweep(now) => LogSnoc(Ops(init), Evict(now), k);
      case Forget(x) => LogSnoc(Ops(init), Remove(x), k);
    }
  }

  /** Strictly increasing, and numbered from 1 to `n`. */
  ghost predicate Numbered(log: seq<Entry>, n: nat) {
    Increasing(log) && forall i :: 0 <= i < |log| ==> 0 < log[i].num <= n
  }

  lemma NumberedSnoc(log: seq<Entry>, n: nat, e: Entry)
    requires Numbered(log, n) && e.num == n + 1
    ensures Numbered(log + [e], n + 1)
  {
  }

  lemma NumberedMore(log: seq<Entry>, n: nat, m: nat)
    requires Numbered(log, n) && n <= m
    ensures Numbered(log, m) && Numbered([], m)
  {
  }

  lemma {:induction false} EventNumbers(es: seq<Event>, k: Key)
    ensures Numbered(EventLog(es, k), Counter(es))
    decreases |es|
  {
    if es != [] {
      var init := es[..|es| - 1];
      EventNumbers(init, k);
      NumberedMore(EventLog(init, k), Counter(init), Counter(es));
      var e := es[|es| - 1];
      if e.Relay? {
        NumberedSnoc(EventLog(init, k), Counter(init), Entry(Counter(init) + 1, e.data, e.now));
      }
    }
  }

  /** Numbers are strictly increasing along every log when one step takes the number and
      stores the message. */
  lemma NumbersIncrease(es: seq<Event>, k: Key)
    ensures Numbered(Log(Ops(es), k), Counter(es))
  {
    EventNumbers(es, k);
    EventLogIsLog(es, k);
  }

  lemma {:induction false} OpsTimes(es: seq<Event>, now: int)
    requires forall i :: 0 <= i < |es| ==> es[i].Forget? || es[i].now <= now
    ensures forall i :: 0 <= i < |Ops(es)| ==> Ops(es)[i].Remove? || Ops(es)[i].now <= now
    decreases |es|
  {
    if es != [] {
      OpsTimes(es[..|es| - 1], now);
    }
  }

  lemma {:induction false} TimesBounded(es: seq<Event>, k: Key, bound: int)
    requires forall i :: 0 <= i < |es| && es[i].Relay? ==> es[i].now <= bound
    ensures forall i :: 0 <= i < |EventLog(es, k)| ==> EventLog(es, k)[i].at <= bound
    decreases |es|
  {
    if es != [] {
      TimesBounded(es[..|es| - 1], k, bound);
    }
  }

  /** Relay events are stamped in order. */
  ghost predicate RelaysInOrder(es: seq<Event>) {
    forall i, j :: 0 <= i < j < |es| && es[i].Relay? && es[j].Relay? ==> es[i].now <= es[j].now
  }

  lemma InOrderInit(es: seq<Event>)
    requires es != [] && RelaysInOrder(es)
    ensures RelaysInOrder(es[..|es| - 1])
    ensures es[|es| - 1].Relay? ==> forall i :: 0 <= i < |es| - 1 && es[i].Relay? ==> es[i].now <= es[|es| - 1].now
  {
  }

  lemma InTimeOrderSnoc(log: seq<Entry>, e: Entry)
    requires InTimeOrder(log) && forall i :: 0 <= i < |log| ==> log[i].at <= e.at
    ensures InTimeOrder(log + [e])
  {
  }

  lemma {:induction false} EventTimes(es: seq<Event>, k: Key)
    requires RelaysInOrder(es)
    ensures InTimeOrder(EventLog(es, k))
    decreases |es|
  {
    if es != [] {
      var init := es[..|es| - 1];
      InOrderInit(es);
      EventTimes(init, k);
      var e := es[|es| - 1];
      if e.Relay? {
        TimesBounded(init, k, e.now);
        InTimeOrderSnoc(EventLog(init, k), Entry(Counter(init) + 1, e.data, e.now));
      }
    }
  }

  lemma TimesInOrder(es: seq<Event>, k: Key)
    requires RelaysInOrder(es)
    ensures InTimeOrder(Log(Ops(es), k))
  {
    EventTimes(es, k);
    EventLogIsLog(es, k);
  }

  /** What a buffer lost is expired, or older than its front. */
  lemma TailComplete(n: nat, ttl: nat, now: int, requested: nat, b: seq<Entry>, log: seq<Entry>)
    requires Tail(n, ttl, now, b, log) && Increasing(log) && b != [] && b[0].num <= requested
    ensures Select(ttl, now, requested, b) == Select(ttl, now, requested, log)
  {
    var lost := log[..|log| - |b|];
    assert log == lost + b && b[0] == log[|lost|];
    SelectNone(ttl, now, requested, lost);
    SelectConcat(ttl, now, requested, lost, b);
  }

  /** No gap is reported (the oldest buffered number is at most the requested one)
      only if the replay is complete: it equals the replay of the WHOLE log since
      the key's last removal, however many pushes overflowed the buffer. */
  lemma NoGapMeansComplete(max: nat, ttl: nat, es: seq<Event>, k: Key, requested: nat, now: int)
    requires forall i :: 0 <= i < |es| ==> es[i].Forget? || es[i].now <= now
    requires var b := BufferOf(Exec(max, ttl, Ops(es)), k); b != [] && b[0].num <= requested
    ensures Select(ttl, now, requested, BufferOf(Exec(max, ttl, Ops(es)), k))
         == Select(ttl, now, requested, Log(Ops(es), k))
  {
    var b, log := BufferOf(Exec(max, ttl, Ops(es)), k), Log(Ops(es), k);
    OpsTimes(es, now);
    TailRun(max, ttl, Ops(es), k, now);
    NumbersIncrease(es, k);
    TailComplete(Capacity(max), ttl, now, requested, b, log);
  }

  /** The entries newer than `since`, whatever their age. */
  function Later(since: nat, b: seq<Entry>): seq<string> {
    if b == [] then [] else (if b[0].num > since then [b[0].data] else []) + Later(since, b[1..])
  }

  lemma {:induction false} SelectAll(ttl: nat, now: int, since: nat, b: seq<Entry>)
    requires forall i :: 0 <= i < |b| ==> !Expired(ttl, now, b[i])
    ensures Select(ttl, now, since, b) == Later(since, b)
  {
    if b != [] {
      SelectAll(ttl, now, since, b[1..]);
    }
  }

  lemma {:induction false} LaterConcat(since: nat, a: seq<Entry>, b: seq<Entry>)
    requires forall i :: 0 <= i < |a| ==> a[i].num <= since
    ensures Later(since, a + b) == Later(since, b)
  {
    if a == [] {
      assert a + b == b;
    } else {
      assert (a + b)[1..] == a[1..] + b;
      LaterConcat(since, a[1..], b);
    }
  }

  /** With messages stamped in order and an unexpired front, nothing later than the
      requested number is missing from the replay at all. */
  lemma FreshFrontMeansEverything(max: nat, ttl: nat, es: seq<Event>, k: Key, requested: nat, now: int)
    requires forall i :: 0 <= i < |es| ==> es[i].Forget? || es[i].now <= now
    requires RelaysInOrder(es)
    requires var b := BufferOf(Exec(max, ttl, Ops(es)), k); b != [] && b[0].num <= requested && !Expired(ttl, now, b[0])
    ensures Select(ttl, now, requested, BufferOf(Exec(max, ttl, Ops(es)), k)) == Later(requested, Log(Ops(es), k))
  {
    OpsTimes(es, now);
    TailRun(max, ttl, Ops(es), k, now);
    NumbersIncrease(es, k);
    TimesInOrder(es, k);
    FreshTail(Capacity(max), ttl, now, requested, BufferOf(Exec(max, ttl, Ops(es)), k), Log(Ops(es), k));
  }

  lemma FreshTail(n: nat, ttl: nat, now: int, requested: nat, b: seq<Entry>, log: seq<Entry>)
    requires Tail(n, ttl, now, b, log) && Increasing(log) && InTimeOrder(log)
    requires b != [] && b[0].num <= requested && !Expired(ttl, now, b[0])
    ensures Select(ttl, now, requested, b) == Later(requested, log)
  {
    var lost := log[..|log| - |b|];
    assert log == lost + b && b[0] == log[|lost|];
    forall i | 0 <= i < |b| ensures !Expired(ttl, now, b[i]) {
      assert b[i] == log[|lost| + i];
    }
    SelectAll(ttl, now, requested, b);
    LaterConcat(requested, lost, b);
  }

  /** With messages stamped in order and nothing buffered, everything has expired: there is
      nothing to miss. */
  lemma EmptyMeansExpired(max: nat, ttl: nat, es: seq<Event>, k: Key, requested: nat, now: int)
    requires forall i :: 0 <= i < |es| ==> es[i].Forget? || es[i].now <= now
    requires RelaysInOrder(es) && BufferOf(Exec(max, ttl, Ops(es)), k) == []
    ensures Select(ttl, now, requested, Log(Ops(es), k)) == []
  {
    OpsTimes(es, now);
    TailRun(max, ttl, Ops(es), k, now);
    TimesInOrder(es, k);
    ExpiredUpToLast(ttl, now, Log(Ops(es), k));
    SelectNone(ttl, now, requested, Log(Ops(es), k));
  }

  lemma ExpiredUpToLast(ttl: nat, now: int, log: seq<Entry>)
    requires InTimeOrder(log) && (log != [] ==> Expired(ttl, now, log[|log| - 1]))
    ensures forall i :: 0 <= i < |log| ==> Expired(ttl, now, log[i])
  {
    forall i | 0 <= i < |log| ensures Expired(ttl, now, log[i]) {
      assert i < |log| - 1 ==> log[i].at <= log[|log| - 1].at;
    }
  }

  // ---------------------------------------------------------------- numbers taken and stored in different orders

  /** Whatever number at or above the front is asked for, the buffer gives what the log would. */
  ghost predicate CompleteFromFront(ttl: nat, now: int, b: seq<Entry>, log: seq<Entry>)
    requires b != []
  {
    forall r: nat :: b[0].num <= r ==> Select(ttl, now, r, b) == Select(ttl, now, r, log)
  }

  /** No unexpired one of these entries is numbered above `front`. */
  ghost predicate NoneAbove(ttl: nat, now: int, lost: seq<Entry>, front: nat) {
    forall i :: 0 <= i < |lost| ==> Expired(ttl, now, lost[i]) || lost[i].num <= front
  }

  /** After any run of the buffer, numbered in whatever order: every no-gap replay is complete
      exactly when no lost unexpired message is numbered above the front. */
  lemma CompleteIff(max: nat, ttl: nat, ops: seq<Op>, k: Key, now: int)
    requires forall i :: 0 <= i < |ops| ==> ops[i].Remove? || ops[i].now <= now
    requires BufferOf(Exec(max, ttl, ops), k) != []
    ensures var b, log := BufferOf(Exec(max, ttl, ops), k), Log(ops, k);
      && |b| <= |log|
      && (CompleteFromFront(ttl, now, b, log) <==> NoneAbove(ttl, now, log[..|log| - |b|], b[0].num))
  {
    TailRun(max, ttl, ops, k, now);
    var b, log := BufferOf(Exec(max, ttl, ops), k), Log(ops, k);
    assert log == log[..|log| - |b|] + b;
    SplitCompleteIff(ttl, now, log[..|log| - |b|], b);
  }

  lemma SplitCompleteIff(ttl: nat, now: int, lost: seq<Entry>, b: seq<Entry>)
    requires b != []
    ensures CompleteFromFront(ttl, now, b, lost + b) <==> NoneAbove(ttl, now, lost, b[0].num)
  {
    if NoneAbove(ttl, now, lost, b[0].num) {
      forall r: nat | b[0].num <= r ensures Select(ttl, now, r, b) == Select(ttl, now, r, lost + b) {
        SelectNone(ttl, now, r, lost);
        SelectConcat(ttl, now, r, lost, b);
      }
    } else {
      var i :| 0 <= i < |lost| && !Expired(ttl, now, lost[i]) && lost[i].num > b[0].num;
      var r := b[0].num;
      SelectConcat(ttl, now, r, lost, b);
      SelectSome(ttl, now, r, lost, i);
      assert Select(ttl, now, r, b) != Select(ttl, now, r, lost + b);
    }
  }

  lemma {:induction false} SelectSome(ttl: nat, now: int, since: nat, a: seq<Entry>, i: nat)
    requires i < |a| && !Expired(ttl, now, a[i]) && a[i].num > since
    ensures Select(ttl, now, since, a) != []
  {
    if i > 0 {
      SelectSome(ttl, now, since, a[1..], i - 1);
    }
  }

  // ---------------------------------------------------------------- what a disconnect forgets

  /** Everything ever pushed to `k`, removals or not. */
  function EverPushed(ops: seq<Op>, k: Key): seq<Entry> {
    if ops == [] then []
    else
      var op := ops[|ops| - 1];
      EverPushed(ops[..|ops| - 1], k) + if op.Push? && op.k == k then [Entry(op.num, op.data, op.now)] else []
  }

  /** What was pushed to `k` before its last removal. */
  function Forgotten(ops: seq<Op>, k: Key): seq<Entry> {
    if ops == [] then []
    else if ops[|ops| - 1] == Remove(k) then EverPushed(ops[..|ops| - 1], k)
    else Forgotten(ops[..|ops| - 1], k)
  }

  lemma {:induction false} ForgottenThenLog(ops: seq<Op>, k: Key)
    ensures EverPushed(ops, k) == Forgotten(ops, k) + Log(ops, k)
    decreases |ops|
  {
    if ops != [] {
      ForgottenThenLog(ops[..|ops| - 1], k);
    }
  }

  /** A replay that is complete since the last removal (every one without a gap notice is) is
      complete over the whole history exactly if nothing the removal discarded is both
      unexpired and newer than requested.  Every disconnect is such a removal, and no gap
      notice tells of it. */
  lemma WholeHistoryIff(ttl: nat, ops: seq<Op>, k: Key, requested: nat, now: int, replay: seq<string>)
    requires replay == Select(ttl, now, requested, Log(ops, k))
    ensures replay == Select(ttl, now, requested, EverPushed(ops, k))
       <==> forall i :: 0 <= i < |Forgotten(ops, k)| ==>
              Expired(ttl, now, Forgotten(ops, k)[i]) || Forgotten(ops, k)[i].num <= requested
  {
    var lost, log := Forgotten(ops, k), Log(ops, k);
    ForgottenThenLog(ops, k);
    SelectConcat(ttl, now, requested, lost, log);
    if forall i :: 0 <= i < |lost| ==> Expired(ttl, now, lost[i]) || lost[i].num <= requested {
      SelectNone(ttl, now, requested, lost);
    } else {
      var i :| 0 <= i < |lost| && !Expired(ttl, now, lost[i]) && lost[i].num > requested;
      SelectSome(ttl, now, requested, lost, i);
    }
  }

  // ---------------------------------------------------------------- the relay in place

  lemma ExecSnoc(max: nat, ttl: nat, ops: seq<Op>, op: Op)
    ensures Exec(max, ttl, ops + [op]) == Apply(max, ttl, Exec(max, ttl, ops), op)
  {
    assert (ops + [op])[..|ops|] == ops;
  }

  lemma OpsSnoc(es: seq<Event>, e: Event)
    ensures Counter(es + [e]) == Counter(es) + if e.Relay? then 1 else 0
    ensures Ops(es + [e])
         == Ops(es) + if e.Relay? then (if e.stored then [Push(e.k, Counter(es) + 1, e.data, e.now)] else [])
                      else if e.Sweep? then [Evict(e.now)] else [Remove(e.k)]
  {
    assert (es + [e])[..|es|] == es;
    assert Ops(es) + [] == Ops(es);
  }

  lemma TendSnoc(max: nat, ttl: nat, es: seq<Event>, e: Event)
    requires !e.Relay?
    ensures Counter(es + [e]) == Counter(es)
    ensures Exec(max, ttl, Ops(es + [e]))
         == Apply(max, ttl, Exec(max, ttl, Ops(es)), if e.Sweep? then Evict(e.now) else Remove(e.k))
  {
    OpsSnoc(es, e);
    ExecSnoc(max, ttl, Ops(es), if e.Sweep? then Evict(e.now) else Remove(e.k));
  }

  /** A relayed message is the next entry of its key's log, and of no other, unless ephemeral. */
  lemma RelayLogged(es: seq<Event>, k: Key, data: string, stored: bool, now: int)
    ensures forall x ::
      Log(Ops(es + [Relay(k, data, stored, now)]), x)
      == Log(Ops(es), x) + if stored && x == k then [Entry(Counter(es) + 1, data, now)] else []
  {
    OpsSnoc(es, Relay(k, data, stored, now));
    forall x ensures Log(Ops(es + [Relay(k, data, stored, now)]), x)
      == Log(Ops(es), x) + if stored && x == k then [Entry(Counter(es) + 1, data, now)] else []
    {
      if stored {
        LogSnoc(Ops(es), Push(k, Counter(es) + 1, data, now), x);
      }
      assert Log(Ops(es), x) + [] == Log(Ops(es), x);
    }
  }

  /** The global counter and the buffer, with the run that led here. */
  class RelayState {
    var seqCounter: nat
    const buffer: Buffer
    ghost var history: seq<Event>

    ghost predicate Valid()
      reads this, buffer
    {
      seqCounter == Counter(history) && buffer.buffers == Exec(buffer.maxSize, buffer.ttl, Ops(history))
    }

    constructor (maxSize: nat, ttl: nat)
      ensures Valid() && history == [] && fresh(buffer) && buffer.maxSize == maxSize && buffer.ttl == ttl
    {
      seqCounter, history := 0, [];
      buffer := new Buffer(maxSize, ttl);
    }

    /** The tail of `handle_data`: take a number, then store unless ephemeral. */
    method HandleData(k: Key, data: string, stored: bool, now: int) returns (num: nat)
      requires Valid()
      modifies this, buffer
      ensures Valid() && history == old(history) + [Relay(k, data, stored, now)]
      ensures num == old(seqCounter) + 1 == seqCounter
      ensures forall x ::
        Log(Ops(history), x)
        == Log(Ops(old(history)), x) + if stored && x == k then [Entry(num, data, now)] else []
    {
      RelayLogged(history, k, data, stored, now);
      OpsSnoc(history, Relay(k, data, stored, now));
      seqCounter := seqCounter + 1;
      num := seqCounter;
      if stored {
        ExecSnoc(buffer.maxSize, buffer.ttl, Ops(history), Push(k, num, data, now));
        buffer.Push(k, num, data, now);
      } else {
        assert Ops(history) + [] == Ops(history);
      }
      history := history + [Relay(k, data, stored, now)];
    }

    method EvictExpired(now: int)
      requires Valid()
      modifies this, buffer
      ensures Valid() && history == old(history) + [Sweep(now)]
    {
      TendSnoc(buffer.maxSize, buffer.ttl, history, Sweep(now));
      buffer.EvictExpired(now);
      history := history + [Sweep(now)];
    }

    method RemoveClient(k: Key)
      requires Valid()
      modifies this, buffer
      ensures Valid() && history == old(history) + [Forget(k)]
    {
      TendSnoc(buffer.maxSize, buffer.ttl, history, Forget(k));
      buffer.RemoveClient(k);
      history := history + [Forget(k)];
    }

    /** What a reconnecting SSE or polling client is sent: a gap notice when its number
        is below the oldest buffered one, then the replay.  Without a notice the replay misses
        no unexpired message since the last removal; it misses none at all exactly if the
        removal discarded none. */
    method CatchUp(k: Key, requested: nat, now: int) returns (gap: Option<nat>, msgs: seq<string>)
      requires Valid()
      requires forall i :: 0 <= i < |history| ==> history[i].Forget? || history[i].now <= now
      ensures msgs == Select(buffer.ttl, now, requested, LastN(Log(Ops(history), k), Capacity(buffer.maxSize)))
      ensures gap.None? && (BufferOf(buffer.buffers, k) != [] || RelaysInOrder(history)) ==>
        && msgs == Select(buffer.ttl, now, requested, Log(Ops(history), k))
        && (msgs == Select(buffer.ttl, now, requested, EverPushed(Ops(history), k))
            <==> forall i :: 0 <= i < |Forgotten(Ops(history), k)| ==>
                   || Expired(buffer.ttl, now, Forgotten(Ops(history), k)[i])
                   || Forgotten(Ops(history), k)[i].num <= requested)
      ensures gap.Some? <==> BufferOf(buffer.buffers, k) != [] && requested < BufferOf(buffer.buffers, k)[0].num
      ensures gap.Some? ==> gap.value == BufferOf(buffer.buffers, k)[0].num
    {
      gap := None;
      var oldest := buffer.OldestSeq(k);
      if oldest.Some? && requested < oldest.value {
        gap := oldest;
      }
      msgs := buffer.ReplaySince(k, requested, now);
      OpsTimes(history, now);
      ReplayRefinesLog(buffer.maxSize, buffer.ttl, Ops(history), k, requested, now);
      if gap.None? && (BufferOf(buffer.buffers, k) != [] || RelaysInOrder(history)) {
        if BufferOf(buffer.buffers, k) != [] {
          NoGapMeansComplete(buffer.maxSize, buffer.ttl, history, k, requested, now);
        } else {
          EmptyMeansExpired(buffer.maxSize, buffer.ttl, history, k, requested, now);
        }
        WholeHistoryIff(buffer.ttl, Ops(history), k, requested, now, msgs);
      }
    }
  }
}
