/** The replay buffer: per key a queue bounded in size and age, and the plain log
    of pushes it stands for (src/replay_buffer.rs). */
module ReplayBuffer {
  import opened Identifiers

  datatype Key = Key(name: string)

  datatype Entry = Entry(num: nat, data: string, at: int)

  /** `Instant::duration_since` never goes below zero. */
  function Elapsed(now: int, at: int): nat {
    if now >= at then now - at else 0
  }

  predicate Expired(ttl: nat, now: int, e: Entry) {
    Elapsed(now, e.at) >= ttl
  }

  // ---------------------------------------------------------------- the buffer as a value

  /** Expired entries are only ever dropped from the front. */
  function DropExpired(ttl: nat, now: int, b: seq<Entry>): seq<Entry> {
    if b != [] && Expired(ttl, now, b[0]) then DropExpired(ttl, now, b[1..]) else b
  }

  function PushTo(max: nat, ttl: nat, b: seq<Entry>, e: Entry): seq<Entry> {
    var kept := DropExpired(ttl, e.at, b);
    (if |kept| >= max && kept != [] then kept[1..] else kept) + [e]
  }

  type Buffers = map<Key, seq<Entry>>

  function BufferOf(m: Buffers, k: Key): seq<Entry> {
    if k in m then m[k] else []
  }

  function EvictFrom(ttl: nat, now: int, m: Buffers): Buffers {
    map k | k in m && DropExpired(ttl, now, m[k]) != [] :: DropExpired(ttl, now, m[k])
  }

  datatype Op =
    | Push(k: Key, num: nat, data: string, now: int)
    | Evict(now: int)
    | Remove(k: Key)

  function Apply(max: nat, ttl: nat, m: Buffers, op: Op): Buffers {
    match op
    case Push(k, num, data, now) => m[k := PushTo(max, ttl, BufferOf(m, k), Entry(num, data, now))]
    case Evict(now) => EvictFrom(ttl, now, m)
    case Remove(k) => m - {k}
  }

  function Exec(max: nat, ttl: nat, ops: seq<Op>): Buffers {
    if ops == [] then map[] else Apply(max, ttl, Exec(max, ttl, ops[..|ops| - 1]), ops[|ops| - 1])
  }

  // ---------------------------------------------------------------- the plain log

  function LogStep(before: seq<Entry>, op: Op, k: Key): seq<Entry> {
    match op
    case Push(x, num, data, now) => if x == k then before + [Entry(num, data, now)] else before
    case Evict(_) => before
    case Remove(x) => if x == k then [] else before
  }

  /** All pushes to `k` since its last removal, oldest first. */
  function Log(ops: seq<Op>, k: Key): seq<Entry> {
    if ops == [] then [] else LogStep(Log(ops[..|ops| - 1], k), ops[|ops| - 1], k)
  }

  /** The unexpired entries with a sequence number above `since`, oldest first. */
  function Select(ttl: nat, now: int, since: nat, b: seq<Entry>): seq<string> {
    if b == [] then []
    else (if b[0].num > since && !Expired(ttl, now, b[0]) then [b[0].data] else []) + Select(ttl, now, since, b[1..])
  }

  function LastN<T>(xs: seq<T>, n: nat): seq<T> {
    if |xs| <= n then xs else xs[|xs| - n..]
  }

  function Capacity(max: nat): nat {
    if max == 0 then 1 else max
  }

  // ---------------------------------------------------------------- the invariant

  /** `b` is the end of `log`, and what the last `n` pushes have beyond it is expired. */
  ghost predicate Tail(n: nat, ttl: nat, now: int, b: seq<Entry>, log: seq<Entry>) {
    && |b| <= |log| && |b| <= n
    && b == log[|log| - |b|..]
    && forall i :: 0 <= i < |log| - |b| && |log| - n <= i ==> Expired(ttl, now, log[i])
  }

  lemma {:induction false} DropIsSuffix(ttl: nat, t: int, now: int, b: seq<Entry>)
    requires t <= now
    ensures var kept := DropExpired(ttl, t, b);
      && |kept| <= |b| && kept == b[|b| - |kept|..]
      && forall i :: 0 <= i < |b| - |kept| ==> Expired(ttl, now, b[i])
  {
    if b != [] && Expired(ttl, t, b[0]) {
      DropIsSuffix(ttl, t, now, b[1..]);
      var kept := DropExpired(ttl, t, b);
      assert kept == b[1..][|b| - 1 - |kept|..] == b[|b| - |kept|..];
      forall i | 0 <= i < |b| - |kept| ensures Expired(ttl, now, b[i]) {
        assert i > 0 ==> b[i] == b[1..][i - 1];
      }
    }
  }

  lemma TailDrop(n: nat, ttl: nat, t: int, now: int, b: seq<Entry>, log: seq<Entry>)
    requires Tail(n, ttl, now, b, log) && t <= now
    ensures Tail(n, ttl, now, DropExpired(ttl, t, b), log)
  {
    var kept := DropExpired(ttl, t, b);
    DropIsSuffix(ttl, t, now, b);
    assert kept == log[|log| - |kept|..];
    forall i | 0 <= i < |log| - |kept| && |log| - n <= i ensures Expired(ttl, now, log[i]) {
      if i >= |log| - |b| {
        assert log[i] == b[i - (|log| - |b|)];
      }
    }
  }

  lemma TailPush(max: nat, ttl: nat, now: int, b: seq<Entry>, log: seq<Entry>, e: Entry)
    requires Tail(Capacity(max), ttl, now, b, log) && e.at <= now
    ensures Tail(Capacity(max), ttl, now, PushTo(max, ttl, b, e), log + [e])
  {
    TailDrop(Capacity(max), ttl, e.at, now, b, log);
    var kept := DropExpired(ttl, e.at, b);
    var b' := PushTo(max, ttl, b, e);
    var log' := log + [e];
    assert b' == log'[|log'| - |b'|..];
  }

  lemma {:induction false} TailRun(max: nat, ttl: nat, ops: seq<Op>, k: Key, now: int)
    requires forall i :: 0 <= i < |ops| ==> ops[i].Remove? || ops[i].now <= now
    ensures Tail(Capacity(max), ttl, now, BufferOf(Exec(max, ttl, ops), k), Log(ops, k))
    decreases |ops|
  {
    if ops != [] {
      var init := ops[..|ops| - 1];
      var m := Exec(max, ttl, init);
      TailRun(max, ttl, init, k, now);
      match ops[|ops| - 1]
      case Push(x, num, data, t) =>
        if x == k {
          TailPush(max, ttl, now, BufferOf(m, k), Log(init, k), Entry(num, data, t));
        }
      case Evict(t) =>
        TailDrop(Capacity(max), ttl, t, now, BufferOf(m, k), Log(init, k));
        assert BufferOf(EvictFrom(ttl, t, m), k) == DropExpired(ttl, t, BufferOf(m, k));
      case Remove(x) =>
    }
  }

  lemma {:induction false} SelectConcat(ttl: nat, now: int, since: nat, a: seq<Entry>, b: seq<Entry>)
    ensures Select(ttl, now, since, a + b) == Select(ttl, now, since, a) + Select(ttl, now, since, b)
  {
    if a == [] {
      assert a + b == b;
    } else {
      assert (a + b)[1..] == a[1..] + b;
      SelectConcat(ttl, now, since, a[1..], b);
    }
  }

  lemma {:induction false} SelectNone(ttl: nat, now: int, since: nat, a: seq<Entry>)
    requires forall i :: 0 <= i < |a| ==> Expired(ttl, now, a[i]) || a[i].num <= since
    ensures Select(ttl, now, since, a) == []
  {
    if a != [] {
      SelectNone(ttl, now, since, a[1..]);
    }
  }

  /** After any run, a replay returns, in order, exactly what the plain log holds
      among its last `max(1, max_size)` pushes: newer than `since`, younger than the TTL.
      Only the query has to come after the run; pushes may be stamped out of order. */
  lemma ReplayRefinesLog(max: nat, ttl: nat, ops: seq<Op>, k: Key, since: nat, now: int)
    requires forall i :: 0 <= i < |ops| ==> ops[i].Remove? || ops[i].now <= now
    ensures Select(ttl, now, since, BufferOf(Exec(max, ttl, ops), k))
         == Select(ttl, now, since, LastN(Log(ops, k), Capacity(max)))
  {
    TailRun(max, ttl, ops, k, now);
    var b, log := BufferOf(Exec(max, ttl, ops), k), Log(ops, k);
    var last := LastN(log, Capacity(max));
    var lost := last[..|last| - |b|];
    assert last == lost + b;
    forall i | 0 <= i < |lost| ensures Expired(ttl, now, lost[i]) {
      assert lost[i] == log[|log| - |last| + i];
    }
    SelectNone(ttl, now, since, lost);
    SelectConcat(ttl, now, since, lost, b);
  }

  // ---------------------------------------------------------------- exactly what is dropped

  /** An entry is as old as the TTL or older.  With a TTL of zero everything is, even what a
      stepped-back clock dates later. */
  predicate Old(ttl: nat, now: int, e: Entry) {
    now - e.at >= ttl || ttl == 0
  }

  lemma ExpiredIsOld(ttl: nat, now: int, e: Entry)
    ensures Expired(ttl, now, e) <==> Old(ttl, now, e)
  {
  }

  /** Just the first `n` entries are old before the first that is not. */
  ghost predicate OldFront(ttl: nat, now: int, b: seq<Entry>, n: nat) {
    && n <= |b| && (forall i :: 0 <= i < n ==> Old(ttl, now, b[i]))
    && (n < |b| ==> !Old(ttl, now, b[n]))
  }

  /** Every buffer has such a front, and only one. */
  lemma {:induction false} OldFrontExists(ttl: nat, now: int, b: seq<Entry>) returns (n: nat)
    ensures OldFront(ttl, now, b, n) && forall m: nat :: OldFront(ttl, now, b, m) ==> m == n
  {
    n := 0;
    if b != [] && Old(ttl, now, b[0]) {
      var rest := OldFrontExists(ttl, now, b[1..]);
      n := rest + 1;
      assert forall i :: 0 < i < |b| ==> b[i] == b[1..][i - 1];
    }
    forall m: nat | OldFront(ttl, now, b, m) ensures m == n {
      assert m < |b| ==> !Old(ttl, now, b[m]);
      assert n < |b| ==> !Old(ttl, now, b[n]);
    }
  }

  lemma {:induction false} DropsOldFront(ttl: nat, now: int, b: seq<Entry>, n: nat)
    requires OldFront(ttl, now, b, n)
    ensures DropExpired(ttl, now, b) == b[n..]
    decreases n
  {
    if n > 0 {
      ExpiredIsOld(ttl, now, b[0]);
      DropsOldFront(ttl, now, b[1..], n - 1);
    } else if b != [] {
      ExpiredIsOld(ttl, now, b[0]);
    }
  }

  /** An eviction takes from every buffer its old front and removes the buffers left empty. */
  lemma EvictionExact(max: nat, ttl: nat, now: int, m: Buffers, k: Key, n: nat)
    requires k in m && OldFront(ttl, now, m[k], n)
    ensures var m' := Apply(max, ttl, m, Evict(now));
      (k in m' <==> n < |m[k]|) && (k in m' ==> m'[k] == m[k][n..])
    ensures Apply(max, ttl, m, Evict(now)).Keys <= m.Keys
  {
    DropsOldFront(ttl, now, m[k], n);
  }

  /** A push takes the old front, then one more if the buffer is still full, and adds its entry
      at the end; other keys are left alone. */
  lemma PushExact(max: nat, ttl: nat, m: Buffers, k: Key, num: nat, data: string, now: int, n: nat)
    requires OldFront(ttl, now, BufferOf(m, k), n)
    ensures var b := BufferOf(m, k);
      Apply(max, ttl, m, Push(k, num, data, now))
      == m[k := (if n < |b| && |b| - n >= max then b[n + 1..] else b[n..]) + [Entry(num, data, now)]]
  {
    var b := BufferOf(m, k);
    DropsOldFront(ttl, now, b, n);
    if n < |b| {
      assert b[n..][1..] == b[n + 1..];
    }
  }

  /** No run leaves an empty buffer behind. */
  lemma {:induction false} NoEmptyBuffer(max: nat, ttl: nat, ops: seq<Op>, k: Key)
    ensures k in Exec(max, ttl, ops) ==> Exec(max, ttl, ops)[k] != []
    decreases |ops|
  {
    if ops != [] {
      NoEmptyBuffer(max, ttl, ops[..|ops| - 1], k);
    }
  }

  /** A replay takes an entry exactly if it is newer than asked for and not old. */
  lemma {:induction false} SelectSnoc(ttl: nat, now: int, since: nat, b: seq<Entry>, e: Entry)
    ensures Select(ttl, now, since, b + [e])
         == Select(ttl, now, since, b) + if since < e.num && ttl > 0 && now - e.at < ttl then [e.data] else []
  {
    SelectConcat(ttl, now, since, b, [e]);
    assert [e][1..] == [];
  }

  // ---------------------------------------------------------------- the buffer in place

  class Buffer {
    const maxSize: nat
    const ttl: nat
    var buffers: Buffers

    constructor (maxSize: nat, ttl: nat)
      ensures this.maxSize == maxSize && this.ttl == ttl && buffers == map[]
    {
      this.maxSize, this.ttl, this.buffers := maxSize, ttl, map[];
    }

    method EvictFront(b: seq<Entry>, now: int) returns (r: seq<Entry>)
      ensures r == DropExpired(ttl, now, b)
    {
      r := b;
      while r != [] && Expired(ttl, now, r[0])
        invariant DropExpired(ttl, now, r) == DropExpired(ttl, now, b)
        decreases |r|
      {
        r := r[1..];
      }
    }

    method Push(k: Key, num: nat, data: string, now: int)
      modifies this
      ensures buffers == Apply(maxSize, ttl, old(buffers), Op.Push(k, num, data, now))
    {
      var b := EvictFront(if k in buffers then buffers[k] else [], now);
      if |b| >= maxSize && b != [] {
        b := b[1..];
      }
      buffers := buffers[k := b + [Entry(num, data, now)]];
    }

    method ReplaySince(k: Key, since: nat, now: int) returns (r: seq<string>)
      ensures r == Select(ttl, now, since, BufferOf(buffers, k))
    {
      r := [];
      if k !in buffers {
        return;
      }
      var b := buffers[k];
      for i := 0 to |b|
        invariant r + Select(ttl, now, since, b[i..]) == Select(ttl, now, since, b)
      {
        assert b[i..][1..] == b[i + 1..];
        if b[i].num > since && !Expired(ttl, now, b[i]) {
          r := r + [b[i].data];
        }
      }
    }

    method OldestSeq(k: Key) returns (r: Option<nat>)
      ensures r == if BufferOf(buffers, k) == [] then None else Some(BufferOf(buffers, k)[0].num)
    {
      if k !in buffers || buffers[k] == [] {
        return None;
      }
      return Some(buffers[k][0].num);
    }

    method RemoveClient(k: Key)
      modifies this
      ensures buffers == Apply(maxSize, ttl, old(buffers), Remove(k))
    {
      buffers := buffers - {k};
    }

    /** Keys are collected first; buffers left empty are removed. */
    method EvictExpired(now: int)
      modifies this
      ensures buffers == Apply(maxSize, ttl, old(buffers), Evict(now))
    {
      var keys := buffers.Keys;
      while keys != {}
        invariant keys <= old(buffers).Keys
        invariant forall k :: k in buffers <==>
          k in old(buffers) && (k in keys || DropExpired(ttl, now, old(buffers)[k]) != [])
        invariant forall k :: k in buffers ==>
          buffers[k] == if k in keys then old(buffers)[k] else DropExpired(ttl, now, old(buffers)[k])
        decreases |keys|
      {
        var k :| k in keys;
        var b := EvictFront(buffers[k], now);
        if b == [] {
          buffers := buffers - {k};
        } else {
          buffers := buffers[k := b];
        }
        keys := keys - {k};
      }
    }
  }
}
