/** Connection slots: the fetch_add / check / fetch_sub protocol and its pairing
    with the `clients` map, at the grain of single atomic operations. */
module Slots {

  const TWO64: int := 0x1_0000_0000_0000_0000

  type Usize = n: int | 0 <= n < TWO64

  /** Atomic counters wrap around. */
  function Wrap(n: int): Usize { n % TWO64 }
  function FetchAdd(n: Usize): Usize { if n == TWO64 - 1 then 0 else n + 1 }
  function FetchSub(n: Usize): Usize { if n == 0 then TWO64 - 1 else n - 1 }

  lemma WrapsAlike(a: int)
    ensures FetchAdd(Wrap(a)) == Wrap(a + 1)
    ensures FetchSub(Wrap(a)) == Wrap(a - 1)
  {
    var q, r := a / TWO64, a % TWO64;
    assert a == q * TWO64 + r;
    if r + 1 == TWO64 {
      assert a + 1 == (q + 1) * TWO64;
    }
    if r == 0 {
      assert a - 1 == (q - 1) * TWO64 + (TWO64 - 1);
    }
  }

  type Id = nat
  type Task = nat

  /** What a task still owes the counter. */
  datatype Phase =
    | Refused              // fetch_add found the limit reached; fetch_sub still to come
    | Reserved(id: Id)     // slot granted; the client is not in the map yet
    | Releasing            // client removed from the map, or registration failed; fetch_sub still to come

  /** `drift` is the ledger of the events that unpair counter and map; no step reads it. */
  datatype State = State(counter: Usize, clients: set<Id>, tasks: map<Task, Phase>, count: nat, drift: int)

  const INIT := State(0, {}, map[], 0, 0)

  datatype Event =
    | Add(t: Task, id: Id)        // fetch_add and check of try_reserve_connection_slot
    | Undo(t: Task)               // its fetch_sub after a refusal
    | Insert(t: Task)             // clients.insert of a new client
    | Abort(t: Task)              // registration failed after the reservation
    | Remove(t: Task, id: Id)     // clients.remove(..).is_some() at any of the five removal sites
    | Release(t: Task)            // fetch_sub of release_connection_slot
    | Reconnect(id: Id)           // clients.insert of a reconnecting client: no reservation
    | Count                       // reconciliation reads clients.len()
    | Store                       // ... and stores it

  predicate Enabled(s: State, e: Event) {
    match e
    case Add(t, _) => t !in s.tasks
    case Undo(t) => t in s.tasks && s.tasks[t].Refused?
    case Insert(t) => t in s.tasks && s.tasks[t].Reserved?
    case Abort(t) => t in s.tasks && s.tasks[t].Reserved?
    case Remove(t, id) => t !in s.tasks && id in s.clients
    case Release(t) => t in s.tasks && s.tasks[t].Releasing?
    case _ => true
  }

  function Step(limit: nat, s: State, e: Event): State
    requires Enabled(s, e)
  {
    match e
    case Add(t, id) =>
      s.(counter := FetchAdd(s.counter), tasks := s.tasks[t := if s.counter >= limit then Refused else Reserved(id)])
    case Undo(t) => s.(counter := FetchSub(s.counter), tasks := s.tasks - {t})
    case Insert(t) =>
      s.(clients := s.clients + {s.tasks[t].id}, tasks := s.tasks - {t},
         drift := s.drift + if s.tasks[t].id in s.clients then 1 else 0)
    case Abort(t) => s.(tasks := s.tasks[t := Releasing])
    case Remove(t, id) => s.(clients := s.clients - {id}, tasks := s.tasks[t := Releasing])
    case Release(t) => s.(counter := FetchSub(s.counter), tasks := s.tasks - {t})
    case Reconnect(id) =>
      s.(clients := s.clients + {id}, drift := s.drift - if id in s.clients then 0 else 1)
    case Count => s.(count := |s.clients|)
    case Store => s.(counter := Wrap(s.count), drift := s.count - |s.clients| - |s.tasks|)
  }

  // ---------------------------------------------------------------- the ledger, in every run

  /** What the counter should show: the map, the tasks in flight, and the drift. */
  function Owed(s: State): int {
    |s.clients| + |s.tasks| + s.drift
  }

  ghost predicate Balanced(s: State) {
    s.counter == Wrap(Owed(s))
  }

  lemma TakeTask(tasks: map<Task, Phase>, t: Task)
    requires t in tasks
    ensures |tasks - {t}| == |tasks| - 1
  {
    assert (tasks - {t}).Keys == tasks.Keys - {t};
  }

  lemma PutTask(tasks: map<Task, Phase>, t: Task, p: Phase)
    ensures |tasks[t := p]| == |tasks| + if t in tasks then 0 else 1
  {
    assert tasks[t := p].Keys == tasks.Keys + {t};
    assert t in tasks ==> tasks.Keys + {t} == tasks.Keys;
  }

  /** How far the step moves the counter. */
  function Moves(e: Event): int {
    if e.Add? then 1 else if e.Undo? || e.Release? then -1 else 0
  }

  lemma OwedByTasks(limit: nat, s: State, e: Event)
    requires Enabled(s, e) && (e.Add? || e.Undo? || e.Release? || e.Abort?)
    ensures Owed(Step(limit, s, e)) == Owed(s) + Moves(e)
  {
    match e
    case Add(t, id) => PutTask(s.tasks, t, if s.counter >= limit then Refused else Reserved(id));
    case Undo(t) => TakeTask(s.tasks, t);
    case Abort(t) => PutTask(s.tasks, t, Releasing);
    case Release(t) => TakeTask(s.tasks, t);
  }

  lemma OwedByClients(limit: nat, s: State, e: Event)
    requires Enabled(s, e) && (e.Insert? || e.Remove? || e.Reconnect?)
    ensures Owed(Step(limit, s, e)) == Owed(s)
  {
    match e
    case Insert(t) =>
      TakeTask(s.tasks, t);
      assert s.tasks[t].id in s.clients ==> s.clients + {s.tasks[t].id} == s.clients;
    case Remove(t, id) => PutTask(s.tasks, t, Releasing);
    case Reconnect(id) => assert id in s.clients ==> s.clients + {id} == s.clients;
  }

  lemma OwedStep(limit: nat, s: State, e: Event)
    requires Enabled(s, e)
    ensures Owed(Step(limit, s, e)) == if e.Store? then s.count else Owed(s) + Moves(e)
  {
    if e.Add? || e.Undo? || e.Release? || e.Abort? {
      OwedByTasks(limit, s, e);
    } else if e.Insert? || e.Remove? || e.Reconnect? {
      OwedByClients(limit, s, e);
    }
  }

  lemma CounterStep(limit: nat, s: State, e: Event)
    requires Enabled(s, e)
    ensures Step(limit, s, e).counter
         == if e.Store? then Wrap(s.count)
            else if Moves(e) == 1 then FetchAdd(s.counter)
            else if Moves(e) == -1 then FetchSub(s.counter)
            else s.counter
  {
  }

  lemma BalancedMove(counter: Usize, owed: int, move: int, counter': Usize, owed': int)
    requires counter == Wrap(owed) && -1 <= move <= 1 && owed' == owed + move
    requires counter' == if move == 1 then FetchAdd(counter) else if move == -1 then FetchSub(counter) else counter
    ensures counter' == Wrap(owed')
  {
    WrapsAlike(owed);
  }

  lemma BalancedStep(limit: nat, s: State, e: Event)
    requires Enabled(s, e) && Balanced(s)
    ensures Balanced(Step(limit, s, e))
  {
    var t := Step(limit, s, e);
    OwedStep(limit, s, e);
    CounterStep(limit, s, e);
    if !e.Store? {
      BalancedMove(s.counter, Owed(s), Moves(e), t.counter, Owed(t));
    }
  }

  /** `es` is a run from `s` to `t` whose every step satisfies `P`. */
  ghost predicate Leads(limit: nat, P: (State, Event) -> bool, s: State, es: seq<Event>, t: State)
    decreases |es|
  {
    if es == [] then s == t
    else Enabled(s, es[0]) && P(s, es[0]) && Leads(limit, P, Step(limit, s, es[0]), es[1..], t)
  }

  ghost predicate Reachable(limit: nat, P: (State, Event) -> bool, s: State) {
    exists es :: Leads(limit, P, INIT, es, s)
  }

  ghost predicate Anything(s: State, e: Event) { true }

  /** Under every interleaving whatever, the ledger balances. */
  lemma {:induction false} BalancedRun(limit: nat, s: State, es: seq<Event>, t: State)
    requires Leads(limit, Anything, s, es, t) && Balanced(s)
    ensures Balanced(t)
    decreases |es|
  {
    if es != [] {
      BalancedStep(limit, s, es[0]);
      BalancedRun(limit, Step(limit, s, es[0]), es[1..], t);
    }
  }

  // ---------------------------------------------------------------- paired runs

  /** Reconnects hit only clients in memory, no two connects for one id overlap, and
      reconciliation stores what it counted only if that is what the counter should show
      (with nothing in flight: if the map has not changed since). */
  predicate Guarded(s: State, e: Event) {
    && (e.Reconnect? ==> e.id in s.clients)
    && (e.Insert? && e.t in s.tasks && s.tasks[e.t].Reserved? ==> s.tasks[e.t].id !in s.clients)
    && (e.Store? ==> s.count == |s.clients| + |s.tasks|)
  }

  /** Fewer connections than a machine word can count. */
  ghost predicate Countable(s: State, e: Event) {
    |s.clients| + |s.tasks| + 1 < TWO64 && s.count < TWO64
  }

  ghost predicate Paired(s: State, e: Event) {
    Guarded(s, e) && Countable(s, e)
  }

  /** Tasks that own a granted slot. */
  function Holders(tasks: map<Task, Phase>): set<Task> {
    set t | t in tasks && !tasks[t].Refused?
  }

  ghost predicate Sound(limit: nat, s: State) {
    && s.counter == |s.clients| + |s.tasks|
    && s.drift == 0
    && |s.clients| + |Holders(s.tasks)| <= limit
  }

  lemma HoldersAtMostTasks(tasks: map<Task, Phase>)
    ensures |Holders(tasks)| <= |tasks|
  {
    assert tasks.Keys == Holders(tasks) + (tasks.Keys - Holders(tasks));
  }

  lemma HoldersPut(tasks: map<Task, Phase>, t: Task, p: Phase)
    ensures |Holders(tasks[t := p])|
         == |Holders(tasks)| - (if t in Holders(tasks) then 1 else 0) + (if p.Refused? then 0 else 1)
  {
    var rest := Holders(tasks) - {t};
    if p.Refused? {
      assert Holders(tasks[t := p]) == rest;
    } else {
      assert Holders(tasks[t := p]) == rest + {t};
    }
  }

  lemma HoldersTake(tasks: map<Task, Phase>, t: Task)
    ensures |Holders(tasks - {t})| == |Holders(tasks)| - if t in Holders(tasks) then 1 else 0
  {
    assert Holders(tasks - {t}) == Holders(tasks) - {t};
  }

  lemma HeldByTasks(limit: nat, s: State, e: Event)
    requires Enabled(s, e) && Sound(limit, s) && (e.Add? || e.Undo? || e.Release? || e.Abort?)
    ensures var t := Step(limit, s, e); |t.clients| + |Holders(t.tasks)| <= limit
  {
    match e
    case Add(x, id) =>
      HoldersAtMostTasks(s.tasks);
      HoldersPut(s.tasks, x, if s.counter >= limit then Refused else Reserved(id));
    case Undo(x) => HoldersTake(s.tasks, x);
    case Abort(x) => HoldersPut(s.tasks, x, Releasing);
    case Release(x) => HoldersTake(s.tasks, x);
  }

  lemma HeldByClients(limit: nat, s: State, e: Event)
    requires Enabled(s, e) && Paired(s, e) && Sound(limit, s) && (e.Insert? || e.Remove? || e.Reconnect?)
    ensures var t := Step(limit, s, e); |t.clients| + |Holders(t.tasks)| <= limit
  {
    match e
    case Insert(x) => HoldersTake(s.tasks, x);
    case Remove(x, id) => HoldersPut(s.tasks, x, Releasing);
    case Reconnect(id) => assert s.clients + {id} == s.clients;
  }

  lemma HeldStep(limit: nat, s: State, e: Event)
    requires Enabled(s, e) && Paired(s, e) && Sound(limit, s)
    ensures var t := Step(limit, s, e); |t.clients| + |Holders(t.tasks)| <= limit
  {
    if e.Add? || e.Undo? || e.Release? || e.Abort? {
      HeldByTasks(limit, s, e);
    } else if e.Insert? || e.Remove? || e.Reconnect? {
      HeldByClients(limit, s, e);
    }
  }

  lemma SizeStep(limit: nat, s: State, e: Event)
    requires Enabled(s, e) && Paired(s, e) && Sound(limit, s)
    ensures var t := Step(limit, s, e); t.drift == 0 && 0 <= Owed(t) < TWO64
  {
    OwedStep(limit, s, e);
    if e.Undo? || e.Release? {
      TakeTask(s.tasks, e.t);
    }
  }

  lemma WrapSmall(n: int)
    requires 0 <= n < TWO64
    ensures Wrap(n) == n
  {
  }

  lemma SoundStep(limit: nat, s: State, e: Event)
    requires Enabled(s, e) && Paired(s, e) && Sound(limit, s)
    ensures Sound(limit, Step(limit, s, e))
  {
    WrapSmall(Owed(s));
    BalancedStep(limit, s, e);
    SizeStep(limit, s, e);
    HeldStep(limit, s, e);
    WrapSmall(Owed(Step(limit, s, e)));
  }

  /** In every paired run the counter is exactly the clients plus the tasks in flight,
      granted slots never exceed the limit, and so neither does the client map. */
  lemma {:induction false} SoundRun(limit: nat, s: State, es: seq<Event>, t: State)
    requires Leads(limit, Paired, s, es, t) && Sound(limit, s)
    ensures Sound(limit, t)
    decreases |es|
  {
    if es != [] {
      SoundStep(limit, s, es[0]);
      SoundRun(limit, Step(limit, s, es[0]), es[1..], t);
    }
  }

  /** The counter is positive wherever it is decremented. */
  lemma NeverUnderflows(limit: nat, s: State, e: Event)
    requires Sound(limit, s) && Enabled(s, e) && (e.Undo? || e.Release?)
    ensures s.counter >= 1 && Step(limit, s, e).counter == s.counter - 1
  {
    TakeTask(s.tasks, e.t);
  }

  // ---------------------------------------------------------------- exactly when the pairing holds

  ghost predicate Exact(s: State) {
    s.counter == |s.clients| + |s.tasks|
  }

  /** Counter and tasks move together. */
  lemma ExactByTasks(limit: nat, s: State, e: Event)
    requires Enabled(s, e) && Countable(s, e) && Exact(s) && (e.Add? || e.Undo? || e.Release? || e.Abort?)
    ensures Exact(Step(limit, s, e))
  {
    match e
    case Add(t, id) => PutTask(s.tasks, t, if s.counter >= limit then Refused else Reserved(id));
    case Undo(t) => TakeTask(s.tasks, t);
    case Abort(t) => PutTask(s.tasks, t, Releasing);
    case Release(t) => TakeTask(s.tasks, t);
  }

  lemma ReconnectExactIff(clients: set<Id>, n: nat, id: Id)
    ensures |clients + {id}| + n == |clients| + n <==> id in clients
  {
    assert id in clients ==> clients + {id} == clients;
  }

  /** One step keeps the counter exact precisely when it is guarded. */
  lemma ExactStepIff(limit: nat, s: State, e: Event)
    requires Enabled(s, e) && Countable(s, e) && Exact(s)
    ensures Exact(Step(limit, s, e)) <==> Guarded(s, e)
  {
    if e.Add? || e.Undo? || e.Release? || e.Abort? {
      ExactByTasks(limit, s, e);
    } else {
      match e
      case Remove(t, id) => PutTask(s.tasks, t, Releasing);
      case Insert(t) => InsertExactIff(s.clients, s.tasks, t);
      case Reconnect(id) => ReconnectExactIff(s.clients, |s.tasks|, id);
      case Store => WrapSmall(s.count);
      case Count =>
    }
  }

  lemma InsertExactIff(clients: set<Id>, tasks: map<Task, Phase>, t: Task)
    requires t in tasks && tasks[t].Reserved?
    ensures |clients + {tasks[t].id}| + |tasks - {t}| == |clients| + |tasks| <==> tasks[t].id !in clients
  {
    TakeTask(tasks, t);
    assert tasks[t].id in clients ==> clients + {tasks[t].id} == clients;
  }

  /** The counter is exact at every moment of the run. */
  ghost predicate ExactThroughout(limit: nat, s: State, es: seq<Event>)
    decreases |es|
  {
    Exact(s) && (es == [] || (Enabled(s, es[0]) && ExactThroughout(limit, Step(limit, s, es[0]), es[1..])))
  }

  /** The counter is exact throughout a run precisely when every step of it is guarded:
      each unpaired reconnect, overlapping connect or untimely reconciliation breaks it. */
  lemma {:induction false} ExactThroughoutIff(limit: nat, s: State, es: seq<Event>, t: State)
    requires Leads(limit, Countable, s, es, t) && Exact(s)
    ensures ExactThroughout(limit, s, es) <==> Leads(limit, Guarded, s, es, t)
    decreases |es|
  {
    if es != [] {
      ExactStepIff(limit, s, es[0]);
      if Guarded(s, es[0]) {
        ExactThroughoutIff(limit, Step(limit, s, es[0]), es[1..], t);
      } else {
        assert !Exact(Step(limit, s, es[0]));
      }
    }
  }

  // ---------------------------------------------------------------- reconciliation

  predicate NoRecount(s: State, e: Event) {
    !e.Count?
  }

  lemma {:induction false} CountKept(limit: nat, s: State, es: seq<Event>, t: State)
    requires Leads(limit, NoRecount, s, es, t)
    ensures t.count == s.count
    decreases |es|
  {
    if es != [] {
      CountKept(limit, Step(limit, s, es[0]), es[1..], t);
    }
  }

  /** Reconciliation makes the counter the number of clients it counted, however far it had
      drifted; that repairs it exactly if by then as many clients and tasks exist. */
  lemma ReconcileRepairsIff(limit: nat, s: State, es: seq<Event>, t: State)
    requires Leads(limit, NoRecount, Step(limit, s, Count), es, t) && |s.clients| < TWO64
    ensures Step(limit, t, Store).counter == |s.clients|
    ensures Exact(Step(limit, t, Store)) <==> |t.clients| + |t.tasks| == |s.clients|
  {
    CountKept(limit, Step(limit, s, Count), es, t);
    WrapSmall(|s.clients|);
  }

  /** A reservation is refused exactly when clients and tasks in flight, refused ones included, fill the limit. */
  lemma RefusedIff(limit: nat, s: State, t: Task, id: Id)
    requires Sound(limit, s) && Enabled(s, Add(t, id))
    ensures Step(limit, s, Add(t, id)).tasks[t].Refused? <==> |s.clients| + |s.tasks| >= limit
  {
  }

  // ---------------------------------------------------------------- runs outside the promise

  lemma {:induction false} LeadsSnoc(limit: nat, P: (State, Event) -> bool, s: State, es: seq<Event>, t: State,
                                     e: Event)
    requires Leads(limit, P, s, es, t) && Enabled(t, e) && P(t, e)
    ensures Leads(limit, P, s, es + [e], Step(limit, t, e))
    decreases |es|
  {
    if es == [] {
      assert [] + [e] == [e] && [e][1..] == [];
      assert Leads(limit, P, Step(limit, s, e), [], Step(limit, t, e));
    } else {
      assert (es + [e])[1..] == es[1..] + [e];
      LeadsSnoc(limit, P, Step(limit, s, es[0]), es[1..], t, e);
    }
  }

  lemma ReachStep(limit: nat, P: (State, Event) -> bool, s: State, e: Event, t: State)
    requires Reachable(limit, P, s) && Enabled(s, e) && P(s, e) && t == Step(limit, s, e)
    ensures Reachable(limit, P, t)
  {
    var es :| Leads(limit, P, INIT, es, s);
    LeadsSnoc(limit, P, INIT, es, s, e);
  }

  lemma ReachInit(limit: nat, P: (State, Event) -> bool)
    ensures Reachable(limit, P, INIT)
  {
    assert Leads(limit, P, INIT, [], INIT);
  }

  lemma TwoAttempts()
    ensures Reachable(1, Paired, State(2, {}, map[1 := Reserved(7), 2 := Refused], 0, 0))
  {
    var s1 := State(1, {}, map[1 := Reserved(7)], 0, 0);
    var s2 := State(2, {}, map[1 := Reserved(7), 2 := Refused], 0, 0);
    ReachInit(1, Paired);
    ReachStep(1, Paired, INIT, Add(1, 7), s1);
    assert s1.tasks[2 := Refused] == s2.tasks;
    ReachStep(1, Paired, s1, Add(2, 8), s2);
  }

  /** "Returns false if the limit has been reached" is not exact: an attempt is refused
      with no slot held at all, because another refused attempt has not undone its fetch_add. */
  lemma RefusedWithNobodyConnected()
    ensures exists s :: (
      && Reachable(1, Paired, s) && Enabled(s, Add(3, 9))
      && s.clients == {} && Holders(s.tasks) == {}
      && Step(1, s, Add(3, 9)).tasks[3].Refused?)
  {
    TwoAttempts();
    var s2 := State(2, {}, map[1 := Reserved(7), 2 := Refused], 0, 0);
    var s3 := State(2, {}, map[1 := Releasing, 2 := Refused], 0, 0);
    var s4 := State(1, {}, map[2 := Refused], 0, 0);
    assert s2.tasks[1 := Releasing] == s3.tasks && s3.tasks - {1} == s4.tasks;
    ReachStep(1, Paired, s2, Abort(1), s3);
    ReachStep(1, Paired, s3, Release(1), s4);
    assert Holders(s4.tasks) == {};
  }

  /** A reconnect known only from Redis takes no slot; when it leaves, the counter
      wraps below zero and every further connect is refused on an empty server. */
  lemma RedisReconnectLocksOut(limit: nat)
    requires limit < TWO64
    ensures exists s :: (
      && Reachable(limit, Anything, s) && s.clients == {} && s.tasks == map[]
      && forall id :: Step(limit, s, Add(2, id)).tasks[2].Refused?)
  {
    var s1 := State(0, {7}, map[], 0, -1);
    var s2 := State(0, {}, map[1 := Releasing], 0, -1);
    var s3 := State(TWO64 - 1, {}, map[], 0, -1);
    ReachInit(limit, Anything);
    ReachStep(limit, Anything, INIT, Reconnect(7), s1);
    assert {7} - {7} == {};
    ReachStep(limit, Anything, s1, Remove(1, 7), s2);
    ReachStep(limit, Anything, s2, Release(1), s3);
    assert s3.clients == {} && s3.tasks == map[];
  }

  // ---------------------------------------------------------------- the counter in place

  /** The atomic counter; `machine` is the state of the whole protocol it belongs to. */
  class Counter {
    var activeConnections: Usize
    ghost var machine: State

    ghost predicate Valid()
      reads this
    {
      machine.counter == activeConnections
    }

    constructor ()
      ensures Valid() && machine == INIT
    {
      activeConnections, machine := 0, INIT;
    }

    /** Without interference: granted iff below the limit, whatever the counter shows,
        and a refusal is undone at once. */
    method TryReserveConnectionSlot(limit: nat, ghost t: Task, ghost id: Id) returns (ok: bool)
      requires Valid() && t !in machine.tasks
      modifies this
      ensures Valid() && (ok <==> old(activeConnections) < limit)
      ensures ok ==> machine == Step(limit, old(machine), Add(t, id)) && machine.tasks[t] == Reserved(id)
      ensures !ok ==> machine == old(machine)
    {
      var prev := activeConnections;
      activeConnections := FetchAdd(activeConnections);
      machine := Step(limit, machine, Add(t, id));
      if prev >= limit {
        activeConnections := FetchSub(activeConnections);
        machine := Step(limit, machine, Undo(t));
        assert machine.tasks == old(machine.tasks);
        return false;
      }
      return true;
    }

    /** A holder gives its slot back: the counter shows one less, without wrapping in a
        sound state, and a reservation afterwards would show what it showed before. */
    method ReleaseConnectionSlot(ghost limit: nat, ghost t: Task)
      requires Valid() && t in machine.tasks && machine.tasks[t].Releasing?
      modifies this
      ensures Valid() && machine == Step(limit, old(machine), Release(t))
      ensures FetchAdd(activeConnections) == old(activeConnections)
      ensures Sound(limit, old(machine)) ==> activeConnections == old(activeConnections) - 1 && Sound(limit, machine)
    {
      if Sound(limit, machine) {
        NeverUnderflows(limit, machine, Release(t));
        BalancedRelease(limit, machine, t);
      }
      activeConnections := FetchSub(activeConnections);
      machine := Step(limit, machine, Release(t));
    }
  }

  lemma BalancedRelease(limit: nat, s: State, t: Task)
    requires Sound(limit, s) && Enabled(s, Release(t))
    ensures Sound(limit, Step(limit, s, Release(t)))
  {
    TakeTask(s.tasks, t);
    HoldersTake(s.tasks, t);
    NeverUnderflows(limit, s, Release(t));
  }
}
