/**
 * Overlapping mutations of one shared virtual place: the queue decides who may run, every mutation
 * checks the names in its turn, and a publication counts as a file from its check to its end.
 */
module Hierarchy {
  import opened Layout
  import opened Paths
  import opened Namespace
  import Order = MutationOrder

  datatype Op =
    | Write(key: string)                  // and append
    | Unlink(key: string, directory: bool)
    | Mkdir(key: string)
    | Rm(key: string, directory: bool, recursive: bool)
    | Rename(from: string, to: string, directory: bool)

  /** What a running mutation is doing. */
  datatype Flight =
    | Creating(key: string, gone: set<string>)  // publishing `key`, removing `gone` with it
    | Published(key: string)                    // committed or failed, `key` still counted
    | Moving(from: string, to: string)
    | Finished

  datatype State = State(queue: Order.Queue, ops: map<nat, Op>, flights: map<nat, Flight>, sources: set<string>, creating: set<string>)

  const PLACE := "place"

  const Initial := State(Order.Empty, map[], map[], {}, {})

  predicate CanonicalOp(op: Op) {
    match op
    case Rename(from, to, _) => Canonical(from) && Canonical(to)
    case _ => Canonical(op.key)
  }

  /** The keys an operation locks when it arrives, or none for the place barrier. */
  function KeysOf(sources: set<string>, op: Op): Option<set<string>> {
    match op
    case Rm(_, _, _) => None
    case Rename(from, to, directory) => if !directory && from in sources then Some({from, to}) else None
    case _ => Some({op.key})
  }

  function Running(q: Order.Queue): set<nat> {
    q.started - q.settled
  }

  datatype Event =
    | Arrive(op: Op)
    | Begin(id: nat, refuse: bool)   // a further refusal: prepared, exclusive, immovable
    | Commit(id: nat)
    | Fail(id: nat)
    | End(id: nat)
    | Release(id: nat)

  ghost predicate Enabled(s: State, ev: Event) {
    match ev
    case Arrive(op) => CanonicalOp(op)
    case Begin(i, _) => Order.Startable(s.queue, i) && i in s.ops
    case Commit(i) => i in s.flights && (s.flights[i].Creating? || s.flights[i].Moving?)
    case Fail(i) => i in s.flights && (s.flights[i].Creating? || s.flights[i].Moving?)
    case End(i) => i in s.flights && (s.flights[i].Published? || s.flights[i].Finished?) && i in Running(s.queue)
    case Release(i) => Order.Enabled(s.queue, Order.Release(i))
  }

  ghost function Next(s: State, ev: Event): State
    requires Enabled(s, ev)
  {
    match ev
    case Arrive(op) =>
      var keys := KeysOf(s.sources, op);
      s.(queue := Order.AfterRun(s.queue, PLACE, keys.None?, if keys.Some? then keys.value else {}),
         ops := s.ops[|s.queue.tasks| := op])
    case Begin(i, refuse) => Begun(s.(queue := Order.AfterStart(s.queue, i)), i, s.ops[i], refuse)
    case Commit(i) => Committed(s, i)
    case Fail(i) => s.(flights := s.flights[i := if s.flights[i].Creating? then Published(s.flights[i].key) else Finished])
    case End(i) =>
      s.(queue := Order.AfterSettle(s.queue, i), flights := s.flights - {i},
         creating := if s.flights[i].Published? then s.creating - {s.flights[i].key} else s.creating)
    case Release(i) => s.(queue := Order.AfterRelease(s.queue, i))
  }

  function Fly(s: State, i: nat, flight: Flight): State {
    s.(flights := s.flights[i := flight], creating := if flight.Creating? then s.creating + {flight.key} else s.creating)
  }

  /** The synchronous part of a mutation: its checks, and all it does at once. */
  ghost function Begun(s: State, i: nat, op: Op, refuse: bool): State {
    if refuse then Fly(s, i, Finished) else
    match op
    case Write(key) => Create(s, i, key, {})
    case Unlink(key, directory) =>
      Fly(if !directory then s.(sources := s.sources - {key}) else s, i, Finished)
    case Mkdir(_) => Fly(s, i, Finished)
    case Rm(key, directory, recursive) =>
      Fly(if !directory && key in s.sources then s.(sources := s.sources - {key})
          else if recursive then s.(sources := s.sources - SourcesUnder(s.sources, key))
          else s, i, Finished)
    case Rename(from, to, directory) =>
      if from !in s.sources && i < |s.queue.tasks| && s.queue.tasks[i].exclusive && IsDirectory(s.sources, from) then
        Fly(s, i, if CheckMove(s.sources, s.creating, from, to).None? then Moving(from, to) else Finished)
      else if from !in s.sources || directory then Fly(s, i, Finished)
      else Create(s, i, to, {from})
  }

  ghost function Create(s: State, i: nat, key: string, gone: set<string>): State {
    Fly(s, i, if CheckHierarchy(s.sources, s.creating, key).None? then Creating(key, gone) else Finished)
  }

  ghost function Committed(s: State, i: nat): State
    requires i in s.flights && (s.flights[i].Creating? || s.flights[i].Moving?)
  {
    match s.flights[i]
    case Creating(key, gone) => s.(sources := s.sources - gone + {key}, flights := s.flights[i := Published(key)])
    case Moving(from, to) => s.(sources := MovedSources(s.sources, from, to), flights := s.flights[i := Finished])
  }

  // --- The invariant ---

  /** Every task locks the keys its flight counts, or the whole place. */
  ghost predicate Locks(q: Order.Queue, i: nat, flight: Flight) {
    && i < |q.tasks| && i in Running(q)
    && (flight.Creating? || flight.Published? ==> q.tasks[i].exclusive || flight.key in q.tasks[i].keys)
    && (flight.Moving? ==> q.tasks[i].exclusive)
  }

  ghost predicate Counted(flights: map<nat, Flight>, creating: set<string>) {
    && (forall i :: i in flights && (flights[i].Creating? || flights[i].Published?) ==> flights[i].key in creating)
    && (forall k :: k in creating ==> exists i :: i in flights && (flights[i].Creating? || flights[i].Published?) && flights[i].key == k)
  }

  ghost predicate TasksInv(q: Order.Queue, ops: map<nat, Op>) {
    && (forall i :: 0 <= i < |q.tasks| ==> q.tasks[i].place == PLACE && (q.tasks[i].exclusive || q.tasks[i].keys != {}))
    && (forall i :: i in ops <==> 0 <= i < |q.tasks|)
    && (forall i :: i in ops ==> CanonicalOp(ops[i]) && Holds(q.tasks[i], ops[i]))
  }

  /** The task of an operation locks every key it may create. */
  predicate Holds(task: Order.Task, op: Op) {
    task.exclusive || match op
      case Write(key) => key in task.keys
      case Rename(_, to, _) => to in task.keys
      case _ => true
  }

  ghost predicate FlightLocks(q: Order.Queue, flights: map<nat, Flight>) {
    forall i :: i in flights ==> Locks(q, i, flights[i])
  }

  ghost predicate NamesInv(sources: set<string>, creating: set<string>) {
    AllCanonical(sources + creating) && Antichain(sources + creating)
  }

  /** While a subtree moves nothing is being created, and the move stays possible. */
  ghost predicate MovingInv(flights: map<nat, Flight>, sources: set<string>, creating: set<string>) {
    forall i :: i in flights && flights[i].Moving? ==> creating == {} && MayMove(sources, flights[i].from, flights[i].to)
  }

  ghost predicate MayMove(sources: set<string>, from: string, to: string) {
    Canonical(from) && Canonical(to) && CheckMove(sources, {}, from, to).None?
  }

  ghost predicate Inv(s: State) {
    && Order.Inv(s.queue)
    && TasksInv(s.queue, s.ops)
    && FlightLocks(s.queue, s.flights)
    && Counted(s.flights, s.creating)
    && NamesInv(s.sources, s.creating)
    && MovingInv(s.flights, s.sources, s.creating)
  }

  /** Two running mutations never conflict, whichever came first. */
  lemma RunningApart(q: Order.Queue, i: nat, j: nat)
    requires Order.Inv(q) && i in Running(q) && j in Running(q) && i != j && i < |q.tasks| && j < |q.tasks|
    requires q.tasks[j].exclusive || q.tasks[j].keys != {}
    ensures !Order.Conflict(q.tasks[i], q.tasks[j])
  {
    hide Order.LocksInv, Order.Guarded, Order.Conflict;
    if Order.Conflict(q.tasks[i], q.tasks[j]) {
      if i < j {
        Order.EarlierEnded(q, i, j);
      } else {
        ConflictBack(q.tasks[i], q.tasks[j]);
        Order.EarlierEnded(q, j, i);
      }
    }
  }

  lemma ConflictBack(a: Order.Task, b: Order.Task)
    requires Order.Conflict(a, b) && (b.exclusive || b.keys != {})
    ensures Order.Conflict(b, a)
  {
    assert a.keys * b.keys == b.keys * a.keys;
  }

  // --- Every event keeps it ---

  lemma ArriveKeepsInv(s: State, op: Op)
    requires Inv(s) && CanonicalOp(op)
    ensures Inv(Next(s, Arrive(op)))
  {
    hide Order.Inv, Counted, NamesInv, MovingInv, TasksInv, FlightLocks;
    var keys := KeysOf(s.sources, op);
    var held := if keys.Some? then keys.value else {};
    Order.RunKeepsInv(s.queue, PLACE, keys.None?, held);
    ArriveTasks(s.queue, s.ops, op, keys);
    ArriveLocks(s.queue, s.flights, keys.None?, held);
  }

  lemma ArriveTasks(q: Order.Queue, ops: map<nat, Op>, op: Op, keys: Option<set<string>>)
    requires TasksInv(q, ops) && CanonicalOp(op) && (exists sources :: keys == KeysOf(sources, op))
    ensures TasksInv(Order.AfterRun(q, PLACE, keys.None?, if keys.Some? then keys.value else {}), ops[|q.tasks| := op])
  {
    hide Order.PriorOf, Order.Locked, Canonical;
  }

  lemma ArriveLocks(q: Order.Queue, flights: map<nat, Flight>, exclusive: bool, keys: set<string>)
    requires FlightLocks(q, flights)
    ensures FlightLocks(Order.AfterRun(q, PLACE, exclusive, keys), flights)
  {
    hide Order.PriorOf, Order.Locked;
  }

  /** Starting a task keeps the queue in order, and it conflicts with none that runs. */
  lemma StartsApart(q: Order.Queue, ops: map<nat, Op>, flights: map<nat, Flight>, i: nat)
    requires Order.Inv(q) && TasksInv(q, ops) && FlightLocks(q, flights) && Order.Startable(q, i)
    ensures Order.Inv(Order.AfterStart(q, i)) && i !in flights
    ensures forall j :: j in flights ==> j < |q.tasks| && !Order.Conflict(q.tasks[j], q.tasks[i])
  {
    Order.StartKeepsInv(q, i);
    var started := Order.AfterStart(q, i);
    hide Order.Inv, Order.Conflict;
    forall j | j in flights ensures !Order.Conflict(q.tasks[j], q.tasks[i]) {
      assert Locks(q, j, flights[j]);
      RunningApart(started, j, i);
    }
  }

  /** An exclusive task starts alone, and nothing starts beside one. */
  lemma ExclusiveAlone(q: Order.Queue, ops: map<nat, Op>, flights: map<nat, Flight>, creating: set<string>, i: nat)
    requires Order.Inv(q) && TasksInv(q, ops) && FlightLocks(q, flights) && Counted(flights, creating) && Order.Startable(q, i)
    ensures q.tasks[i].exclusive ==> flights == map[] && creating == {}
    ensures forall j :: j in flights ==> !flights[j].Moving?
  {
    StartsApart(q, ops, flights, i);
    hide Order.Inv;
    forall j | j in flights ensures !flights[j].Moving? && !q.tasks[i].exclusive {
      assert Locks(q, j, flights[j]);
    }
    if q.tasks[i].exclusive {
      assert flights == map[];
    }
  }

  lemma FlyCounted(flights: map<nat, Flight>, creating: set<string>, i: nat, flight: Flight)
    requires Counted(flights, creating) && i !in flights && !flight.Published?
    ensures Counted(flights[i := flight], if flight.Creating? then creating + {flight.key} else creating)
  {
    var after := flights[i := flight];
    forall k | k in creating ensures exists j :: j in after && (after[j].Creating? || after[j].Published?) && after[j].key == k {
      var j :| j in flights && (flights[j].Creating? || flights[j].Published?) && flights[j].key == k;
      assert j in after && after[j] == flights[j];
    }
    assert flight.Creating? ==> i in after && after[i].key == flight.key;
  }

  lemma FlyLocks(q: Order.Queue, flights: map<nat, Flight>, i: nat, flight: Flight)
    requires FlightLocks(q, flights) && Locks(Order.AfterStart(q, i), i, flight)
    ensures FlightLocks(Order.AfterStart(q, i), flights[i := flight])
  {
  }

  lemma StartTasks(q: Order.Queue, ops: map<nat, Op>, i: nat)
    requires TasksInv(q, ops)
    ensures TasksInv(Order.AfterStart(q, i), ops)
  {
  }

  /** A flight of a task that just started. */
  lemma FlyKeepsInv(s: State, i: nat, flight: Flight)
    requires Inv(s) && Order.Startable(s.queue, i)
    requires !flight.Published? && Locks(Order.AfterStart(s.queue, i), i, flight)
    requires flight.Creating? ==> NamesInv(s.sources, s.creating + {flight.key})
    requires flight.Moving? ==> MayMove(s.sources, flight.from, flight.to)
    ensures Inv(Fly(s.(queue := Order.AfterStart(s.queue, i)), i, flight))
  {
    hide Order.Inv, Order.Startable, TasksInv, FlightLocks, Counted, NamesInv, MayMove, Locks;
    StartsApart(s.queue, s.ops, s.flights, i);
    Alone(s, i);
    StartTasks(s.queue, s.ops, i);
    FlyCounted(s.flights, s.creating, i, flight);
    FlyLocks(s.queue, s.flights, i, flight);
    MovingExclusive(s.queue, i, flight);
  }

  lemma MovingExclusive(q: Order.Queue, i: nat, flight: Flight)
    requires Locks(Order.AfterStart(q, i), i, flight)
    ensures i < |q.tasks| && (flight.Moving? ==> q.tasks[i].exclusive)
  {
  }

  lemma Alone(s: State, i: nat)
    requires Inv(s) && Order.Startable(s.queue, i)
    ensures i < |s.queue.tasks| && (s.queue.tasks[i].exclusive ==> s.flights == map[] && s.creating == {})
    ensures forall j :: j in s.flights ==> !s.flights[j].Moving?
  {
    hide Order.Inv, TasksInv, FlightLocks, Counted, NamesInv, MayMove, Locks;
    ExclusiveAlone(s.queue, s.ops, s.flights, s.creating, i);
  }

  /** Removing sources cannot break the hierarchy. */
  lemma FewerKeepInv(s: State, gone: set<string>)
    requires Inv(s) && forall j :: j in s.flights ==> !s.flights[j].Moving?
    ensures Inv(s.(sources := s.sources - gone))
  {
    hide Order.Inv, TasksInv, FlightLocks, Counted, MayMove, Canonical;
  }

  /** The operation of a task about to start names canonical keys it holds. */
  lemma Starting(q: Order.Queue, ops: map<nat, Op>, i: nat)
    requires TasksInv(q, ops) && Order.StepInv(q) && i in ops && Order.Startable(q, i)
    ensures CanonicalOp(ops[i]) && i < |q.tasks| && Holds(q.tasks[i], ops[i])
    ensures forall flight: Flight :: !flight.Creating? && !flight.Published? && (flight.Moving? ==> q.tasks[i].exclusive) ==>
      Locks(Order.AfterStart(q, i), i, flight)
    ensures forall flight: Flight :: flight.Creating? && (q.tasks[i].exclusive || flight.key in q.tasks[i].keys) ==>
      Locks(Order.AfterStart(q, i), i, flight)
  {
    hide Canonical;
  }

  lemma CreateKeepsInv(s: State, i: nat, key: string, gone: set<string>)
    requires Inv(s) && Order.Startable(s.queue, i) && i in s.ops && Canonical(key)
    requires s.queue.tasks[i].exclusive || key in s.queue.tasks[i].keys
    ensures Inv(Create(s.(queue := Order.AfterStart(s.queue, i)), i, key, gone))
  {
    Starting(s.queue, s.ops, i);
    if CheckHierarchy(s.sources, s.creating, key).None? {
      CreateKeepsAntichain(s.sources, s.creating, key);
      assert s.sources + (s.creating + {key}) == s.sources + s.creating + {key};
      assert NamesInv(s.sources, s.creating + {key});
      hide Inv, Fly, NamesInv;
      FlyKeepsInv(s, i, Creating(key, gone));
    } else {
      hide Inv, Fly;
      FlyKeepsInv(s, i, Finished);
    }
  }

  lemma BeginKeepsInv(s: State, i: nat, refuse: bool)
    requires Inv(s) && Enabled(s, Begin(i, refuse))
    ensures Inv(Next(s, Begin(i, refuse)))
  {
    hide TasksInv, FlightLocks, Counted, NamesInv, MovingInv, Locks, Order.LocksInv, Order.PriorInv, Order.OrderInv, Order.Guarded, Order.StepInv,
      Fly, Create, Antichain, AllCanonical, Canonical, CheckMove, CheckHierarchy, IsDirectory, SourcesUnder, MayMove;
    ExclusiveAlone(s.queue, s.ops, s.flights, s.creating, i);
    Starting(s.queue, s.ops, i);
    hide Inv;
    if refuse {
      FlyKeepsInv(s, i, Finished);
    } else {
      match s.ops[i]
      case Write(key) => CreateKeepsInv(s, i, key, {});
      case Unlink(key, directory) => RemoveKeepsInv(s, i, if directory then {} else {key});
      case Mkdir(_) => FlyKeepsInv(s, i, Finished);
      case Rm(key, directory, recursive) =>
        RemoveKeepsInv(s, i, if !directory && key in s.sources then {key} else if recursive then SourcesUnder(s.sources, key) else {});
      case Rename(from, to, directory) =>
        if from !in s.sources && s.queue.tasks[i].exclusive && IsDirectory(s.sources, from) {
          MoveBegins(s, i, from, to);
        } else if from !in s.sources || directory {
          FlyKeepsInv(s, i, Finished);
        } else {
          CreateKeepsInv(s, i, to, {from});
        }
    }
  }

  lemma RemoveKeepsInv(s: State, i: nat, gone: set<string>)
    requires Inv(s) && Order.Startable(s.queue, i) && i in s.ops && forall j :: j in s.flights ==> !s.flights[j].Moving?
    ensures Inv(Fly(s.(queue := Order.AfterStart(s.queue, i), sources := s.sources - gone), i, Finished))
    ensures gone == {} ==> s.sources - gone == s.sources
  {
    FewerKeepInv(s, gone);
    Starting(s.queue, s.ops, i);
    hide Inv, Fly;
    FlyKeepsInv(s.(sources := s.sources - gone), i, Finished);
  }

  lemma MoveBegins(s: State, i: nat, from: string, to: string)
    requires Inv(s) && Order.Startable(s.queue, i) && i in s.ops && Canonical(from) && Canonical(to) && s.queue.tasks[i].exclusive
    ensures Inv(Fly(s.(queue := Order.AfterStart(s.queue, i)), i, if CheckMove(s.sources, s.creating, from, to).None? then Moving(from, to) else Finished))
  {
    ExclusiveAlone(s.queue, s.ops, s.flights, s.creating, i);
    Starting(s.queue, s.ops, i);
    hide Inv, Fly, CheckMove;
    FlyKeepsInv(s, i, if CheckMove(s.sources, s.creating, from, to).None? then Moving(from, to) else Finished);
  }

  /** A publication counted as a file becomes one. */
  lemma CommitKeepsInv(s: State, i: nat)
    requires Inv(s) && Enabled(s, Commit(i))
    ensures Inv(Next(s, Commit(i)))
  {
    hide Order.Inv, TasksInv, MayMove;
    if s.flights[i].Creating? {
      NamesSubset(s.sources, s.creating, s.sources - s.flights[i].gone + {s.flights[i].key}, s.creating);
      Republished(s.queue, s.flights, s.creating, i);
      hide NamesInv, Counted, FlightLocks;
    } else {
      MovingAlone(s.queue, s.ops, s.flights, i);
      MoveNames(s.sources, s.flights[i].from, s.flights[i].to);
      hide NamesInv, MovedSources, Locks;
      FinishedCounted(s.flights, s.creating, i);
      hide Counted;
    }
  }

  lemma NamesSubset(sources: set<string>, creating: set<string>, sources': set<string>, creating': set<string>)
    requires NamesInv(sources, creating) && sources' + creating' <= sources + creating
    ensures NamesInv(sources', creating')
  {
    hide Canonical;
  }

  /** A publication that ended keeps its lock and is still counted. */
  lemma Republished(q: Order.Queue, flights: map<nat, Flight>, creating: set<string>, i: nat)
    requires FlightLocks(q, flights) && Counted(flights, creating) && i in flights && flights[i].Creating?
    ensures FlightLocks(q, flights[i := Published(flights[i].key)]) && Counted(flights[i := Published(flights[i].key)], creating)
  {
    var after := flights[i := Published(flights[i].key)];
    forall k | k in creating ensures exists j :: j in after && (after[j].Creating? || after[j].Published?) && after[j].key == k {
      var j :| j in flights && (flights[j].Creating? || flights[j].Published?) && flights[j].key == k;
      assert j in after && (after[j].Creating? || after[j].Published?) && after[j].key == k;
    }
    assert Locks(q, i, flights[i]);
  }

  /** While a subtree moves nothing else runs. */
  lemma MovingAlone(q: Order.Queue, ops: map<nat, Op>, flights: map<nat, Flight>, i: nat)
    requires Order.Inv(q) && TasksInv(q, ops) && FlightLocks(q, flights) && i in flights && flights[i].Moving?
    ensures forall j :: j in flights ==> j == i
    ensures FlightLocks(q, flights[i := Finished])
  {
    hide Order.Inv;
    assert Locks(q, i, flights[i]);
    forall j | j in flights ensures j == i {
      assert Locks(q, j, flights[j]);
      if j != i {
        RunningApart(q, i, j);
      }
    }
  }

  lemma MoveNames(sources: set<string>, from: string, to: string)
    requires NamesInv(sources, {}) && MayMove(sources, from, to)
    ensures NamesInv(MovedSources(sources, from, to), {})
  {
    assert sources + {} == sources;
    MoveKeepsAntichain(sources, from, to);
    var after := MovedSources(sources, from, to);
    assert after + {} == after;
    forall k | k in after ensures Canonical(k) {
      if !(k in sources && !Under(k, from)) {
        var h :| h in sources && Under(h, from) && k == MovedKey(from, to, h);
        MovedCanonical(from, to, h);
      }
    }
  }

  lemma FinishedCounted(flights: map<nat, Flight>, creating: set<string>, i: nat)
    requires Counted(flights, creating) && i in flights && !flights[i].Creating? && !flights[i].Published?
    ensures Counted(flights[i := Finished], creating)
  {
    var after := flights[i := Finished];
    forall k | k in creating ensures exists j :: j in after && (after[j].Creating? || after[j].Published?) && after[j].key == k {
      var j :| j in flights && (flights[j].Creating? || flights[j].Published?) && flights[j].key == k;
      assert j in after && (after[j].Creating? || after[j].Published?) && after[j].key == k;
    }
  }

  lemma FailKeepsInv(s: State, i: nat)
    requires Inv(s) && Enabled(s, Fail(i))
    ensures Inv(Next(s, Fail(i)))
  {
    hide Order.Inv, TasksInv, NamesInv, MayMove;
    if s.flights[i].Creating? {
      Republished(s.queue, s.flights, s.creating, i);
      hide Counted, FlightLocks;
    } else {
      MovingAlone(s.queue, s.ops, s.flights, i);
      FinishedCounted(s.flights, s.creating, i);
      hide Counted, FlightLocks;
    }
  }

  /** No other running mutation counts the same key. */
  lemma CountedOnce(q: Order.Queue, ops: map<nat, Op>, flights: map<nat, Flight>, i: nat, j: nat)
    requires Order.Inv(q) && TasksInv(q, ops) && FlightLocks(q, flights) && i in flights && j in flights && i != j
    requires (flights[i].Creating? || flights[i].Published?) && (flights[j].Creating? || flights[j].Published?)
    ensures flights[i].key != flights[j].key
  {
    hide Order.Inv, Order.Conflict;
    assert Locks(q, i, flights[i]) && Locks(q, j, flights[j]);
    if flights[i].key == flights[j].key {
      SameKeyConflicts(q.tasks[i], q.tasks[j], flights[i].key);
      RunningApart(q, i, j);
    }
  }

  lemma SameKeyConflicts(a: Order.Task, b: Order.Task, key: string)
    requires a.place == b.place && (a.exclusive || key in a.keys) && (b.exclusive || key in b.keys) && (a.exclusive || a.keys != {})
    ensures Order.Conflict(a, b)
  {
    assert !a.exclusive && !b.exclusive ==> key in a.keys * b.keys;
  }

  lemma EndKeepsInv(s: State, i: nat)
    requires Inv(s) && Enabled(s, End(i))
    ensures Inv(Next(s, End(i)))
  {
    hide MayMove, Order.Inv, Locks, TasksInv, FlightLocks, NamesInv, Counted;
    Order.SettleKeepsInv(s.queue, i);
    EndLocks(s.queue, s.flights, i);
    SettleTasks(s.queue, s.ops, i);
    var left := if s.flights[i].Published? then s.creating - {s.flights[i].key} else s.creating;
    forall j | j in s.flights && j != i && s.flights[i].Published? && (s.flights[j].Creating? || s.flights[j].Published?)
      ensures s.flights[j].key != s.flights[i].key
    {
      CountedOnce(s.queue, s.ops, s.flights, i, j);
    }
    EndCounted(s.flights, s.creating, i);
    NamesSubset(s.sources, s.creating, s.sources, left);
  }

  lemma SettleTasks(q: Order.Queue, ops: map<nat, Op>, i: nat)
    requires TasksInv(q, ops)
    ensures TasksInv(Order.AfterSettle(q, i), ops)
  {
  }

  lemma EndLocks(q: Order.Queue, flights: map<nat, Flight>, i: nat)
    requires FlightLocks(q, flights)
    ensures FlightLocks(Order.AfterSettle(q, i), flights - {i})
  {
  }

  lemma EndCounted(flights: map<nat, Flight>, creating: set<string>, i: nat)
    requires Counted(flights, creating) && i in flights && !flights[i].Creating?
    requires forall j :: j in flights && j != i && flights[i].Published? && (flights[j].Creating? || flights[j].Published?) ==> flights[j].key != flights[i].key
    ensures Counted(flights - {i}, if flights[i].Published? then creating - {flights[i].key} else creating)
  {
    var after := flights - {i};
    forall k | k in creating && !(flights[i].Published? && k == flights[i].key)
      ensures exists j :: j in after && (after[j].Creating? || after[j].Published?) && after[j].key == k
    {
      var j :| j in flights && (flights[j].Creating? || flights[j].Published?) && flights[j].key == k;
      assert j in after && after[j] == flights[j];
    }
  }

  lemma ReleaseKeepsInv(s: State, i: nat)
    requires Inv(s) && Enabled(s, Release(i))
    ensures Inv(Next(s, Release(i)))
  {
    hide Order.Inv, Counted, NamesInv, MovingInv, TasksInv, FlightLocks, Order.Unlocks;
    Order.ReleaseKeepsInv(s.queue, i);
    ReleaseTasks(s.queue, s.ops, s.flights, i);
  }

  lemma ReleaseTasks(q: Order.Queue, ops: map<nat, Op>, flights: map<nat, Flight>, i: nat)
    requires TasksInv(q, ops) && FlightLocks(q, flights) && i < |q.tasks|
    ensures TasksInv(Order.AfterRelease(q, i), ops) && FlightLocks(Order.AfterRelease(q, i), flights)
  {
    hide Order.Unlocks;
  }

  lemma StepKeepsInv(s: State, ev: Event)
    requires Inv(s) && Enabled(s, ev)
    ensures Inv(Next(s, ev))
  {
    match ev
    case Arrive(op) => ArriveKeepsInv(s, op);
    case Begin(i, refuse) => BeginKeepsInv(s, i, refuse);
    case Commit(i) => CommitKeepsInv(s, i);
    case Fail(i) => FailKeepsInv(s, i);
    case End(i) => EndKeepsInv(s, i);
    case Release(i) => ReleaseKeepsInv(s, i);
  }

  // --- Runs ---

  ghost predicate IsRun(states: seq<State>, events: seq<Event>) {
    && |states| == |events| + 1 && states[0] == Initial
    && forall i :: 0 <= i < |events| ==> Enabled(states[i], events[i]) && states[i + 1] == Next(states[i], events[i])
  }

  lemma {:induction false} RunInv(states: seq<State>, events: seq<Event>, n: nat)
    requires IsRun(states, events) && n < |states|
    ensures Inv(states[n])
  {
    hide Inv, Next, Enabled;
    if n == 0 {
      InitialInv();
    } else {
      RunInv(states, events, n - 1);
      StepKeepsInv(states[n - 1], events[n - 1]);
    }
  }

  lemma InitialInv()
    ensures Inv(Initial)
  {
    Order.EmptyInv();
  }

  /**
   * However writes, removals, file renames and subtree renames overlap, published files and files
   * being created never lie above or below one another.
   */
  lemma HierarchyUnderOverlap(states: seq<State>, events: seq<Event>, n: nat)
    requires IsRun(states, events) && n < |states|
    ensures Antichain(states[n].sources + states[n].creating)
    ensures forall path :: path in states[n].sources ==> !IsDirectory(states[n].sources, path)
  {
    RunInv(states, events, n);
    hide IsRun, Order.Inv, TasksInv, FlightLocks, Counted, MovingInv;
    forall path | path in states[n].sources ensures !IsDirectory(states[n].sources, path) {
      PathIsOneThing(states[n].sources, path);
    }
  }
}
