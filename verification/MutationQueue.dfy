/** Ordering of mutations: per-key queues with an exclusive barrier, and who waits for whom. */
module MutationOrder {
  import opened Layout

  /**
   * One mutation of a place, numbered by arrival. `keys` is empty for an exclusive task; `prior`
   * are the tasks whose end it awaits.
   */
  datatype Task = Task(place: string, exclusive: bool, keys: set<string>, prior: set<nat>)

  /** The last queued task per key, and the last exclusive one. */
  datatype Locks = Locks(keys: map<string, nat>, barrier: Option<nat>)

  const Unlocked := Locks(map[], None)

  datatype Queue = Queue(places: map<string, Locks>, tasks: seq<Task>, started: set<nat>, settled: set<nat>, released: set<nat>) {
    function LocksOf(place: string): Locks {
      if place in places then places[place] else Unlocked
    }
  }

  /** Tasks that must not overlap, the earlier one first. */
  predicate Conflict(earlier: Task, later: Task) {
    && earlier.place == later.place
    && (|| earlier.exclusive
        || (later.exclusive && earlier.keys != {})
        || earlier.keys * later.keys != {})
  }

  /** Task i, not settled yet, is waited for by whoever queues behind what is locked now. */
  ghost predicate Guarded(q: Queue, i: nat)
    requires i < |q.tasks|
  {
    var locks := q.LocksOf(q.tasks[i].place);
    && (q.tasks[i].exclusive ==> locks.barrier.Some? && locks.barrier.value >= i)
    && (!q.tasks[i].exclusive ==> forall k :: k in q.tasks[i].keys ==>
         || (k in locks.keys && locks.keys[k] >= i)
         || (locks.barrier.Some? && locks.barrier.value > i))
  }

  ghost predicate TailOf(q: Queue, place: string, k: string, t: nat) {
    t < |q.tasks| && q.tasks[t].place == place && !q.tasks[t].exclusive && k in q.tasks[t].keys && t !in q.released
  }

  ghost predicate BarrierOf(q: Queue, place: string, b: nat) {
    b < |q.tasks| && q.tasks[b].place == place && q.tasks[b].exclusive && b !in q.released
  }

  /** What is locked names tasks of that place that are still queued or running. */
  ghost predicate LocksInv(q: Queue) {
    && (forall p, k :: p in q.places && k in q.places[p].keys ==> TailOf(q, p, k, q.places[p].keys[k]))
    && (forall p :: p in q.places && q.places[p].barrier.Some? ==> BarrierOf(q, p, q.places[p].barrier.value))
    && (forall p :: p in q.places ==> q.places[p] != Unlocked)
  }

  /** A task awaits only earlier tasks it conflicts with. */
  ghost predicate PriorInv(tasks: seq<Task>) {
    forall j, m {:trigger m in tasks[j].prior} :: 0 <= j < |tasks| && m in tasks[j].prior ==> m < j && Conflict(tasks[m], tasks[j])
  }

  /** Every earlier conflicting task has ended, is awaited, or is awaited by one that is. */
  ghost predicate OrderInv(q: Queue) {
    forall i, j :: 0 <= i < j < |q.tasks| && Conflict(q.tasks[i], q.tasks[j]) ==> i in q.settled || Awaited(q.tasks, i, j)
  }

  ghost predicate Awaited(tasks: seq<Task>, i: nat, j: nat)
    requires i < |tasks| && j < |tasks|
  {
    exists m :: m in tasks[j].prior && m < |tasks| && (m == i || (i < m && Conflict(tasks[i], tasks[m])))
  }

  ghost predicate StepInv(q: Queue) {
    && q.released <= q.settled <= q.started
    && (forall i :: i in q.started ==> i < |q.tasks| && q.tasks[i].prior <= q.settled)
  }

  ghost predicate Inv(q: Queue) {
    && LocksInv(q)
    && PriorInv(q.tasks)
    && StepInv(q)
    && OrderInv(q)
    && forall i :: 0 <= i < |q.tasks| && i !in q.settled ==> Guarded(q, i)
  }

  const Empty := Queue(map[], [], {}, {}, {})

  // --- Steps ---

  /** The tasks a new one awaits: the barrier, and the tails of its keys or of all keys. */
  function PriorOf(locks: Locks, exclusive: bool, keys: set<string>): set<nat> {
    (if locks.barrier.Some? then {locks.barrier.value} else {}) +
    if exclusive then locks.keys.Values else set k | k in keys && k in locks.keys :: locks.keys[k]
  }

  function Locked(locks: Locks, exclusive: bool, keys: set<string>, id: nat): Locks {
    if exclusive then Locks(map[], Some(id))
    else Locks(map k | k in locks.keys.Keys + keys :: if k in keys then id else locks.keys[k], locks.barrier)
  }

  function AfterRun(q: Queue, place: string, exclusive: bool, keys: set<string>): Queue {
    var locks := q.LocksOf(place);
    var after := Locked(locks, exclusive, keys, |q.tasks|);
    q.(places := if after == Unlocked then q.places - {place} else q.places[place := after],
       tasks := q.tasks + [Task(place, exclusive, if exclusive then {} else keys, PriorOf(locks, exclusive, keys))])
  }

  predicate Startable(q: Queue, i: nat) {
    i < |q.tasks| && i !in q.started && q.tasks[i].prior <= q.settled
  }

  function AfterStart(q: Queue, i: nat): Queue {
    q.(started := q.started + {i})
  }

  function AfterSettle(q: Queue, i: nat): Queue {
    q.(settled := q.settled + {i})
  }

  function Unlocks(locks: Locks, t: Task, i: nat): Locks {
    if t.exclusive then locks.(barrier := if locks.barrier == Some(i) then None else locks.barrier)
    else locks.(keys := map k | k in locks.keys && !(k in t.keys && locks.keys[k] == i) :: locks.keys[k])
  }

  function AfterRelease(q: Queue, i: nat): Queue
    requires i < |q.tasks|
  {
    var place := q.tasks[i].place;
    var after := Unlocks(q.LocksOf(place), q.tasks[i], i);
    q.(places := if after == Unlocked then q.places - {place} else q.places[place := after], released := q.released + {i})
  }

  datatype Step = Run(place: string, exclusive: bool, keys: set<string>) | Start(id: nat) | Settle(id: nat) | Release(id: nat)

  predicate Enabled(q: Queue, step: Step) {
    match step
    case Run(_, _, _) => true
    case Start(i) => Startable(q, i)
    case Settle(i) => i in q.started && i !in q.settled
    case Release(i) => i in q.settled && i !in q.released && i < |q.tasks|
  }

  function Next(q: Queue, step: Step): Queue
    requires Enabled(q, step)
  {
    match step
    case Run(place, exclusive, keys) => AfterRun(q, place, exclusive, keys)
    case Start(i) => AfterStart(q, i)
    case Settle(i) => AfterSettle(q, i)
    case Release(i) => AfterRelease(q, i)
  }

  // --- Every step keeps the invariant ---

  /** Whatever conflicts with a new task is awaited through what is locked. */
  lemma RunAwaits(q: Queue, place: string, exclusive: bool, keys: set<string>, i: nat)
    requires LocksInv(q) && i < |q.tasks| && i !in q.settled && Guarded(q, i)
    requires Conflict(q.tasks[i], AfterRun(q, place, exclusive, keys).tasks[|q.tasks|])
    ensures Awaited(AfterRun(q, place, exclusive, keys).tasks, i, |q.tasks|)
  {
    var t := AfterRun(q, place, exclusive, keys);
    var locks, earlier, later := q.LocksOf(place), q.tasks[i], t.tasks[|q.tasks|];
    assert later.prior == PriorOf(locks, exclusive, keys);
    if locks.barrier.Some? && locks.barrier.value > i {
      assert BarrierOf(q, place, locks.barrier.value);
      assert locks.barrier.value in later.prior;
    } else if earlier.exclusive {
      assert locks.barrier.value in later.prior;
    } else {
      var k := CommonKey(earlier, later);
      assert TailOf(q, place, k, locks.keys[k]);
      assert locks.keys[k] in later.prior;
      var m := locks.keys[k];
      assert t.tasks[m] == q.tasks[m] && k in earlier.keys * t.tasks[m].keys;
    }
  }

  lemma CommonKey(earlier: Task, later: Task) returns (k: string)
    requires Conflict(earlier, later) && !earlier.exclusive && (later.exclusive ==> later.keys == {})
    ensures k in earlier.keys && (later.exclusive || k in later.keys)
  {
    if later.exclusive {
      k :| k in earlier.keys;
    } else {
      k :| k in earlier.keys * later.keys;
    }
  }

  lemma RunLocks(q: Queue, place: string, exclusive: bool, keys: set<string>)
    requires LocksInv(q) && StepInv(q)
    ensures LocksInv(AfterRun(q, place, exclusive, keys))
  {
    var t := AfterRun(q, place, exclusive, keys);
    assert |q.tasks| !in q.released;
    forall p, k | p in t.places && k in t.places[p].keys ensures TailOf(t, p, k, t.places[p].keys[k]) {
      if t.places[p].keys[k] < |q.tasks| {
        assert p in q.places && k in q.places[p].keys;
        assert TailOf(q, p, k, q.places[p].keys[k]);
      }
    }
    forall p | p in t.places && t.places[p].barrier.Some? ensures BarrierOf(t, p, t.places[p].barrier.value) {
      if t.places[p].barrier.value < |q.tasks| {
        assert BarrierOf(q, p, q.places[p].barrier.value);
      }
    }
  }

  lemma RunPrior(q: Queue, place: string, exclusive: bool, keys: set<string>)
    requires LocksInv(q) && PriorInv(q.tasks)
    ensures PriorInv(AfterRun(q, place, exclusive, keys).tasks)
  {
    var t := AfterRun(q, place, exclusive, keys);
    var locks, n := q.LocksOf(place), |q.tasks|;
    forall m | m in t.tasks[n].prior ensures m < n && Conflict(t.tasks[m], t.tasks[n]) {
      if locks.barrier == Some(m) {
        assert BarrierOf(q, place, m);
      } else if exclusive {
        var k :| k in locks.keys && locks.keys[k] == m;
        assert TailOf(q, place, k, m);
      } else {
        var k :| k in keys && k in locks.keys && locks.keys[k] == m;
        assert TailOf(q, place, k, m);
        assert k in t.tasks[m].keys * t.tasks[n].keys;
      }
    }
    PriorMore(q.tasks, t.tasks[n]);
  }

  lemma PriorMore(tasks: seq<Task>, more: Task)
    requires PriorInv(tasks) && forall m :: m in more.prior ==> m < |tasks| && Conflict(tasks[m], more)
    ensures PriorInv(tasks + [more])
  {
    var after := tasks + [more];
    forall j, m | 0 <= j < |after| && m in after[j].prior ensures m < j && Conflict(after[m], after[j]) {
      assert m < |tasks| && after[m] == tasks[m];
    }
  }

  lemma RunGuards(q: Queue, place: string, exclusive: bool, keys: set<string>, i: nat)
    requires LocksInv(q) && i < |q.tasks| + 1 && (i < |q.tasks| ==> Guarded(q, i))
    ensures Guarded(AfterRun(q, place, exclusive, keys), i)
  {
    var t := AfterRun(q, place, exclusive, keys);
    var after := Locked(q.LocksOf(place), exclusive, keys, |q.tasks|);
    assert t.LocksOf(place) == after;
    assert forall p :: p != place ==> t.LocksOf(p) == q.LocksOf(p);
  }

  lemma RunKeepsInv(q: Queue, place: string, exclusive: bool, keys: set<string>)
    requires Inv(q)
    ensures Inv(AfterRun(q, place, exclusive, keys))
  {
    var t := AfterRun(q, place, exclusive, keys);
    RunLocks(q, place, exclusive, keys);
    RunPrior(q, place, exclusive, keys);
    forall i | 0 <= i < |t.tasks| && i !in t.settled ensures Guarded(t, i) {
      RunGuards(q, place, exclusive, keys, i);
    }
    forall i, j | 0 <= i < j < |t.tasks| && Conflict(t.tasks[i], t.tasks[j]) ensures i in t.settled || Awaited(t.tasks, i, j) {
      if j < |q.tasks| {
        AwaitedStays(q.tasks, t.tasks[|q.tasks|], i, j);
      } else if i !in q.settled {
        RunAwaits(q, place, exclusive, keys, i);
      }
    }
  }

  lemma AwaitedStays(tasks: seq<Task>, more: Task, i: nat, j: nat)
    requires i < |tasks| && j < |tasks|
    ensures Awaited(tasks, i, j) ==> Awaited(tasks + [more], i, j)
  {
    if Awaited(tasks, i, j) {
      var m :| m in tasks[j].prior && m < |tasks| && (m == i || (i < m && Conflict(tasks[i], tasks[m])));
      assert (tasks + [more])[m] == tasks[m] && (tasks + [more])[i] == tasks[i];
    }
  }

  /** An earlier conflicting task has ended before a later one starts. */
  lemma {:induction false} EarlierEnded(q: Queue, i: nat, j: nat)
    requires PriorInv(q.tasks) && StepInv(q) && OrderInv(q)
    requires i < j < |q.tasks| && Conflict(q.tasks[i], q.tasks[j]) && j in q.started
    ensures i in q.settled
    decreases j
  {
    if i !in q.settled {
      var m :| m in q.tasks[j].prior && m < |q.tasks| && (m == i || (i < m && Conflict(q.tasks[i], q.tasks[m])));
      if m != i {
        EarlierEnded(q, i, m);
      }
    }
  }

  lemma ReleaseKeepsInv(q: Queue, i: nat)
    requires Inv(q) && i in q.settled && i !in q.released && i < |q.tasks|
    ensures Inv(AfterRelease(q, i))
  {
    var t := AfterRelease(q, i);
    ReleaseLocks(q, i);
    forall j | 0 <= j < |t.tasks| && j !in t.settled ensures Guarded(t, j) {
      ReleaseGuards(q, i, j);
    }
  }

  /** What unlocking leaves was there before, and names another task. */
  lemma UnlocksLess(locks: Locks, t: Task, i: nat)
    ensures var after := Unlocks(locks, t, i);
      && (forall k :: k in after.keys ==> k in locks.keys && after.keys[k] == locks.keys[k])
      && (forall k :: !t.exclusive && k in after.keys && k in t.keys ==> after.keys[k] != i)
      && (after.barrier.Some? ==> after.barrier == locks.barrier && (t.exclusive ==> after.barrier != Some(i)))
  {
  }

  /** What is locked at a place after a release. */
  lemma ReleasedAt(q: Queue, i: nat, p: string)
    requires i < |q.tasks| && p in AfterRelease(q, i).places
    ensures p in q.places || Unlocks(Unlocked, q.tasks[i], i) != Unlocked
    ensures AfterRelease(q, i).places[p] == if p == q.tasks[i].place then Unlocks(q.LocksOf(p), q.tasks[i], i) else q.places[p]
    ensures AfterRelease(q, i).places[p] == Unlocked ==> p != q.tasks[i].place
  {
    hide Unlocks;
  }

  lemma NothingToUnlock(t: Task, i: nat)
    ensures Unlocks(Unlocked, t, i) == Unlocked
  {
  }

  lemma ReleaseLocks(q: Queue, i: nat)
    requires LocksInv(q) && i < |q.tasks|
    ensures LocksInv(AfterRelease(q, i))
  {
    var t := AfterRelease(q, i);
    NothingToUnlock(q.tasks[i], i);
    forall p | p in t.places
      ensures p in q.places && t.places[p] != Unlocked
      ensures forall k :: k in t.places[p].keys ==> TailOf(t, p, k, t.places[p].keys[k])
      ensures t.places[p].barrier.Some? ==> BarrierOf(t, p, t.places[p].barrier.value)
    {
      ReleaseLocksAt(q, i, p);
    }
    hide TailOf, BarrierOf, AfterRelease, Unlocks;
  }

  lemma ReleaseLocksAt(q: Queue, i: nat, p: string)
    requires LocksInv(q) && i < |q.tasks| && p in AfterRelease(q, i).places
    ensures var t := AfterRelease(q, i);
      && p in q.places && t.places[p] != Unlocked
      && (forall k :: k in t.places[p].keys ==> TailOf(t, p, k, t.places[p].keys[k]))
      && (t.places[p].barrier.Some? ==> BarrierOf(t, p, t.places[p].barrier.value))
  {
    var t := AfterRelease(q, i);
    NothingToUnlock(q.tasks[i], i);
    ReleasedAt(q, i, p);
    UnlocksLess(q.LocksOf(p), q.tasks[i], i);
    ReleasedTasks(q, i);
    hide Unlocks, AfterRelease;
    forall k | k in t.places[p].keys ensures TailOf(t, p, k, t.places[p].keys[k]) {
      assert k in q.places[p].keys && q.places[p].keys[k] == t.places[p].keys[k];
      assert TailOf(q, p, k, q.places[p].keys[k]);
    }
    if t.places[p].barrier.Some? {
      assert BarrierOf(q, p, q.places[p].barrier.value);
    }
  }

  lemma ReleasedTasks(q: Queue, i: nat)
    requires i < |q.tasks|
    ensures AfterRelease(q, i).tasks == q.tasks && AfterRelease(q, i).released == q.released + {i}
  {
    hide Unlocks;
  }

  /** A task that ended queued before every unfinished one it conflicts with. */
  lemma EndedIsEarlier(q: Queue, i: nat, j: nat)
    requires PriorInv(q.tasks) && StepInv(q) && OrderInv(q)
    requires i in q.settled && i < |q.tasks| && j < |q.tasks| && j !in q.settled
    ensures i < j || !Conflict(q.tasks[j], q.tasks[i])
  {
    if j < i && Conflict(q.tasks[j], q.tasks[i]) {
      EarlierEnded(q, j, i);
    }
  }

  /** Releasing a task that ended frees nothing an unfinished one is guarded by. */
  lemma ReleaseGuards(q: Queue, i: nat, j: nat)
    requires Inv(q) && i in q.settled && i !in q.released && i < |q.tasks| && j < |q.tasks| && j !in q.settled
    ensures Guarded(AfterRelease(q, i), j)
  {
    EndedIsEarlier(q, i, j);
    var earlier, ended := q.tasks[j], q.tasks[i];
    assert Guarded(q, j);
    hide Inv, OrderInv, PriorInv, StepInv, LocksInv;
    ReleasedLocks(q, i, earlier.place);
    forall k | !ended.exclusive && k in earlier.keys && k in ended.keys ensures i < j || ended.place != earlier.place {
      assert k in earlier.keys * ended.keys;
    }
  }

  lemma ReleasedLocks(q: Queue, i: nat, place: string)
    requires i < |q.tasks|
    ensures AfterRelease(q, i).LocksOf(place) == if place == q.tasks[i].place then Unlocks(q.LocksOf(place), q.tasks[i], i) else q.LocksOf(place)
  {
  }

  lemma StartKeepsInv(q: Queue, i: nat)
    requires Inv(q) && Startable(q, i)
    ensures Inv(AfterStart(q, i))
  {
    hide LocksInv, PriorInv, OrderInv, Guarded;
    SameLocks(q, AfterStart(q, i));
  }

  lemma SettleKeepsInv(q: Queue, i: nat)
    requires Inv(q) && i in q.started
    ensures Inv(AfterSettle(q, i))
  {
    hide LocksInv, PriorInv, Guarded, Awaited;
    SameLocks(q, AfterSettle(q, i));
  }

  /** Locks and guards depend on what is queued and released, not on who runs. */
  lemma SameLocks(q: Queue, t: Queue)
    requires t.places == q.places && t.tasks == q.tasks && t.released == q.released
    ensures LocksInv(q) ==> LocksInv(t)
    ensures forall j :: 0 <= j < |q.tasks| && Guarded(q, j) ==> Guarded(t, j)
    ensures t.settled == q.settled && OrderInv(q) ==> OrderInv(t)
  {
    if LocksInv(q) {
      forall p, k | p in t.places && k in t.places[p].keys ensures TailOf(t, p, k, t.places[p].keys[k]) {
        assert TailOf(q, p, k, q.places[p].keys[k]);
      }
      forall p | p in t.places && t.places[p].barrier.Some? ensures BarrierOf(t, p, t.places[p].barrier.value) {
        assert BarrierOf(q, p, q.places[p].barrier.value);
      }
    }
    hide LocksInv, Conflict, Awaited;
  }

  lemma StepKeepsInv(q: Queue, step: Step)
    requires Inv(q) && Enabled(q, step)
    ensures Inv(Next(q, step))
  {
    hide Inv, AfterRun, AfterStart, AfterSettle, AfterRelease;
    match step
    case Run(place, exclusive, keys) => RunKeepsInv(q, place, exclusive, keys);
    case Start(i) => StartKeepsInv(q, i);
    case Settle(i) => SettleKeepsInv(q, i);
    case Release(i) => ReleaseKeepsInv(q, i);
  }

  // --- Runs ---

  ghost predicate IsRun(states: seq<Queue>, steps: seq<Step>) {
    && |states| == |steps| + 1 && states[0] == Empty
    && forall i :: 0 <= i < |steps| ==> Enabled(states[i], steps[i]) && states[i + 1] == Next(states[i], steps[i])
  }

  ghost predicate Reachable(q: Queue) {
    exists states, steps :: IsRun(states, steps) && states[|steps|] == q
  }

  lemma {:induction false} RunInv(states: seq<Queue>, steps: seq<Step>, n: nat)
    requires IsRun(states, steps) && n < |states|
    ensures Inv(states[n])
  {
    hide Inv, Next, Enabled;
    if n == 0 {
      EmptyInv();
    } else {
      RunInv(states, steps, n - 1);
      StepKeepsInv(states[n - 1], steps[n - 1]);
    }
  }

  lemma EmptyInv()
    ensures Inv(Empty)
  {
  }

  lemma ReachableInv(q: Queue)
    requires Reachable(q)
    ensures Inv(q)
  {
    hide Inv, Next, Enabled;
    var states, steps :| IsRun(states, steps) && states[|steps|] == q;
    RunInv(states, steps, |steps|);
  }

  /** Conflicting tasks run one after the other, in the order they arrived. */
  lemma ConflictingTasksInOrder(q: Queue, i: nat, j: nat)
    requires Reachable(q) && i < j < |q.tasks| && Conflict(q.tasks[i], q.tasks[j])
    ensures j in q.started ==> i in q.settled
    ensures !(i in q.started - q.settled && j in q.started - q.settled)
  {
    hide Reachable, LocksInv, Guarded;
    ReachableInv(q);
    if j in q.started {
      EarlierEnded(q, i, j);
    }
  }

  /** A task directly awaits only earlier tasks it conflicts with. */
  lemma WaitsOnConflictsOnly(q: Queue, j: nat, m: nat)
    requires Reachable(q) && j < |q.tasks| && m in q.tasks[j].prior
    ensures m < j && Conflict(q.tasks[m], q.tasks[j])
  {
    hide Reachable, LocksInv, Guarded, OrderInv, StepInv, Conflict;
    ReachableInv(q);
  }

  /** While tasks are unfinished, the first of them runs or can start: nothing deadlocks. */
  lemma NoDeadlock(q: Queue) returns (i: nat)
    requires Reachable(q) && exists j :: 0 <= j < |q.tasks| && j !in q.settled
    ensures i < |q.tasks| && i !in q.settled && (i in q.started || Startable(q, i))
  {
    hide Reachable, LocksInv, Guarded, OrderInv, Conflict;
    ReachableInv(q);
    i := 0;
    while i in q.settled
      invariant i <= |q.tasks| && forall h :: 0 <= h < i ==> h in q.settled
      decreases |q.tasks| - i
    {
      i := i + 1;
    }
  }

  /** A queue whose tasks are all released holds no record of any place. */
  lemma IdleLeavesNoRecord(q: Queue)
    requires Reachable(q) && forall i :: 0 <= i < |q.tasks| ==> i in q.released
    ensures q.places == map[]
  {
    hide Reachable, PriorInv, Guarded, OrderInv, StepInv;
    ReachableInv(q);
    forall p | p in q.places ensures false {
      AllUnlocked(q, p);
    }
  }

  lemma AllUnlocked(q: Queue, p: string)
    requires p in q.places && forall i :: 0 <= i < |q.tasks| ==> i in q.released
    requires forall k :: k in q.places[p].keys ==> TailOf(q, p, k, q.places[p].keys[k])
    requires q.places[p].barrier.Some? ==> BarrierOf(q, p, q.places[p].barrier.value)
    ensures q.places[p] == Unlocked
  {
    assert q.places[p].keys == map[];
  }

  /** A direct wait between two tasks without a barrier means that their keys meet. */
  lemma DifferentKeysNeverWait(q: Queue, i: nat, j: nat)
    requires Reachable(q) && i < |q.tasks| && j < |q.tasks| && i in q.tasks[j].prior
    requires !q.tasks[i].exclusive && !q.tasks[j].exclusive
    ensures q.tasks[i].place == q.tasks[j].place && q.tasks[i].keys * q.tasks[j].keys != {}
  {
    WaitsOnConflictsOnly(q, j, i);
  }

  // --- The queue itself ---

  class MutationQueue {
    var places: map<string, Locks>
    // The promises of the tasks, by arrival.
    var tasks: seq<Task>
    var started: set<nat>
    var settled: set<nat>
    var released: set<nat>

    ghost function View(): Queue
      reads this
    {
      Queue(places, tasks, started, settled, released)
    }

    constructor ()
      ensures View() == Empty
    {
      places, tasks, started, settled, released := map[], [], {}, {}, {};
    }

    /** Enter a task behind the tails of the locks it takes, and become the tail of each. */
    method Run(place: string, keys: Option<set<string>>) returns (id: nat)
      modifies this
      ensures id == |old(tasks)|
      ensures View() == AfterRun(old(View()), place, keys.None?, if keys.Some? then keys.value else {})
    {
      id := |tasks|;
      var locks := if place in places then places[place] else Unlocked;
      var exclusive, held := keys.None?, if keys.Some? then keys.value else {};
      var prior := if locks.barrier.Some? then {locks.barrier.value} else {};
      var after := locks;
      if exclusive {
        prior := prior + locks.keys.Values;
        after := Locks(map[], Some(id));
      } else {
        var waited, tails := CollectTails(locks, held, id);
        prior := prior + waited;
        after := locks.(keys := tails);
      }
      places := if after == Unlocked then places - {place} else places[place := after];
      tasks := tasks + [Task(place, exclusive, held, prior)];
    }

    /** The tails of the held keys, and the tails once `id` is queued behind them. */
    static method CollectTails(locks: Locks, held: set<string>, id: nat) returns (prior: set<nat>, tails: map<string, nat>)
      ensures prior == set k | k in held && k in locks.keys :: locks.keys[k]
      ensures tails == map k | k in locks.keys.Keys + held :: if k in held then id else locks.keys[k]
    {
      prior, tails := {}, locks.keys;
      var rest := held;
      while rest != {}
        invariant rest <= held
        invariant prior == set k | k in held - rest && k in locks.keys :: locks.keys[k]
        invariant tails == map k | k in locks.keys.Keys + (held - rest) :: if k in held - rest then id else locks.keys[k]
        decreases rest
      {
        var key :| key in rest;
        rest := rest - {key};
        if key in locks.keys {
          prior := prior + {locks.keys[key]};
        }
        tails := tails[key := id];
      }
    }

    /** A task starts once everything it awaits has settled, whether it succeeded or failed. */
    method Start(id: nat) returns (ok: bool)
      requires id < |tasks|
      modifies this`started
      ensures ok <==> Startable(old(View()), id)
      ensures View() == if ok then AfterStart(old(View()), id) else old(View())
    {
      ok := id !in started && tasks[id].prior <= settled;
      if ok {
        started := started + {id};
      }
    }

    method Settle(id: nat)
      requires id in started
      modifies this`settled
      ensures View() == AfterSettle(old(View()), id)
    {
      settled := settled + {id};
    }

    /** Drop the locks a finished task still holds, and the record of an idle place. */
    method Release(id: nat)
      requires id < |tasks|
      modifies this`places, this`released
      ensures View() == AfterRelease(old(View()), id)
    {
      var place := tasks[id].place;
      var locks := if place in places then places[place] else Unlocked;
      if tasks[id].exclusive {
        if locks.barrier == Some(id) {
          locks := locks.(barrier := None);
        }
      } else {
        var keys := Dropped(locks, tasks[id].keys, id);
        locks := locks.(keys := keys);
      }
      places := if locks == Unlocked then places - {place} else places[place := locks];
      released := released + {id};
    }

    static method Dropped(locks: Locks, held: set<string>, id: nat) returns (keys: map<string, nat>)
      ensures keys == map k | k in locks.keys && !(k in held && locks.keys[k] == id) :: locks.keys[k]
    {
      keys := locks.keys;
      var rest := held;
      while rest != {}
        invariant rest <= held
        invariant keys == map k | k in locks.keys && !(k in held - rest && locks.keys[k] == id) :: locks.keys[k]
        decreases rest
      {
        var key :| key in rest;
        rest := rest - {key};
        if key in keys && keys[key] == id {
          keys := keys - {key};
        }
      }
    }
  }
}
