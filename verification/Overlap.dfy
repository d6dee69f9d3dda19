/**
 * Overlapping mutations of one shared virtual place with the files they store. Forgetting the files
 * leaves a run of the names, and the companions stay with their sources through all of it.
 */
module Overlap {
  import opened Layout
  import opened Paths
  import opened Companion
  import opened Namespace
  import opened Publication
  import opened Subtree
  import opened Mutations
  import opened SabStores
  import H = Hierarchy
  import Order = MutationOrder

  /** How far a mutation that runs has got: on its way to its commit, ended but still counted, or over. */
  datatype Stage = Waiting(turn: Turn) | Counted(key: string) | Over

  datatype Store = Store(queue: Order.Queue, mutations: map<nat, Mutation>, stages: map<nat, Stage>, files: Contents, creating: set<string>)

  const Empty := Store(Order.Empty, map[], map[], map[], {})

  datatype Event =
    | Arrive(mutation: Mutation)
    | Begin(id: nat, now: int)    // the checks, and what happens at once
    | Commit(id: nat)             // the epoch is flushed
    | Fail(id: nat)               // it cannot be prepared, compiled or stored
    | End(id: nat)
    | Release(id: nat)

  function StageOf(t: Turn): Stage {
    if t.Create? || t.Move? then Waiting(t) else Over
  }

  /** Whether a rename that starts now holds the two keys it locked when it arrived. */
  function Locked(s: Store, i: nat): bool {
    i < |s.queue.tasks| && !s.queue.tasks[i].exclusive
  }

  ghost function TurnAt(place: Place, s: Store, i: nat, now: int): Turn
    requires i in s.mutations
  {
    TurnOf(place, s.files, s.creating, s.mutations[i], Locked(s, i), now)
  }

  ghost predicate Enabled(place: Place, s: Store, ev: Event) {
    match ev
    case Arrive(m) => CanonicalMutation(m)
    case Begin(i, _) => Order.Startable(s.queue, i) && i in s.mutations
    case Commit(i) => i in s.stages && s.stages[i].Waiting? && Outcome(place, s.files, s.stages[i].turn).Accepted?
    case Fail(i) => i in s.stages && s.stages[i].Waiting?
    case End(i) => i in s.stages && !s.stages[i].Waiting? && i in H.Running(s.queue)
    case Release(i) => Order.Enabled(s.queue, Order.Release(i))
  }

  /** A publication that is over is counted until its mutation ends. */
  function Done(t: Turn): Stage {
    if t.Create? then Counted(t.key) else Over
  }

  ghost function Begun(place: Place, s: Store, i: nat, t: Turn): Store {
    s.(queue := Order.AfterStart(s.queue, i), stages := s.stages[i := StageOf(t)],
       files := if t.Unpublish? then Applied(s.files, UnstageAll(place, t.keys)) else s.files,
       creating := if t.Create? then s.creating + {t.key} else s.creating)
  }

  ghost function Arrived(s: Store, m: Mutation): Store {
    var keys := H.KeysOf(Sources(s.files), NamesOf(m));
    s.(queue := Order.AfterRun(s.queue, H.PLACE, keys.None?, if keys.Some? then keys.value else {}),
       mutations := s.mutations[|s.queue.tasks| := m])
  }

  ghost function Next(place: Place, s: Store, ev: Event): Store
    requires Enabled(place, s, ev)
  {
    match ev
    case Arrive(m) => Arrived(s, m)
    case Begin(i, now) => Begun(place, s, i, TurnAt(place, s, i, now))
    case Commit(i) =>
      s.(files := Applied(s.files, Outcome(place, s.files, s.stages[i].turn).value), stages := s.stages[i := Done(s.stages[i].turn)])
    case Fail(i) => s.(stages := s.stages[i := Done(s.stages[i].turn)])
    case End(i) =>
      s.(queue := Order.AfterSettle(s.queue, i), stages := s.stages - {i},
         creating := if s.stages[i].Counted? then s.creating - {s.stages[i].key} else s.creating)
    case Release(i) => s.(queue := Order.AfterRelease(s.queue, i))
  }

  // --- The names alone ---

  ghost function FlightAt(stage: Stage): H.Flight {
    match stage
    case Waiting(t) => FlightOf(t)
    case Counted(key) => H.Published(key)
    case Over => H.Finished
  }

  ghost function Flights(stages: map<nat, Stage>): map<nat, H.Flight> {
    map i | i in stages :: FlightAt(stages[i])
  }

  ghost function Ops(mutations: map<nat, Mutation>): map<nat, H.Op> {
    map i | i in mutations :: NamesOf(mutations[i])
  }

  ghost function Names(s: Store): H.State {
    H.State(s.queue, Ops(s.mutations), Flights(s.stages), Sources(s.files), s.creating)
  }

  ghost function NamesEvent(place: Place, s: Store, ev: Event): H.Event
    requires Enabled(place, s, ev)
  {
    match ev
    case Arrive(m) => H.Arrive(NamesOf(m))
    case Begin(i, now) => H.Begin(i, TurnAt(place, s, i, now).Refuse?)
    case Commit(i) => H.Commit(i)
    case Fail(i) => H.Fail(i)
    case End(i) => H.End(i)
    case Release(i) => H.Release(i)
  }

  // --- What every event keeps ---

  /** What waits can still be committed: a publication of a canonical key, or a move that is possible now. */
  ghost predicate Ready(place: Place, files: Contents, t: Turn) {
    match t
    case Create(key, gone, _, _) => Canonical(key) && (gone.Some? ==> Canonical(gone.value))
    case Move(from, to) => Canonical(from) && Canonical(to) && CheckSubtree(place, files, {}, from, to).None?
    case _ => false
  }

  ghost predicate AllReady(place: Place, files: Contents, stages: map<nat, Stage>) {
    forall i :: i in stages && stages[i].Waiting? ==> Ready(place, files, stages[i].turn)
  }

  ghost predicate AllCanonicalMutations(mutations: map<nat, Mutation>) {
    forall i :: i in mutations ==> CanonicalMutation(mutations[i])
  }

  ghost predicate Inv(place: Place, s: Store) {
    && H.Inv(Names(s)) && Coherent(place, s.files)
    && AllReady(place, s.files, s.stages) && AllCanonicalMutations(s.mutations)
  }

  lemma OneStage(stages: map<nat, Stage>, i: nat, stage: Stage)
    ensures Flights(stages[i := stage]) == Flights(stages)[i := FlightAt(stage)]
    ensures (i in Flights(stages) <==> i in stages) && (i in stages ==> Flights(stages)[i] == FlightAt(stages[i]))
  {
  }

  lemma FewerStages(stages: map<nat, Stage>, i: nat)
    ensures Flights(stages - {i}) == Flights(stages) - {i}
  {
  }

  /** A removal takes the sources it names, and leaves the rest of the place coherent. */
  lemma UnpublishedNames(place: Place, files: Contents, keys: set<string>)
    requires Publication.Sound(place) && Coherent(place, files) && forall k :: k in keys ==> !IsCompanionKey(k)
    ensures var after := Applied(files, UnstageAll(place, keys)); Coherent(place, after) && Sources(after) == Sources(files) - keys
  {
    UnpublishKeepsCoherent(place, files, keys);
  }

  /** What an accepted publication flushes. */
  lemma AcceptedCreate(place: Place, files: Contents, t: Turn)
    requires t.Create? && Outcome(place, files, t).Accepted?
    ensures Input(place, t.key, t.raw, t.mtime).Some? && Compiles(place, t.key, Input(place, t.key, t.raw, t.mtime).value)
    ensures var publish := PublishChanges(place, t.key, Input(place, t.key, t.raw, t.mtime).value);
      Outcome(place, files, t).value == if t.gone.Some? then UnstageChanges(place, t.gone.value) + publish else publish
  {
    hide UnstageChanges, PublishChanges, Input, Compiles;
    var publish := PublishChanges(place, t.key, Input(place, t.key, t.raw, t.mtime).value);
    assert map[] + publish == publish;
  }

  /** The source a publication replaces goes first, with its companions. */
  lemma GoneFirst(place: Place, files: Contents, gone: Option<string>)
    requires Publication.Sound(place) && Coherent(place, files) && (gone.Some? ==> Canonical(gone.value))
    ensures var rest := if gone.Some? then Applied(files, UnstageChanges(place, gone.value)) else files;
      Coherent(place, rest) && Sources(rest) <= Sources(files)
  {
    hide Applied, Coherent, Publication.Sound, Canonical, UnstageChanges;
    if gone.Some? {
      CanonicalIsSource(gone.value);
      UnstageOne(place, gone.value);
      UnpublishedNames(place, files, {gone.value});
    }
  }

  /** The commit of a publication, of a key that was counted from its check on. */
  lemma CreateCommit(place: Place, files: Contents, creating: set<string>, t: Turn)
    requires Publication.Sound(place) && Coherent(place, files) && t.Create? && Ready(place, files, t) && Outcome(place, files, t).Accepted?
    requires H.NamesInv(Sources(files), creating) && t.key in creating
    ensures var after := Applied(files, Outcome(place, files, t).value);
      Coherent(place, after) && Sources(after) == Sources(files) - (if t.gone.Some? then {t.gone.value} else {}) + {t.key}
  {
    CreateCommits(place, files, t);
    AcceptedCreate(place, files, t);
    GoneFirst(place, files, t.gone);
    hide Applied, Coherent, Publication.Sound, Canonical, UnstageChanges, PublishChanges, H.NamesInv, Compiles, Input, Outcome, Sources;
    var rest := if t.gone.Some? then Applied(files, UnstageChanges(place, t.gone.value)) else files;
    StillFree(Sources(files), Sources(rest), creating, t.key);
    var f := Input(place, t.key, t.raw, t.mtime).value;
    PublishCommit(place, rest, t.key, t.raw, t.mtime, f);
    if t.gone.Some? {
      AppliedThen(files, UnstageChanges(place, t.gone.value), PublishChanges(place, t.key, f));
    }
  }

  lemma PublishCommit(place: Place, files: Contents, key: string, raw: seq<byte>, mtime: int, f: File)
    requires Publication.Sound(place) && Coherent(place, files) && Canonical(key) && CheckHierarchy(Sources(files), {}, key).None?
    requires Input(place, key, raw, mtime) == Some(f) && Compiles(place, key, f)
    ensures Coherent(place, Applied(files, PublishChanges(place, key, f)))
  {
    PublishKeepsCoherent(place, files, key, raw, mtime, f);
    CanonicalIsSource(key);
    PublishedIsApplied(place, files, key, f);
  }

  /** A counted key is still free to be published: it is neither above nor below a source. */
  lemma StillFree(sources: set<string>, rest: set<string>, creating: set<string>, key: string)
    requires H.NamesInv(sources, creating) && key in creating && rest <= sources
    ensures CheckHierarchy(rest, {}, key).None?
  {
  }

  /** The commit of a subtree move. */
  lemma MoveCommit(place: Place, files: Contents, from: string, to: string)
    requires Publication.Sound(place) && Coherent(place, files) && Ready(place, files, Move(from, to))
    ensures var after := Applied(files, TreeChanges(files, from, to));
      Coherent(place, after) && Sources(after) == MovedSources(Sources(files), from, to)
  {
    assert Subtree.MayMove(place, files, from, to);
    hide Coherent, Publication.Sound, Canonical, Subtree.MayMove, TreeChanges, MovedContents, Applied, CheckMove, AllMovable;
    TreeIsApplied(place, files, from, to);
    MoveKeepsCoherent(place, files, from, to);
  }

  // --- Each event, and the event of the names it is ---

  lemma ArriveStep(place: Place, s: Store, m: Mutation)
    requires Inv(place, s) && CanonicalMutation(m)
    ensures H.CanonicalOp(NamesOf(m)) && Names(Arrived(s, m)) == H.Next(Names(s), H.Arrive(NamesOf(m)))
    ensures AllCanonicalMutations(Arrived(s, m).mutations)
  {
    hide H.Inv, Coherent, AllReady, Order.AfterRun, H.KeysOf, Sources, Canonical;
    assert Ops(s.mutations[|s.queue.tasks| := m]) == Ops(s.mutations)[|s.queue.tasks| := NamesOf(m)];
  }

  /** What a turn removes or begins is named by canonical keys. */
  lemma TurnReady(place: Place, files: Contents, creating: set<string>, m: Mutation, locked: bool, now: int)
    requires CanonicalMutation(m)
    ensures var t := TurnOf(place, files, creating, m, locked, now);
      && (t.Create? ==> Ready(place, files, t))
      && (t.Unpublish? ==> forall k :: k in t.keys ==> !IsCompanionKey(k))
      && (t.Move? ==> Canonical(t.from) && Canonical(t.to) && CheckSubtree(place, files, creating, t.from, t.to).None?)
  {
    CanonicalIsSource(if m.Rename? then m.from else m.key);
    hide Canonical, Namespace.CheckHierarchy, CheckExclusive, CheckMkdir, CheckSubtree, IsDirectory;
  }

  lemma BeginNames(place: Place, s: Store, i: nat, t: Turn)
    requires Publication.Sound(place) && Coherent(place, s.files) && (t.Unpublish? ==> forall k :: k in t.keys ==> !IsCompanionKey(k))
    ensures var names := Names(s).(queue := Order.AfterStart(s.queue, i));
      Names(Begun(place, s, i, t)) == H.Fly(names.(sources := SourcesAfter(names.sources, t)), i, FlightOf(t))
    ensures Coherent(place, Begun(place, s, i, t).files)
  {
    hide Coherent, Publication.Sound, Applied, UnstageAll, Sources, Order.AfterStart;
    OneStage(s.stages, i, StageOf(t));
    if t.Unpublish? {
      UnpublishedNames(place, s.files, t.keys);
    }
    hide Flights;
  }

  lemma BeginStep(place: Place, s: Store, i: nat, now: int)
    requires Publication.Sound(place) && Inv(place, s) && Enabled(place, s, Begin(i, now))
    ensures var t := TurnAt(place, s, i, now);
      && H.Enabled(Names(s), H.Begin(i, t.Refuse?)) && Names(Begun(place, s, i, t)) == H.Next(Names(s), H.Begin(i, t.Refuse?))
      && Coherent(place, Begun(place, s, i, t).files)
  {
    hide Inv, Coherent, Sources, Ready, TurnOf, H.Begun, H.Fly, Order.AfterStart, Order.Startable, Canonical, Begun, Flights, CanonicalMutation, Publication.Sound;
    var m, t, names := s.mutations[i], TurnAt(place, s, i, now), Names(s).(queue := Order.AfterStart(s.queue, i));
    StartedTasks(s.queue, i);
    StillCoherent(place, s);
    MutationCanonical(place, s, i);
    TurnReady(place, s.files, s.creating, m, Locked(s, i), now);
    BeginNames(place, s, i, t);
    TurnIsStep(place, s.files, m, Locked(s, i), now, names, i);
    assert NamesOf(m) == Names(s).ops[i];
  }

  lemma StartedTasks(q: Order.Queue, i: nat)
    requires Order.Startable(q, i)
    ensures i < |q.tasks| && Order.AfterStart(q, i).tasks == q.tasks
  {
  }

  /** What is known about a mutation on its way to its commit. */
  lemma WaitingIs(place: Place, s: Store, i: nat)
    requires Inv(place, s) && i in s.stages && s.stages[i].Waiting?
    ensures Ready(place, s.files, s.stages[i].turn) && Coherent(place, s.files) && H.NamesInv(Sources(s.files), s.creating)
    ensures s.stages[i].turn.Create? ==> s.stages[i].turn.key in s.creating
    ensures s.stages[i].turn.Create? || s.stages[i].turn.Move?
  {
    hide Order.Inv, H.TasksInv, H.FlightLocks, H.NamesInv, H.MovingInv, Coherent, Sources;
    OneStage(s.stages, i, Over);
    assert Ready(place, s.files, s.stages[i].turn);
  }

  ghost function Committed(s: Store, i: nat, files: Contents): Store
    requires i in s.stages && s.stages[i].Waiting?
  {
    s.(files := files, stages := s.stages[i := Done(s.stages[i].turn)])
  }

  /** Committing a publication or a move, as far as the names go. */
  lemma CommitNames(s: Store, i: nat, files: Contents)
    requires i in s.stages && s.stages[i].Waiting? && (s.stages[i].turn.Create? || s.stages[i].turn.Move?)
    requires var t := s.stages[i].turn;
      Sources(files) == if t.Create? then Sources(s.files) - (if t.gone.Some? then {t.gone.value} else {}) + {t.key} else MovedSources(Sources(s.files), t.from, t.to)
    ensures H.Enabled(Names(s), H.Commit(i)) && Names(Committed(s, i, files)) == H.Next(Names(s), H.Commit(i))
  {
    hide Sources, MovedSources, Flights;
    OneStage(s.stages, i, Done(s.stages[i].turn));
  }

  lemma CommitStep(place: Place, s: Store, i: nat)
    requires Publication.Sound(place) && Inv(place, s) && Enabled(place, s, Commit(i))
    ensures var t := Next(place, s, Commit(i));
      H.Enabled(Names(s), H.Commit(i)) && Names(t) == H.Next(Names(s), H.Commit(i)) && Coherent(place, t.files)
  {
    hide Inv, Coherent, Sources, Applied, TreeChanges, MovedSources, H.NamesInv, Publication.Sound, Names, Ready, H.Enabled, H.Next, Outcome;
    var t := s.stages[i].turn;
    WaitingIs(place, s, i);
    if t.Create? {
      CreateCommit(place, s.files, s.creating, t);
    } else {
      MoveOutcome(place, s.files, t);
      MoveCommit(place, s.files, t.from, t.to);
    }
    CommitNames(s, i, Applied(s.files, Outcome(place, s.files, t).value));
  }

  lemma MoveOutcome(place: Place, files: Contents, t: Turn)
    requires t.Move?
    ensures Outcome(place, files, t) == Accepted(TreeChanges(files, t.from, t.to))
  {
  }

  lemma FailStep(place: Place, s: Store, i: nat)
    requires Inv(place, s) && Enabled(place, s, Fail(i))
    ensures H.Enabled(Names(s), H.Fail(i)) && Names(Next(place, s, Fail(i))) == H.Next(Names(s), H.Fail(i))
  {
    hide Inv, Coherent, Sources, Flights, Ready, H.NamesInv;
    WaitingIs(place, s, i);
    OneStage(s.stages, i, Done(s.stages[i].turn));
  }

  lemma EndStep(place: Place, s: Store, i: nat)
    requires Inv(place, s) && Enabled(place, s, End(i))
    ensures H.Enabled(Names(s), H.End(i)) && Names(Next(place, s, End(i))) == H.Next(Names(s), H.End(i))
  {
    OneStage(s.stages, i, Over);
    FewerStages(s.stages, i);
    hide H.Inv, Coherent, AllReady, Sources, Flights, Order.AfterSettle;
  }

  lemma ReleaseStep(place: Place, s: Store, i: nat)
    requires Enabled(place, s, Release(i))
    ensures H.Enabled(Names(s), H.Release(i)) && Names(Next(place, s, Release(i))) == H.Next(Names(s), H.Release(i))
  {
    hide Order.Enabled, Order.AfterRelease, Sources;
  }

  /** Every event of the store is an event of the names, and keeps the files coherent. */
  lemma StepIsNames(place: Place, s: Store, ev: Event)
    requires Publication.Sound(place) && Inv(place, s) && Enabled(place, s, ev)
    ensures H.Enabled(Names(s), NamesEvent(place, s, ev)) && Names(Next(place, s, ev)) == H.Next(Names(s), NamesEvent(place, s, ev))
    ensures Coherent(place, Next(place, s, ev).files)
  {
    hide Inv, Coherent, Names, H.Enabled, H.Next, Begun, Arrived, Outcome, Applied, Order.Startable, Order.Enabled, TurnAt;
    StillCoherent(place, s);
    match ev
    case Arrive(m) => ArriveEvent(place, s, m);
    case Begin(i, now) => BeginStep(place, s, i, now);
    case Commit(i) => CommitStep(place, s, i);
    case Fail(i) => FailStep(place, s, i);
    case End(i) => EndStep(place, s, i);
    case Release(i) => ReleaseStep(place, s, i);
  }

  lemma StillCoherent(place: Place, s: Store)
    requires Inv(place, s)
    ensures Coherent(place, s.files)
  {
    hide H.Inv, Coherent, AllReady;
  }

  lemma ArriveEvent(place: Place, s: Store, m: Mutation)
    requires Inv(place, s) && CanonicalMutation(m)
    ensures H.Enabled(Names(s), H.Arrive(NamesOf(m))) && Names(Arrived(s, m)) == H.Next(Names(s), H.Arrive(NamesOf(m)))
    ensures Coherent(place, Arrived(s, m).files)
  {
    ArriveStep(place, s, m);
    hide H.Inv, H.Next, Names, Coherent, AllReady;
  }

  // --- While a subtree moves nothing else changes a file ---

  lemma MoveStays(place: Place, s: Store, ev: Event, i: nat)
    requires Inv(place, s) && Enabled(place, s, ev) && i in s.stages && s.stages[i].Waiting? && s.stages[i].turn.Move?
    ensures ev.Commit? || Next(place, s, ev).files == s.files
    ensures ev.Commit? ==> ev.id == i
  {
    hide Order.Inv, H.TasksInv, H.FlightLocks, H.Counted, H.NamesInv, H.MovingInv, Coherent, AllReady, Sources, TurnAt;
    OneStage(s.stages, i, Over);
    var names := Names(s);
    if ev.Begin? {
      H.ExclusiveAlone(names.queue, names.ops, names.flights, names.creating, ev.id);
    } else if ev.Commit? {
      H.MovingAlone(names.queue, names.ops, names.flights, i);
      OneStage(s.stages, ev.id, Over);
    }
    hide Flights, Begun, Arrived, Outcome;
  }

  lemma ReadyStays(place: Place, s: Store, ev: Event)
    requires Publication.Sound(place) && Inv(place, s) && Enabled(place, s, ev)
    ensures AllReady(place, Next(place, s, ev).files, Next(place, s, ev).stages)
  {
    hide H.Inv, Coherent, Sources, Applied, Outcome, CheckSubtree, Canonical, Order.Startable, TurnOf;
    var t := Next(place, s, ev);
    forall i | i in t.stages && t.stages[i].Waiting? ensures Ready(place, t.files, t.stages[i].turn) {
      if ev.Begin? && i == ev.id {
        BegunReady(place, s, i, ev.now);
      } else {
        assert i in s.stages && t.stages[i] == s.stages[i];
        if s.stages[i].turn.Move? {
          MoveStays(place, s, ev, i);
        }
        assert Ready(place, s.files, s.stages[i].turn);
      }
    }
  }

  lemma BegunReady(place: Place, s: Store, i: nat, now: int)
    requires Inv(place, s) && Enabled(place, s, Begin(i, now))
    ensures var t := TurnAt(place, s, i, now); StageOf(t).Waiting? ==> Ready(place, Begun(place, s, i, t).files, t)
  {
    hide H.Inv, Inv, Coherent, Sources, CheckSubtree, Canonical, TurnOf, Order.Startable, Applied;
    var m, t := s.mutations[i], TurnAt(place, s, i, now);
    MutationCanonical(place, s, i);
    TurnReady(place, s.files, s.creating, m, Locked(s, i), now);
    if t.Move? {
      MoveAlone(place, s, i, now);
    }
  }

  lemma MutationCanonical(place: Place, s: Store, i: nat)
    requires Inv(place, s) && i in s.mutations
    ensures CanonicalMutation(s.mutations[i])
  {
    hide H.Inv, Coherent, AllReady, CanonicalMutation;
  }

  /** A subtree moves with the place barrier, so when nothing is being created. */
  lemma MoveAlone(place: Place, s: Store, i: nat, now: int)
    requires Inv(place, s) && Enabled(place, s, Begin(i, now)) && TurnAt(place, s, i, now).Move?
    ensures s.creating == {}
  {
    var names := Names(s);
    StartedTasks(s.queue, i);
    MoveUnlocked(place, s.files, s.creating, s.mutations[i], Locked(s, i), now);
    hide Order.Inv, H.TasksInv, H.FlightLocks, H.Counted, H.NamesInv, H.MovingInv, Coherent, AllReady, Sources, TurnOf;
    H.ExclusiveAlone(names.queue, names.ops, names.flights, names.creating, i);
  }

  lemma MoveUnlocked(place: Place, files: Contents, creating: set<string>, m: Mutation, locked: bool, now: int)
    requires TurnOf(place, files, creating, m, locked, now).Move?
    ensures !locked
  {
    hide Namespace.CheckHierarchy, CheckExclusive, CheckMkdir, CheckSubtree, IsDirectory;
  }

  lemma StepKeepsInv(place: Place, s: Store, ev: Event)
    requires Publication.Sound(place) && Inv(place, s) && Enabled(place, s, ev)
    ensures Inv(place, Next(place, s, ev))
  {
    StepIsNames(place, s, ev);
    ReadyStays(place, s, ev);
    NamesInvOf(place, s);
    hide H.Inv, H.Next, H.Enabled, Coherent, AllReady, Names, NamesEvent, Begun, Outcome, TurnAt, Order.Startable;
    H.StepKeepsInv(Names(s), NamesEvent(place, s, ev));
    MutationsStay(place, s, ev);
  }

  lemma NamesInvOf(place: Place, s: Store)
    requires Inv(place, s)
    ensures H.Inv(Names(s)) && AllCanonicalMutations(s.mutations)
  {
    hide H.Inv, Coherent, AllReady;
  }

  lemma MutationsStay(place: Place, s: Store, ev: Event)
    requires AllCanonicalMutations(s.mutations) && Enabled(place, s, ev)
    ensures AllCanonicalMutations(Next(place, s, ev).mutations)
  {
    hide TurnOf, Outcome, Applied, Order.AfterRun, Order.AfterStart, Order.AfterSettle, Order.AfterRelease, H.KeysOf, Canonical;
  }

  // --- Runs ---

  ghost predicate IsRun(place: Place, stores: seq<Store>, events: seq<Event>) {
    && |stores| == |events| + 1 && stores[0] == Empty
    && forall i :: 0 <= i < |events| ==> Enabled(place, stores[i], events[i]) && stores[i + 1] == Next(place, stores[i], events[i])
  }

  lemma EmptyInv(place: Place)
    requires Publication.Sound(place)
    ensures Inv(place, Empty) && Names(Empty) == H.Initial
  {
    assert Flights(map[]) == map[] && Ops(map[]) == map[] && Sources(map[]) == {};
    H.InitialInv();
    EmptyCoherent(place);
  }

  lemma {:induction false} RunInv(place: Place, stores: seq<Store>, events: seq<Event>, n: nat)
    requires Publication.Sound(place) && IsRun(place, stores, events) && n <= |events|
    ensures Inv(place, stores[n])
  {
    hide Inv, Enabled, Next, Publication.Sound;
    if n == 0 {
      EmptyInv(place);
    } else {
      RunInv(place, stores, events, n - 1);
      StepKeepsInv(place, stores[n - 1], events[n - 1]);
    }
  }

  /** A run of the store with the files left out. */
  ghost function NamesRun(stores: seq<Store>): seq<H.State> {
    seq(|stores|, i requires 0 <= i < |stores| => Names(stores[i]))
  }

  ghost function NamesEvents(place: Place, stores: seq<Store>, events: seq<Event>): seq<H.Event>
    requires IsRun(place, stores, events)
  {
    seq(|events|, i requires 0 <= i < |events| => NamesEvent(place, stores[i], events[i]))
  }

  /** Every overlapping run of the store is, as far as the names go, a run of the overlap model. */
  lemma RunIsNames(place: Place, stores: seq<Store>, events: seq<Event>)
    requires Publication.Sound(place) && IsRun(place, stores, events)
    ensures H.IsRun(NamesRun(stores), NamesEvents(place, stores, events))
  {
    EmptyInv(place);
    forall i | 0 <= i < |events|
      ensures H.Enabled(Names(stores[i]), NamesEvent(place, stores[i], events[i]))
      ensures Names(stores[i + 1]) == H.Next(Names(stores[i]), NamesEvent(place, stores[i], events[i]))
    {
      RunInv(place, stores, events, i);
      hide Inv;
      StepIsNames(place, stores[i], events[i]);
    }
    hide Inv, H.Enabled, H.Next, Names, NamesEvent, Enabled, Next;
  }

  /**
   * However mutations of one place overlap, at every moment each source has exactly the companions
   * that can be built of it, none is orphaned, and no file, published or being created, lies above or
   * below another.
   */
  lemma CoherentUnderOverlap(place: Place, stores: seq<Store>, events: seq<Event>, n: nat)
    requires Publication.Sound(place) && IsRun(place, stores, events) && n <= |events|
    ensures Coherent(place, stores[n].files)
    ensures Antichain(Sources(stores[n].files) + stores[n].creating)
  {
    RunInv(place, stores, events, n);
    hide IsRun, Coherent, Order.Inv, H.TasksInv, H.FlightLocks, H.Counted, H.MovingInv, AllReady, Antichain;
  }
}
