/** Mutations that workers ask for: run by the main kernel, answered once, and read by who asked. */
module Serving {
  import opened Layout
  import opened Paths
  import opened Companion
  import opened Protocol
  import opened Safety
  import opened Upkeep
  import opened History
  import opened Commits
  import opened Kernel
  import opened ThreadPins
  import opened Registry
  import opened Cache
  import opened Coherence
  import opened Pipeline
  import Requests

  /** What a request can turn into once it is validated: the job for one epoch, or none. */
  datatype Job =
    | Put(key: Key, input: Input, flavors: seq<Flavor>)
    | Remove(place: string, keys: seq<Key>, kinds: seq<Flavor>)
    | Move(from: Key, to: Key, limit: nat, kinds: seq<Flavor>, flavors: seq<Flavor>)
    | MoveTree(place: string, dir: string, target: string, moves: seq<(Key, Key)>)
    | Refused

  /** Preparing and compiling, as the place is configured. */
  datatype Build = Build(prepare: seq<byte> -> Option<seq<byte>>, derive: (Flavor, seq<byte>) -> Option<seq<byte>>)

  ghost predicate Every(flavors: seq<Flavor>, all: set<Flavor>) {
    Pipeline.Apart(flavors) && Firsts(flavors, |flavors|) == all
  }

  /** The keys are canonical, and what is moved is there. */
  ghost predicate Runnable(setup: Setup, files: Files, job: Job) {
    match job
    case Put(key, input, flavors) => IsSource(key) && Every(flavors, setup.flavors(key))
    case Remove(place, keys, kinds) => (forall key :: key in keys ==> IsSource(key) && key.place == place) && Every(kinds, setup.kinds(place))
    case Move(from, to, limit, kinds, flavors) =>
      && IsSource(from) && IsSource(to) && from in files && files[from].Shared?
      && Every(kinds, setup.kinds(from.place)) && Every(flavors, setup.flavors(to))
    case MoveTree(place, dir, target, moves) =>
      && TreeMoves(files, place, dir, target, moves)
      && forall i :: 0 <= i < |moves| ==> moves[i].0 in files && files[moves[i].0].Shared?
    case Refused => true
  }

  /** The source was stored as it was given, with the companions that could be built. */
  ghost predicate Stores(setup: Setup, op: Op, key: Key, input: Input, build: Build) {
    op.Store? && op.key == key && Legal(setup, op) && Faithful(op, input, build.derive)
  }

  /** `ch` is what the job asks for. */
  ghost predicate Does(setup: Setup, files: Files, room: Room, job: Job, build: Build, ch: Changes)
    requires Runnable(setup, files, job)
  {
    match job
    case Put(key, input, flavors) =>
      exists op :: Stores(setup, op, key, input, build) && MadeFrom(room, input, flavors, build.derive, op) && ch == Staged(setup, op)
    case Remove(place, keys, kinds) => ch == StagedAll(setup, Removals(keys))
    case Move(from, to, limit, kinds, flavors) =>
      && build.prepare(files[from].bytes).Some?
      && var input := Input(build.prepare(files[from].bytes).value, limit, None, false, None);
      && exists op :: Stores(setup, op, to, input, build) && MadeFrom(room, input, flavors, build.derive, op)
           && ch == Staged(setup, Op.Unstage(from)) + Staged(setup, op)
    case MoveTree(place, dir, target, moves) => Shifts(files, ch, place, dir, target)
    case Refused => false
  }

  /** Why a job posts nothing: what it is to store does not build, or finds no place, or it was refused before. A removal never fails. */
  ghost predicate Fails(setup: Setup, files: Files, room: Room, job: Job, build: Build)
    requires Runnable(setup, files, job)
  {
    match job
    case Put(key, input, flavors) => CannotMake(room, input, flavors, build.derive)
    case Remove(place, keys, kinds) => false
    case Move(from, to, limit, kinds, flavors) =>
      var data := build.prepare(files[from].bytes);
      data.None? || CannotMake(room, Input(data.value, limit, None, false, None), flavors, build.derive)
    case MoveTree(place, dir, target, moves) => CannotCopy(room, files, moves)
    case Refused => true
  }

  /** Run the job; a failure posts nothing. */
  method Execute(k: VfsKernel, ghost setup: Setup, job: Job, build: Build, owner: Option<Req>) returns (done: bool, ghost ch: Changes)
    requires Idle(k) && Runnable(setup, k.files, job) && Permitted(setup, build.derive) && MayCommit(Calls(k.serving, k.credit), owner)
    modifies k, k.pins`bound, k.pins`ever, k.cache, k.cache.pool, k.cache.registry, k.cache.Sabs()
    ensures Idle(k)
    ensures !done ==> k.View() == old(k.View()).(minted := k.cache.minted, mem := k.cache.Mem())
    ensures !done ==> Fails(setup, old(k.files), old(k.cache.registry.Space()), job, build)
    ensures done ==> Does(setup, old(k.files), old(k.cache.registry.Space()), job, build, ch) && Posted(old(k.View()), k.View(), ch, owner)
    ensures Sound(setup) && CoherentHistory(setup, old(k.View())) ==> CoherentHistory(setup, k.View())
  {
    hide Sound, CoherentHistory, SameContent, After, FilesystemCache.Mem, Idle, Posted, Permitted, MayCommit, Legal, Faithful, Staged, StagedAll,
      Shifts, TreeMoves, Firsts, Pipeline.Apart, VfsKernel.View, MadeFrom, CannotMake, CannotCopy, SegmentRegistry.Space;
    MainProjectsIndex(k);
    ch := map[];
    match job
    case Put(key, input, flavors) =>
      ghost var op;
      done, op := PublishVirtual(k, setup, key, input, flavors, build.derive, owner);
      ch := Staged(setup, op);
    case Remove(place, keys, kinds) =>
      UnpublishVirtual(k, setup, place, keys, kinds, owner);
      done, ch := true, StagedAll(setup, Removals(keys));
    case Move(from, to, limit, kinds, flavors) =>
      ghost var op;
      done, op := RenameVirtual(k, setup, from, to, limit, kinds, flavors, build.prepare, build.derive, owner);
      ch := Staged(setup, Op.Unstage(from)) + Staged(setup, op);
    case MoveTree(place, dir, target, moves) =>
      done, ch := RenameTree(k, setup, place, dir, target, moves, owner);
    case Refused =>
      SameState(k, k.View());
      done := false;
  }

  /**
   * Serve the request of a worker: whatever becomes of the job, one response follows it, and it names
   * the update the job was posted as, or none.
   */
  method ServeMutation(k: VfsKernel, ghost setup: Setup, q: Req, job: Job, build: Build) returns (done: bool, ghost ch: Changes, ghost mid: State)
    requires Idle(k) && Runnable(setup, k.files, job) && Permitted(setup, build.derive) && q in k.serving && q !in k.credit
    modifies k, k.pins`bound, k.pins`ever, k.cache, k.cache.pool, k.cache.registry, k.cache.Sabs()
    ensures Idle(k) && q in mid.calls.serving && k.View() == Answered(mid, q)
    ensures !done ==> Fails(setup, old(k.files), old(k.cache.registry.Space()), job, build)
    ensures !done ==> SamePast(old(k.View()), mid) && mid.calls == old(k.View()).calls
    ensures done ==> Does(setup, old(k.files), old(k.cache.registry.Space()), job, build, ch) && Posted(old(k.View()), mid, ch, Some(q))
    ensures Sound(setup) && CoherentHistory(setup, old(k.View())) ==> CoherentHistory(setup, k.View())
  {
    hide Sound, CoherentHistory, Does, Fails, Runnable, SegmentRegistry.Space, FilesystemCache.Mem, Posted, Permitted, VfsKernel.Represents, Settled, Answered, SamePast;
    ghost var s := k.View();
    done, ch := Execute(k, setup, job, build, Some(q));
    mid := k.View();
    if done {
      PostedServing(s, mid, ch, Some(q));
    } else {
      OnlyBytes(setup, s, mid);
    }
    k.Answer(q);
    AnswerKeepsPast(mid, q);
    PastCoherent(setup, mid, k.View());
  }

  lemma PostedServing(s: State, t: State, ch: Changes, owner: Option<Req>)
    requires Posted(s, t, ch, owner)
    ensures t.calls.serving == s.calls.serving
  {
    hide Vacuous, Continues, After, Added, Removed;
  }

  lemma PastCoherent(setup: Setup, s: State, t: State)
    requires SamePast(s, t)
    ensures CoherentHistory(setup, s) ==> CoherentHistory(setup, t)
  {
    hide Coherent;
  }

  /** The port of the link ends with the response, which names the update of the job. */
  lemma ResponsePosted(s: State, mid: State, ch: Changes, q: Req)
    requires Posted(s, mid, ch, Some(q)) && q !in s.calls.credit && q.link in mid.peers
    ensures var t := Answered(mid, q); var inbox := t.peers[q.link].inbox;
      && inbox == mid.peers[q.link].inbox + [Reply(q.id, if Vacuous(s.index, ch) then 0 else |s.log| + 1)]
      && SamePast(mid, t) && q !in t.calls.serving
  {
    hide Vacuous, Continues, After, Added, Removed;
  }

  /**
   * A worker reads what it wrote. However the main kernel, this worker and all others went on after
   * the request was served, when the worker takes the response it has gone through the index right
   * after its own mutation, in which everything is as the mutation asked for, and is never behind it.
   */
  lemma OwnMutationRead(s: State, mid: State, ch: Changes, q: Req, states: seq<State>, events: seq<Event>, n: nat)
    requires Reachable(mid) && q in mid.calls.serving && q !in s.calls.credit && Posted(s, mid, ch, Some(q)) && !Vacuous(s.index, ch)
    requires Run(states, events) && states[0] == Answered(mid, q) && n <= |events|
    requires q.link in states[n].peers
    requires states[n].peers[q.link].inbox != [] && states[n].peers[q.link].inbox[0].Reply? && states[n].peers[q.link].inbox[0].request == q.id
    ensures var p, t, c := states[n].peers[q.link], states[n], |s.log| + 1;
      && p.inbox[0].commit == c <= p.applied <= |t.log| < |t.hist| && p.files == t.hist[p.applied]
      && t.hist[c] == After(s.index, ch) && t.log[c - 1].entries == Added(ch) && t.log[c - 1].removals == Removed(s.index, ch)
  {
    hide Vacuous, Reachable, After, Added, Removed, Enabled, Next;
    AnswerReachable(mid, q);
    PostedCredit(s, mid, ch, q);
    ReachableRun(states, events, n);
    Requests.CreditForGood(states, events, 0, n, q);
    RunContinues(states, events, 0, n);
    PastStays(states[0], states[n], |s.log| + 1);
    Requests.ReadYourWrites(states[n], q.link);
    hide Posted, Continues, Apply, Received;
  }

  lemma AnswerReachable(mid: State, q: Req)
    requires Reachable(mid) && q in mid.calls.serving
    ensures Reachable(Answered(mid, q))
  {
    hide Reachable;
    assert Enabled(mid, Answer(q)) && Next(mid, Answer(q)) == Answered(mid, q);
    hide Enabled, Next;
    ReachableNext(mid, Answer(q));
  }

  lemma PostedCredit(s: State, mid: State, ch: Changes, q: Req)
    requires Posted(s, mid, ch, Some(q)) && !Vacuous(s.index, ch)
    ensures var t, c := Answered(mid, q), |s.log| + 1;
      && q in t.calls.credit && t.calls.credit[q] == c && c <= |t.log| && c < |t.hist|
      && t.hist[c] == After(s.index, ch) && t.log[c - 1].entries == Added(ch) && t.log[c - 1].removals == Removed(s.index, ch)
  {
    hide Vacuous, Continues, After, Added, Removed, Responded;
  }
}
