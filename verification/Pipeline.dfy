/** From a canonical source to a committed epoch: storing, removing and moving files of the shared pool. */
module Pipeline {
  import opened Layout
  import opened Paths
  import opened Companion
  import opened Registry
  import opened Ownership
  import opened Cache
  import opened Protocol
  import opened Invariant
  import opened Safety
  import opened Upkeep
  import opened History
  import opened Commits
  import opened Kernel
  import opened ThreadPins
  import opened Coherence
  import Subtree

  /** A canonical source: its bytes, where it may stay on disk, and its bytes as read back from there. */
  datatype Input = Input(data: seq<byte>, limit: nat, path: Option<string>, onDisk: bool, reread: Option<seq<byte>>)

  // --- One attempt to store a source with its companions ---

  /**
   * After trying the flavors `tried`: the source and the companions in `built` are made, in staging
   * order, and the companions that could not be built are to be dropped.
   */
  ghost predicate Attempted(key: Key, source: Entry, built: map<Flavor, Entry>, tried: set<Flavor>, made: seq<(Key, Entry)>, dropped: seq<Key>) {
    && built.Keys <= tried
    && Overlay(map[], made) + Dropping(map[], dropped) == map[key := Some(source)] + Companions(key, tried, built)
  }

  lemma AttemptBegins(key: Key, source: Entry)
    ensures Attempted(key, source, map[], {}, [(key, source)], [])
  {
    CompanionsAt(key, {}, map[]);
    OverlayMore(map[], [(key, source)], 0);
    assert [(key, source)][..1] == [(key, source)];
  }

  lemma AttemptKeys(key: Key, source: Entry, built: map<Flavor, Entry>, tried: set<Flavor>, made: seq<(Key, Entry)>, dropped: seq<Key>)
    requires Attempted(key, source, built, tried, made, dropped)
    ensures built.Keys <= tried
  {
  }

  lemma OverlayOne(ch: Changes, made: seq<(Key, Entry)>, x: (Key, Entry))
    ensures Overlay(ch, made + [x]) == Overlay(ch, made)[x.0 := Some(x.1)]
  {
    assert (made + [x])[..|made|] == made;
  }

  lemma DroppingOne(ch: Changes, dropped: seq<Key>, k: Key)
    ensures Dropping(ch, dropped + [k]) == Dropping(ch, dropped)[k := None]
  {
    assert (dropped + [k])[..|dropped|] == dropped;
  }

  /** A change of a key nobody changed yet can be noted on either side. */
  lemma OneMore(a: Changes, b: Changes, k: Key, x: Option<Entry>)
    ensures k !in a + b ==> a[k := x] + b == (a + b)[k := x]
    ensures a + b[k := x] == (a + b)[k := x]
  {
  }

  lemma AttemptBuilt(key: Key, source: Entry, built: map<Flavor, Entry>, tried: set<Flavor>, made: seq<(Key, Entry)>, dropped: seq<Key>, fl: Flavor, e: Entry)
    requires IsSource(key) && Attempted(key, source, built, tried, made, dropped) && fl !in tried
    ensures Attempted(key, source, built[fl := e], tried + {fl}, made + [(Derived(key, fl), e)], dropped)
  {
    DerivedOf(key, fl);
    CompanionsMore(key, tried, built, fl, built[fl := e]);
    OverlayOne(map[], made, (Derived(key, fl), e));
    hide Overlay, Dropping, Companions, Derived, IsSource;
    OneMore(Overlay(map[], made), Dropping(map[], dropped), Derived(key, fl), Some(e));
    OneMore(map[key := Some(source)], Companions(key, tried, built), Derived(key, fl), Some(e));
  }

  lemma AttemptDropped(key: Key, source: Entry, built: map<Flavor, Entry>, tried: set<Flavor>, made: seq<(Key, Entry)>, dropped: seq<Key>, fl: Flavor)
    requires Attempted(key, source, built, tried, made, dropped) && fl !in tried
    ensures Attempted(key, source, built, tried + {fl}, made, dropped + [Derived(key, fl)])
  {
    CompanionsMore(key, tried, built, fl, built);
    DroppingOne(map[], dropped, Derived(key, fl));
    hide Overlay, Dropping, Companions, Derived;
    OneMore(Overlay(map[], made), Dropping(map[], dropped), Derived(key, fl), None);
    OneMore(map[key := Some(source)], Companions(key, tried, built), Derived(key, fl), None);
  }

  lemma {:induction false} OverlayOver(ch: Changes, made: seq<(Key, Entry)>)
    ensures Overlay(ch, made) == ch + Overlay(map[], made)
  {
    if made != [] {
      OverlayOver(ch, made[..|made| - 1]);
    }
  }

  lemma {:induction false} DroppingOver(ch: Changes, dropped: seq<Key>)
    ensures Dropping(ch, dropped) == ch + Dropping(map[], dropped)
  {
    if dropped != [] {
      DroppingOver(ch, dropped[..|dropped| - 1]);
    }
  }

  /** Staging what an attempt made and dropping the rest stages exactly one operation. */
  lemma AttemptStages(setup: Setup, ch: Changes, op: Op, made: seq<(Key, Entry)>, dropped: seq<Key>)
    requires op.Store? && Attempted(op.key, op.source, op.built, setup.flavors(op.key), made, dropped)
    ensures Dropping(Overlay(ch, made), dropped) == ch + Staged(setup, op)
  {
    OverlayOver(ch, made);
    DroppingOver(Overlay(ch, made), dropped);
    hide Overlay, Dropping, Companions;
  }

  // --- The ledger while an attempt is under way ---

  /** Since `s0` the attempt has allocated the entries of `made`, and nothing else has changed. */
  ghost predicate Holding(s0: State, s: State, made: seq<(Key, Entry)>) {
    && s == s0.(ledger := s.ledger, minted := s.minted, mem := s.mem)
    && s0.ledger == s.ledger - Ids(made)
    && Ids(made) !! s0.ledger.Keys
    && Unstaged(s.ledger, map[], made)
  }

  lemma HoldingNothing(s0: State)
    ensures Holding(s0, s0, [])
  {
    assert Ids([]) == {};
    assert s0.ledger - {} == s0.ledger;
  }

  lemma IdsOne(made: seq<(Key, Entry)>, x: (Key, Entry))
    ensures Ids(made + [x]) == Ids(made) + {x.1.id}
  {
    var all := made + [x];
    forall i ensures i in Ids(all) <==> i in Ids(made) || i == x.1.id {
      if i in Ids(made) {
        var j :| 0 <= j < |made| && made[j].1.id == i;
        assert all[j].1.id == i;
      }
      assert all[|made|].1.id == x.1.id;
    }
  }

  lemma UnstagedMore(ledger: map<nat, Slot>, made: seq<(Key, Entry)>, x: (Key, Entry))
    requires Unstaged(ledger, map[], made) && x.1.id !in ledger
    ensures Unstaged(ledger[x.1.id := Slot(x.1, Private)], map[], made + [x])
  {
    var all, more := made + [x], ledger[x.1.id := Slot(x.1, Private)];
    forall i | 0 <= i < |all| ensures IsPrivate(more, all[i].1) && !PublishedBy(map[], all[i].1) {
      assert i < |made| ==> all[i] == made[i] && IsPrivate(ledger, made[i].1);
    }
    forall i, j | 0 <= i < j < |all| ensures all[i].1.id != all[j].1.id {
      assert all[i] == made[i] && IsPrivate(ledger, made[i].1);
      assert j < |made| ==> all[j] == made[j];
    }
  }

  lemma LedgerWithout(ledger: map<nat, Slot>, ids: set<nat>, id: nat, slot: Slot)
    requires id !in ledger
    ensures ledger[id := slot] - (ids + {id}) == ledger - ids
  {
  }

  lemma Minted(s: State, e: Entry)
    ensures AfterMint(s, e) == s.(minted := s.minted + 1, ledger := s.ledger[e.id := Slot(e, Private)], mem := s.mem)
    ensures AfterMint(s, e).mem == s.mem
  {
  }

  lemma Allocated(s: State, e: Entry, mem: Memory)
    ensures AfterAllocate(s, e, mem) == s.(minted := s.minted + 1, ledger := s.ledger[e.id := Slot(e, Private)], mem := AfterAllocate(s, e, mem).mem)
  {
    if e.Occupies() {
      hide AfterMint;
    } else {
      Minted(s, e);
      hide AfterMint, AfterPlace;
    }
  }

  lemma HoldingMore(s0: State, s: State, made: seq<(Key, Entry)>, key: Key, e: Entry, mem: Memory)
    requires Holding(s0, s, made) && e.id !in s.ledger
    ensures Holding(s0, AfterAllocate(s, e, mem), made + [(key, e)])
  {
    IdsOne(made, (key, e));
    UnstagedMore(s.ledger, made, (key, e));
    LedgerWithout(s.ledger, Ids(made), e.id, Slot(e, Private));
    Allocated(s, e, mem);
    hide Ids, Unstaged, AfterAllocate;
    assert e.id !in s0.ledger;
  }

  /** What an epoch staged before stays staged, and the attempt is no part of it. */
  lemma HoldingApart(s0: State, s: State, ch: Changes, made: seq<(Key, Entry)>)
    requires Holding(s0, s, made) && Publishable(s0, ch)
    ensures Publishable(s, ch) && Unstaged(s.ledger, ch, made)
  {
    forall i | 0 <= i < |made| ensures !PublishedBy(ch, made[i].1) {
      assert made[i].1.id in Ids(made);
    }
  }

  lemma GivenUp(s0: State, s: State, made: seq<(Key, Entry)>)
    requires Holding(s0, s, made)
    ensures s.(ledger := s.ledger - Ids(made)) == s0.(minted := s.minted, mem := s.mem)
  {
    hide Ids, Unstaged;
  }

  /**
   * Whatever is published, freed or moved between two steps of an attempt leaves its entries as
   * they are, so each step finds what the last one left.
   */
  lemma AttemptSurvives(made: seq<(Key, Entry)>, before: map<nat, Slot>, after: map<nat, Slot>, ch: Changes)
    requires Unstaged(before, ch, made) && PrivateKept(before, after, ch)
    ensures Unstaged(after, map[], made)
  {
    forall i | 0 <= i < |made| ensures IsPrivate(after, made[i].1) && !PublishedBy(map[], made[i].1) {
      assert IsPrivate(before, made[i].1) && !PublishedBy(ch, made[i].1);
    }
  }

  // --- Storing a source ---

  /** No handler is running. */
  ghost predicate Idle(k: VfsKernel)
    reads k, k.pins, k.cache, k.cache.pool, k.cache.registry, k.cache.Sabs()
  {
    k.Valid() && Settled(k.View())
  }

  /** One companion: built and in the pool, or none. */
  method TryCompanion(k: VfsKernel, key: Key, source: Entry, data: Option<seq<byte>>, ghost s0: State, ghost made: seq<(Key, Entry)>)
    returns (e: Option<Entry>)
    requires Idle(k) && Holding(s0, k.View(), made)
    modifies k`ledger, k.cache`minted, k.cache.pool, k.cache.registry, k.cache.Sabs()
    ensures Idle(k)
    ensures e.None? ==> k.View() == old(k.View())
    ensures e.Some? ==>
      && data.Some? && e.value.Shared? && e.value.bytes == data.value && e.value.origin == source.id
      && Holding(s0, k.View(), made + [(key, e.value)])
    ensures e.Some? <==> data.Some? && !NoPlace(old(k.cache.registry.Space()), data.value, |data.value|)
    ensures Spent(old(k.cache.registry.Space()), k.cache.registry.Space(), e)
    ensures PoolGrew(old(k.cache.pool.segments), k.cache.pool.segments)
    ensures forall id :: id in k.cache.pool.segments && id !in old(k.cache.pool.segments) ==> fresh(k.cache.pool.segments[id])
  {
    hide Settled, Holding, AfterAllocate, NoPlace, Took, FilesystemCache.Mem, VfsKernel.Represents;
    if data.None? {
      return None;
    }
    ghost var s := k.View();
    var r := k.Allocate(data.value, None, |data.value|, "", false, false, Some(source.id));
    if !r.Placed? {
      return None;
    }
    HoldingMore(s0, s, made, key, r.entry, k.cache.Mem());
    e := Some(r.entry);
  }

  function Firsts(flavors: seq<Flavor>, n: nat): set<Flavor>
    requires n <= |flavors|
  {
    set i | 0 <= i < n :: flavors[i]
  }

  lemma NoneFirst(flavors: seq<Flavor>)
    ensures Firsts(flavors, 0) == {} && (forall fl :: fl in Firsts(flavors, |flavors|) <==> fl in flavors)
  {
  }

  lemma FirstsMore(flavors: seq<Flavor>, n: nat)
    requires n < |flavors|
    ensures Firsts(flavors, n + 1) == Firsts(flavors, n) + {flavors[n]}
    ensures Apart(flavors) ==> flavors[n] !in Firsts(flavors, n)
  {
  }

  ghost predicate Apart(flavors: seq<Flavor>) {
    forall i, j :: 0 <= i < j < |flavors| ==> flavors[i] != flavors[j]
  }

  /** What the compiler and the codecs of this place make is what they may make. */
  ghost predicate Permitted(setup: Setup, build: (Flavor, seq<byte>) -> Option<seq<byte>>) {
    forall fl, bytes :: build(fl, bytes).Some? ==> setup.permits(fl, bytes, build(fl, bytes).value)
  }

  /** Every companion kept holds what the compiler or the codec makes of the canonical bytes. */
  ghost predicate BuiltFrom(build: (Flavor, seq<byte>) -> Option<seq<byte>>, source: Entry, bytes: Option<seq<byte>>, built: map<Flavor, Entry>) {
    forall fl :: fl in built ==>
      built[fl].Shared? && built[fl].origin == source.id && bytes.Some? && build(fl, bytes.value) == Some(built[fl].bytes)
  }

  /** One flavor was tried: it is kept if and only if there are bytes, they build, and what they build has a place. */
  ghost predicate OneTried(pre: Room, post: Room, fl: Flavor, bytes: Option<seq<byte>>, build: (Flavor, seq<byte>) -> Option<seq<byte>>, built: map<Flavor, Entry>) {
    && (fl in built <==> CanKeep(pre, fl, bytes, build))
    && Spent(pre, post, if fl in built then Some(built[fl]) else None)
  }

  /** There are bytes, they build, and what they build has a place. */
  ghost predicate CanKeep(room: Room, fl: Flavor, bytes: Option<seq<byte>>, build: (Flavor, seq<byte>) -> Option<seq<byte>>) {
    && bytes.Some? && build(fl, bytes.value).Some?
    && !NoPlace(room, build(fl, bytes.value).value, |build(fl, bytes.value).value|)
  }

  /** The first `n` flavors were tried one after the other; `rooms` has what was left before each and after the last. */
  ghost predicate Trial(rooms: seq<Room>, flavors: seq<Flavor>, n: nat, bytes: Option<seq<byte>>, build: (Flavor, seq<byte>) -> Option<seq<byte>>, built: map<Flavor, Entry>) {
    && n <= |flavors| && |rooms| == n + 1
    && forall j :: 0 <= j < n ==> OneTried(rooms[j], rooms[j + 1], flavors[j], bytes, build, built)
  }

  /** This flavor ends the attempt: bytecode without bytes, or a script that does not build or has no place. */
  ghost predicate Stops(room: Room, fl: Flavor, bytes: Option<seq<byte>>, build: (Flavor, seq<byte>) -> Option<seq<byte>>) {
    (bytes.None? && !fl.Encoded?) || (fl.Script? && !CanKeep(room, fl, bytes, build))
  }

  /** None of the flavors tried ended the attempt. */
  ghost predicate NoneStops(rooms: seq<Room>, flavors: seq<Flavor>, n: nat, bytes: Option<seq<byte>>, build: (Flavor, seq<byte>) -> Option<seq<byte>>) {
    n <= |flavors| && n <= |rooms| && forall j :: 0 <= j < n ==> !Stops(rooms[j], flavors[j], bytes, build)
  }

  /** The companion of one flavor: kept if it can be. */
  method TryFlavor(k: VfsKernel, key: Key, source: Entry, bytes: Option<seq<byte>>, fl: Flavor, build: (Flavor, seq<byte>) -> Option<seq<byte>>,
      ghost s0: State, ghost made: seq<(Key, Entry)>)
    returns (e: Option<Entry>)
    requires Idle(k) && Holding(s0, k.View(), made)
    modifies k`ledger, k.cache`minted, k.cache.pool, k.cache.registry, k.cache.Sabs()
    ensures Idle(k)
    ensures Holding(s0, k.View(), if e.Some? then made + [(Derived(key, fl), e.value)] else made)
    ensures e.Some? ==> e.value.Shared? && e.value.origin == source.id && bytes.Some? && build(fl, bytes.value) == Some(e.value.bytes)
    ensures e.Some? <==> CanKeep(old(k.cache.registry.Space()), fl, bytes, build)
    ensures Spent(old(k.cache.registry.Space()), k.cache.registry.Space(), e)
    ensures PoolGrew(old(k.cache.pool.segments), k.cache.pool.segments)
    ensures forall id :: id in k.cache.pool.segments && id !in old(k.cache.pool.segments) ==> fresh(k.cache.pool.segments[id])
  {
    hide Idle, Holding, FilesystemCache.Mem, Spent, NoPlace, SegmentRegistry.Space, VfsKernel.View;
    var data := if bytes.Some? then build(fl, bytes.value) else None;
    e := TryCompanion(k, Derived(key, fl), source, data, s0, made);
  }

  lemma NoTrial(room: Room, flavors: seq<Flavor>, bytes: Option<seq<byte>>, build: (Flavor, seq<byte>) -> Option<seq<byte>>)
    ensures Trial([room], flavors, 0, bytes, build, map[]) && NoneStops([room], flavors, 0, bytes, build)
  {
  }

  lemma TrialMore(rooms: seq<Room>, flavors: seq<Flavor>, n: nat, bytes: Option<seq<byte>>, build: (Flavor, seq<byte>) -> Option<seq<byte>>, built: map<Flavor, Entry>,
      e: Option<Entry>, post: Room)
    requires Trial(rooms, flavors, n, bytes, build, built) && NoneStops(rooms, flavors, n, bytes, build)
    requires n < |flavors| && Apart(flavors) && built.Keys <= Firsts(flavors, n)
    requires e.Some? <==> CanKeep(rooms[n], flavors[n], bytes, build)
    requires Spent(rooms[n], post, e) && !Stops(rooms[n], flavors[n], bytes, build)
    ensures var more := if e.Some? then built[flavors[n] := e.value] else built;
      Trial(rooms + [post], flavors, n + 1, bytes, build, more) && NoneStops(rooms + [post], flavors, n + 1, bytes, build)
  {
    hide CanKeep, Spent, Stops;
    FirstsMore(flavors, n);
    var more, all := if e.Some? then built[flavors[n] := e.value] else built, rooms + [post];
    forall j | 0 <= j < n + 1 ensures OneTried(all[j], all[j + 1], flavors[j], bytes, build, more) && !Stops(all[j], flavors[j], bytes, build) {
      assert all[j] == rooms[j];
      if j < n {
        assert all[j + 1] == rooms[j + 1] && flavors[j] != flavors[n];
      }
    }
  }

  /**
   * Try every flavor in turn. Bytecode needs the canonical bytes, and a script must compile and fit;
   * any other companion that cannot be built is left out.
   */
  method BuildCompanions(k: VfsKernel, key: Key, source: Entry, bytes: Option<seq<byte>>, flavors: seq<Flavor>,
      build: (Flavor, seq<byte>) -> Option<seq<byte>>, ghost s0: State)
    returns (ok: bool, made: seq<(Key, Entry)>, dropped: seq<Key>, ghost built: map<Flavor, Entry>, ghost rooms: seq<Room>)
    requires Idle(k) && IsSource(key) && Apart(flavors) && Holding(s0, k.View(), [(key, source)])
    modifies k`ledger, k.cache`minted, k.cache.pool, k.cache.registry, k.cache.Sabs()
    ensures Idle(k) && Holding(s0, k.View(), made)
    ensures ok ==> Attempted(key, source, built, Firsts(flavors, |flavors|), made, dropped)
    ensures BuiltFrom(build, source, bytes, built) && (ok && Script in flavors ==> Script in built)
    ensures rooms != [] && rooms[0] == old(k.cache.registry.Space())
    ensures Trial(rooms, flavors, |rooms| - 1, bytes, build, built) && NoneStops(rooms, flavors, |rooms| - 1, bytes, build)
    ensures ok <==> |rooms| - 1 == |flavors|
    ensures !ok ==> |rooms| <= |flavors| && Stops(rooms[|rooms| - 1], flavors[|rooms| - 1], bytes, build)
    ensures PoolGrew(old(k.cache.pool.segments), k.cache.pool.segments)
    ensures forall id :: id in k.cache.pool.segments && id !in old(k.cache.pool.segments) ==> fresh(k.cache.pool.segments[id])
  {
    hide Idle, Holding, Attempted, FilesystemCache.Mem, Firsts, Apart, Trial, NoneStops, Spent, CanKeep, SegmentRegistry.Space, VfsKernel.View, Derived;
    made, dropped, built, ok := [(key, source)], [], map[], true;
    rooms := [k.cache.registry.Space()];
    NoTrial(rooms[0], flavors, bytes, build);
    AttemptBegins(key, source);
    NoneFirst(flavors);
    for i := 0 to |flavors|
      invariant ok && Idle(k) && Holding(s0, k.View(), made)
      invariant Attempted(key, source, built, Firsts(flavors, i), made, dropped)
      invariant BuiltFrom(build, source, bytes, built) && (Script in Firsts(flavors, i) ==> Script in built)
      invariant |rooms| == i + 1 && rooms[0] == old(k.cache.registry.Space()) && rooms[i] == k.cache.registry.Space()
      invariant Trial(rooms, flavors, i, bytes, build, built) && NoneStops(rooms, flavors, i, bytes, build)
      invariant PoolGrew(old(k.cache.pool.segments), k.cache.pool.segments)
      invariant forall id :: id in k.cache.pool.segments && id !in old(k.cache.pool.segments) ==> fresh(k.cache.pool.segments[id])
    {
      var fl := flavors[i];
      if bytes.None? && !fl.Encoded? {
        ok := false;
        return;
      }
      var e := TryFlavor(k, key, source, bytes, fl, build, s0, made);
      FirstsMore(flavors, i);
      AttemptKeys(key, source, built, Firsts(flavors, i), made, dropped);
      if e.None? && fl.Script? {
        ok := false;
        return;
      }
      TrialMore(rooms, flavors, i, bytes, build, built, e, k.cache.registry.Space());
      rooms := rooms + [k.cache.registry.Space()];
      if e.Some? {
        AttemptBuilt(key, source, built, Firsts(flavors, i), made, dropped, fl, e.value);
        made, built := made + [(Derived(key, fl), e.value)], built[fl := e.value];
      } else {
        AttemptDropped(key, source, built, Firsts(flavors, i), made, dropped, fl);
        dropped := dropped + [Derived(key, fl)];
      }
    }
  }

  /** Take back the entries of an attempt: the ledger is as it was before its first allocation. */
  method Withdraw(k: VfsKernel, ghost s0: State, made: seq<(Key, Entry)>)
    requires Idle(k) && Holding(s0, k.View(), made)
    modifies k`ledger, k.cache.pool, k.cache.registry
    ensures Idle(k) && k.View() == s0.(minted := k.cache.minted, mem := k.cache.Mem())
    ensures k.cache.pool.segments == old(k.cache.pool.segments)
  {
    hide Settled, FilesystemCache.Mem, VfsKernel.Represents, Ids, Unstaged;
    GivenUp(s0, k.View(), made);
    k.GiveUp(made);
  }

  lemma PublishableSame(s: State, t: State, ch: Changes)
    requires Publishable(s, ch) && t.ledger == s.ledger
    ensures Publishable(t, ch)
  {
  }

  /** The source may not or cannot live in the pool, and there is no file to point at instead. */
  ghost predicate SourceOut(room: Room, input: Input) {
    input.path.None? && (input.onDisk || NoPlace(room, input.data, input.limit))
  }

  /** The source went into the pool, unless it is to stay on disk or found no place. */
  ghost predicate SourcePlaced(pre: Room, post: Room, input: Input, source: Entry) {
    && Spent(pre, post, Some(source))
    && if input.onDisk || NoPlace(pre, input.data, input.limit) then source.Disk? && input.path == Some(source.path)
       else source.Shared? && source.bytes == input.data
  }

  /** The bytes that the companions of a source are built from. */
  function BytesOf(input: Input, source: Entry): Option<seq<byte>> {
    if source.Shared? then Some(input.data) else input.reread
  }

  /** Beginning in `room`, the source was placed and then every flavor tried, and none of them ended the attempt. */
  ghost predicate MadeFrom(room: Room, input: Input, flavors: seq<Flavor>, build: (Flavor, seq<byte>) -> Option<seq<byte>>, op: Op) {
    op.Store? && exists rooms: seq<Room> ::
      && |rooms| == |flavors| + 1
      && SourcePlaced(room, rooms[0], input, op.source)
      && Trial(rooms, flavors, |flavors|, BytesOf(input, op.source), build, op.built)
      && NoneStops(rooms, flavors, |flavors|, BytesOf(input, op.source), build)
  }

  /** Beginning in `room`, the source finds no place, or else a flavor ends the attempt. */
  ghost predicate CannotMake(room: Room, input: Input, flavors: seq<Flavor>, build: (Flavor, seq<byte>) -> Option<seq<byte>>) {
    SourceOut(room, input) || exists rooms: seq<Room>, source, built :: StopsAt(room, input, flavors, build, rooms, source, built)
  }

  ghost predicate StopsAt(room: Room, input: Input, flavors: seq<Flavor>, build: (Flavor, seq<byte>) -> Option<seq<byte>>,
      rooms: seq<Room>, source: Entry, built: map<Flavor, Entry>)
  {
    && 0 < |rooms| <= |flavors|
    && var bytes := BytesOf(input, source); var n := |rooms| - 1;
    && SourcePlaced(room, rooms[0], input, source) && BuiltFrom(build, source, bytes, built)
    && Trial(rooms, flavors, n, bytes, build, built) && NoneStops(rooms, flavors, n, bytes, build)
    && Stops(rooms[n], flavors[n], bytes, build)
  }

  /** The source itself, in the pool or left on disk; and its bytes for the companions to be built from. */
  method PlaceSource(k: VfsKernel, key: Key, input: Input) returns (source: Option<Entry>, bytes: Option<seq<byte>>)
    requires Idle(k)
    modifies k`ledger, k.cache`minted, k.cache.pool, k.cache.registry, k.cache.Sabs()
    ensures Idle(k)
    ensures source.None? ==> k.View() == old(k.View())
    ensures source.Some? ==> Holding(old(k.View()), k.View(), [(key, source.value)]) && source.value.origin == source.value.id
    ensures source.Some? && source.value.Shared? ==> source.value.bytes == input.data && bytes == Some(input.data)
    ensures source.Some? && source.value.Disk? ==> input.path == Some(source.value.path) && bytes == input.reread
    ensures source.None? <==> SourceOut(old(k.cache.registry.Space()), input)
    ensures source.Some? ==> SourcePlaced(old(k.cache.registry.Space()), k.cache.registry.Space(), input, source.value)
    ensures PoolGrew(old(k.cache.pool.segments), k.cache.pool.segments)
    ensures forall id :: id in k.cache.pool.segments && id !in old(k.cache.pool.segments) ==> fresh(k.cache.pool.segments[id])
  {
    hide Settled, Holding, AfterAllocate, NoPlace, Took, FilesystemCache.Mem, VfsKernel.Represents;
    ghost var s := k.View();
    HoldingNothing(s);
    var r := k.Allocate(input.data, Some(|input.data|), input.limit, if input.path.Some? then input.path.value else "",
      input.onDisk, input.path.Some?, None);
    if !r.Placed? {
      return None, None;
    }
    HoldingMore(s, s, [], key, r.entry, k.cache.Mem());
    assert [] + [(key, r.entry)] == [(key, r.entry)];
    source := Some(r.entry);
    bytes := if r.entry.Shared? then Some(input.data) else input.reread;
  }

  /** The source holds the canonical bytes, or names the file that does, and its companions were built from them. */
  ghost predicate Faithful(op: Op, input: Input, build: (Flavor, seq<byte>) -> Option<seq<byte>>)
    requires op.Store?
  {
    if op.source.Shared? then op.source.bytes == input.data && BuiltFrom(build, op.source, Some(input.data), op.built)
    else input.path == Some(op.source.path) && BuiltFrom(build, op.source, input.reread, op.built)
  }

  /** Hold a new private entry for the source and each companion, or hold nothing new at all. */
  method Attempt(k: VfsKernel, ghost setup: Setup, key: Key, input: Input, flavors: seq<Flavor>, build: (Flavor, seq<byte>) -> Option<seq<byte>>)
    returns (ok: bool, made: seq<(Key, Entry)>, dropped: seq<Key>, ghost op: Op)
    requires Permitted(setup, build)
    requires Idle(k) && IsSource(key) && Apart(flavors) && Firsts(flavors, |flavors|) == setup.flavors(key)
    modifies k`ledger, k.cache`minted, k.cache.pool, k.cache.registry, k.cache.Sabs()
    ensures Idle(k)
    ensures !ok ==> k.View() == old(k.View()).(minted := k.cache.minted, mem := k.cache.Mem())
    ensures ok ==> Holding(old(k.View()), k.View(), made)
    ensures ok ==> op.Store? && op.key == key && Legal(setup, op) && Faithful(op, input, build) && (Script in flavors ==> Script in op.built)
    ensures ok ==> Attempted(key, op.source, op.built, setup.flavors(key), made, dropped)
    ensures ok ==> MadeFrom(old(k.cache.registry.Space()), input, flavors, build, op)
    ensures !ok ==> CannotMake(old(k.cache.registry.Space()), input, flavors, build)
    ensures PoolGrew(old(k.cache.pool.segments), k.cache.pool.segments)
    ensures forall id :: id in k.cache.pool.segments && id !in old(k.cache.pool.segments) ==> fresh(k.cache.pool.segments[id])
  {
    hide Idle, Holding, Attempted, Firsts, FilesystemCache.Mem, Apart, BuiltFrom, VfsKernel.View, Trial, NoneStops, Stops, SourcePlaced, SourceOut;
    op := Unstage(key);
    ghost var s := k.View();
    var source, bytes := PlaceSource(k, key, input);
    if source.None? {
      SameState(k, s);
      return false, [], [], op;
    }
    ghost var built, rooms;
    ok, made, dropped, built, rooms := BuildCompanions(k, key, source.value, bytes, flavors, build, s);
    if !ok {
      assert StopsAt(old(k.cache.registry.Space()), input, flavors, build, rooms, source.value, built);
      Withdraw(k, s, made);
      return;
    }
    op := Store(key, source.value, built);
    BuiltLegal(setup, op, build, bytes, made, dropped);
  }

  lemma SameState(k: VfsKernel, s: State)
    requires k.View() == s
    ensures s == s.(minted := k.cache.minted, mem := k.cache.Mem())
  {
    hide FilesystemCache.Mem;
  }

  /**
   * Store one canonical source: the source, the companions it gets and the removal of those it does
   * not get are staged together; a failure stages nothing.
   */
  method StoreShared(k: VfsKernel, ghost setup: Setup, ep: Staging, key: Key, input: Input, flavors: seq<Flavor>,
      build: (Flavor, seq<byte>) -> Option<seq<byte>>)
    returns (ok: bool, ghost op: Op)
    requires Permitted(setup, build)
    requires Idle(k) && Publishable(k.View(), ep.changes)
    requires IsSource(key) && Apart(flavors) && Firsts(flavors, |flavors|) == setup.flavors(key)
    modifies ep, k`ledger, k.cache`minted, k.cache.pool, k.cache.registry, k.cache.Sabs()
    ensures Idle(k) && Publishable(k.View(), ep.changes)
    ensures k.View() == old(k.View()).(ledger := k.ledger, minted := k.cache.minted, mem := k.cache.Mem())
    ensures !ok ==> ep.changes == old(ep.changes) && k.ledger == old(k.ledger)
    ensures ok ==> op.Store? && op.key == key && Legal(setup, op) && Faithful(op, input, build) && (Script in flavors ==> Script in op.built)
    ensures ok ==> ep.changes == old(ep.changes) + Staged(setup, op)
    ensures ok ==> MadeFrom(old(k.cache.registry.Space()), input, flavors, build, op)
    ensures !ok ==> CannotMake(old(k.cache.registry.Space()), input, flavors, build)
    ensures PoolGrew(old(k.cache.pool.segments), k.cache.pool.segments)
    ensures forall id :: id in k.cache.pool.segments && id !in old(k.cache.pool.segments) ==> fresh(k.cache.pool.segments[id])
  {
    hide Idle, Holding, Attempted, Publishable, Staged, Firsts, FilesystemCache.Mem, Apart, Faithful, Legal, MadeFrom, CannotMake;
    ghost var s := k.View();
    var made, dropped;
    ok, made, dropped, op := Attempt(k, setup, key, input, flavors, build);
    if ok {
      HoldingView(s, k.View(), made);
      AttemptStages(setup, ep.changes, op, made, dropped);
      StageHeld(k, ep, s, made, dropped);
    } else {
      PublishableSame(s, k.View(), ep.changes);
    }
  }

  lemma BuiltLegal(setup: Setup, op: Op, build: (Flavor, seq<byte>) -> Option<seq<byte>>, bytes: Option<seq<byte>>, made: seq<(Key, Entry)>, dropped: seq<Key>)
    requires op.Store? && IsSource(op.key) && op.source.origin == op.source.id
    requires Attempted(op.key, op.source, op.built, setup.flavors(op.key), made, dropped) && BuiltFrom(build, op.source, bytes, op.built)
    requires Permitted(setup, build) && (op.source.Shared? ==> bytes == Some(op.source.bytes))
    ensures Legal(setup, op)
  {
  }

  lemma HoldingView(s0: State, s: State, made: seq<(Key, Entry)>)
    requires Holding(s0, s, made)
    ensures s == s0.(ledger := s.ledger, minted := s.minted, mem := s.mem)
  {
    hide Ids, Unstaged;
  }

  /** Stage what the attempt made over what the epoch staged before. */
  method StageHeld(k: VfsKernel, ep: Staging, ghost s0: State, made: seq<(Key, Entry)>, dropped: seq<Key>)
    requires Idle(k) && Holding(s0, k.View(), made) && Publishable(s0, ep.changes)
    modifies ep, k`ledger, k.cache.pool, k.cache.registry
    ensures Idle(k) && Publishable(k.View(), ep.changes)
    ensures ep.changes == Dropping(Overlay(old(ep.changes), made), dropped)
    ensures k.View() == old(k.View()).(ledger := k.ledger) && k.cache.pool.segments == old(k.cache.pool.segments)
  {
    hide Settled, Holding, Publishable, Unstaged, Overlay, Dropping, FilesystemCache.Mem, VfsKernel.Represents;
    HoldingApart(s0, k.View(), ep.changes, made);
    k.StageAll(ep, made, dropped);
  }

  // --- Committing an epoch ---

  /** The changes `ch` went out as the next update, on the account of `owner` if there is one; without changes nothing did. */
  ghost predicate Posted(s: State, t: State, ch: Changes, owner: Option<Req>) {
    && Continues(s, t) && t.calls.serving == s.calls.serving
    && if Vacuous(s.index, ch) then t.calls == s.calls
       else
         var n := |s.log| + 1;
         && n <= |t.log| && n < |t.hist| && t.hist[n] == After(s.index, ch)
         && t.log[n - 1].id == n && t.log[n - 1].entries == Added(ch) && t.log[n - 1].removals == Removed(s.index, ch)
         && t.calls.credit == if owner.Some? then s.calls.credit[owner.value := n] else s.calls.credit
  }

  lemma CommitPosted(s: State, ch: Changes, ids: map<Key, nat>, owner: Option<Req>)
    requires Numbered(s, ch, ids) && |s.hist| == |s.log| + 1
    ensures Posted(s, Credited(s, Commit(s, ch, ids), owner), ch, owner)
  {
    hide Posted, Commit, Numbered, Vacuous, After, Added, Removed, Continues, UpdateOf, Credited;
    CommitCalls(s, ch, ids);
    if Vacuous(s.index, ch) {
      VacuousFlush(s, ch, ids);
      NothingPosted(s, ch, owner);
    } else {
      CommitContinues(s, ch, ids);
      FlushPast(s, ch, ids);
      AfterIsCommitted(s.index, ch);
      UpdatePosted(s, Commit(s, ch, ids), ch, ids, owner);
    }
  }

  lemma NothingPosted(s: State, ch: Changes, owner: Option<Req>)
    requires Vacuous(s.index, ch)
    ensures Posted(s, Credited(s, s, owner), ch, owner)
  {
    SameContinues(s, s);
    hide Vacuous, Continues;
  }

  lemma UpdatePosted(s: State, d: State, ch: Changes, ids: map<Key, nat>, owner: Option<Req>)
    requires !Vacuous(s.index, ch) && |s.hist| == |s.log| + 1 && d.calls == s.calls
    requires d.log == s.log + [UpdateOf(s, ch, ids)] && d.hist == s.hist + [After(s.index, ch)]
    ensures Posted(s, Credited(s, d, owner), ch, owner)
  {
    hide Vacuous, After, Added, Removed;
  }

  lemma StepsPosted(s: State, u: State, t: State, ch: Changes, owner: Option<Req>)
    requires Posted(s, u, ch, owner) && Steps(u, t)
    ensures Posted(s, t, ch, owner)
  {
    StepsIgnoreCalls(u, t, u.calls);
    StepsContinue(u, t);
    hide Steps, Vacuous, After, Added, Removed;
    ContinuesThen(s, u, t);
    if !Vacuous(s.index, ch) {
      PastStays(u, t, |s.log| + 1);
    }
    hide Continues;
  }

  /** Handlers that post nothing may run before the epoch is committed. */
  lemma PostedSince(s: State, u: State, t: State, ch: Changes, owner: Option<Req>)
    requires SamePast(s, u) && u.calls == s.calls && Posted(u, t, ch, owner)
    ensures Posted(s, t, ch, owner)
  {
    hide Vacuous, After, Added, Removed;
  }

  /** What the flush promises, in terms of the index: every change of the epoch and no other content. */
  lemma FlushContent(setup: Setup, k: VfsKernel, s: State, ch: Changes, ids: map<Key, nat>, owner: Option<Req>)
    requires Numbered(s, ch, ids) && k.SettledFrom(Credited(s, Commit(s, ch, ids), owner)) && Reachable(s)
    ensures SameContent(After(s.index, ch), k.cache.entries) && Posted(s, k.View(), ch, owner)
    ensures Sound(setup) && CoherentHistory(setup, s) && Grouped(setup, s.index, ch) ==> CoherentHistory(setup, k.View())
  {
    hide Sound, CoherentHistory, Grouped, Numbered, Commit, Credited, Steps, Settled, SameContent, PrivateKept, After, VfsKernel.Valid, Coherent, Added, Removed, Posted, Reachable;
    CommitFacts(s, ch, ids);
    CreditPast(s, Commit(s, ch, ids), owner);
    AfterIsCommitted(s.index, ch);
    LoggedIndexes(s);
    CommitPosted(s, ch, ids, owner);
    StepsPosted(s, Credited(s, Commit(s, ch, ids), owner), k.View(), ch, owner);
    if Sound(setup) && CoherentHistory(setup, s) && Grouped(setup, s.index, ch) {
      KernelFlushCoherent(setup, k, s, ch, ids, owner, Main);
    }
  }

  /** Commit an epoch; whatever compaction follows changes no content and parts no companion from its source. */
  method FlushEpoch(k: VfsKernel, ghost setup: Setup, ch: Changes, owner: Option<Req>)
    requires Idle(k) && Publishable(k.View(), ch) && MayCommit(Calls(k.serving, k.credit), owner)
    modifies k, k.pins`bound, k.pins`ever, k.cache, k.cache.pool, k.cache.registry, k.cache.Sabs()
    ensures Idle(k) && SameContent(After(old(k.cache.entries), ch), k.cache.entries) && Posted(old(k.View()), k.View(), ch, owner)
    ensures Sound(setup) && CoherentHistory(setup, old(k.View())) && Grouped(setup, old(k.cache.entries), ch) ==> CoherentHistory(setup, k.View())
  {
    hide Sound, CoherentHistory, Grouped, Numbered, Commit, Credited, SameContent, After, FilesystemCache.Mem, Settled, Publishable, Steps, PrivateKept, Posted,
      PinTable.Leased, Coupled, Vacant, FilesystemCache.Valid;
    ghost var s := k.View();
    k.Represented(s);
    hide VfsKernel.Represents;
    k.FlushFor(owner, ch);
    ghost var ids :| Numbered(s, ch, ids) && k.SettledFrom(Credited(s, Commit(s, ch, ids), owner));
    FlushContent(setup, k, s, ch, ids, owner);
  }

  // --- Publishing one file ---

  /** Either one `Flush` of a batch of that one publication, or no flush and nothing held. */
  method PublishVirtual(k: VfsKernel, ghost setup: Setup, key: Key, input: Input, flavors: seq<Flavor>, build: (Flavor, seq<byte>) -> Option<seq<byte>>, owner: Option<Req>)
    returns (ok: bool, ghost op: Op)
    requires MayCommit(Calls(k.serving, k.credit), owner) && Permitted(setup, build)
    requires Idle(k) && IsSource(key) && Apart(flavors) && Firsts(flavors, |flavors|) == setup.flavors(key)
    modifies k, k.pins`bound, k.pins`ever, k.cache, k.cache.pool, k.cache.registry, k.cache.Sabs()
    ensures Idle(k)
    ensures !ok ==> k.View() == old(k.View()).(minted := k.cache.minted, mem := k.cache.Mem())
    ensures ok ==> op.Store? && op.key == key && Legal(setup, op) && Faithful(op, input, build) && (Script in flavors ==> Script in op.built)
    ensures ok ==> SameContent(After(old(k.cache.entries), Staged(setup, op)), k.cache.entries)
    ensures ok ==> Posted(old(k.View()), k.View(), Staged(setup, op), owner)
    ensures ok ==> MadeFrom(old(k.cache.registry.Space()), input, flavors, build, op)
    ensures !ok ==> CannotMake(old(k.cache.registry.Space()), input, flavors, build)
    ensures Sound(setup) && CoherentHistory(setup, old(k.View())) ==> CoherentHistory(setup, k.View())
  {
    hide Sound, CoherentHistory, Grouped, SameContent, After, FilesystemCache.Mem, Idle, Publishable, Faithful, Legal, Staged, Firsts, Apart, MadeFrom, CannotMake, SegmentRegistry.Space, Posted;
    ghost var s := k.View();
    var ep := new Staging();
    NothingPublished(s);
    ok, op := StoreShared(k, setup, ep, key, input, flavors, build);
    ghost var t := k.View();
    OnlyBytes(setup, s, t);
    if !ok {
      return;
    }
    assert map[] + Staged(setup, op) == Staged(setup, op);
    OneOp(setup, s.index, op);
    FlushEpoch(k, setup, ep.changes, owner);
    PostedSince(s, t, k.View(), Staged(setup, op), owner);
  }

  /** After the update the source and its companions are what was stored, stale companions are gone, and other files are as they were. */
  lemma StoredAt(setup: Setup, files: Files, op: Op, after: Files, fl: Flavor, k: Key)
    requires op.Store? && Legal(setup, op) && SameContent(After(files, Staged(setup, op)), after)
    ensures op.key in after && SameBytes(op.source, after[op.key])
    ensures fl in setup.flavors(op.key) ==> (Derived(op.key, fl) in after <==> fl in op.built)
    ensures fl in setup.flavors(op.key) && fl in op.built ==> SameBytes(op.built[fl], after[Derived(op.key, fl)])
    ensures k != op.key && (forall x :: x in setup.flavors(op.key) ==> k != Derived(op.key, x)) ==>
      (k in after <==> k in files) && (k in files ==> SameBytes(files[k], after[k]))
  {
    StagedSource(setup, op);
    if fl in setup.flavors(op.key) {
      StagedCompanion(setup, op, fl);
    }
    if k in Staged(setup, op) && k != op.key {
      StagedOnly(setup, op, k);
    }
    hide Staged, Derived, IsSource;
  }

  lemma NothingPublished(s: State)
    ensures Publishable(s, map[])
  {
  }

  /** What an attempt does to the books is no part of any index. */
  lemma OnlyBytes(setup: Setup, s: State, t: State)
    requires t == s.(ledger := t.ledger, minted := t.minted, mem := t.mem)
    ensures t.index == s.index && (CoherentHistory(setup, s) ==> CoherentHistory(setup, t))
    ensures SamePast(s, t) && t.calls == s.calls
    ensures t.ledger == s.ledger ==> t == s.(minted := t.minted, mem := t.mem)
  {
    hide Coherent;
  }

  lemma OneOp(setup: Setup, files: Files, op: Op)
    requires Legal(setup, op)
    ensures Grouped(setup, files, Staged(setup, op)) && StagedAll(setup, [op]) == Staged(setup, op)
  {
    assert [op][..0] == [];
    assert StagedAll(setup, [op]) == map[] + Staged(setup, op);
    assert map[] + Staged(setup, op) == Staged(setup, op);
    assert Batch(setup, Staged(setup, op), [op]);
  }

  // --- Removing files ---

  ghost predicate OnlyRemoves(ch: Changes) {
    forall k :: k in ch ==> ch[k].None?
  }

  lemma SupersededLedger(s: State, ch: Changes, key: Key)
    ensures var t := AfterSupersede(s, ch, key); t == s.(ledger := t.ledger) && (OnlyRemoves(ch) ==> t == s)
    ensures OnlyRemoves(ch) ==> OnlyRemoves(ch[key := None]) && (key in ch ==> ch[key].None?)
  {
  }

  /** The removal of one more companion. */
  lemma RemovalMore(ch: Changes, key: Key, kinds: seq<Flavor>, i: nat)
    requires i < |kinds| && Apart(kinds)
    ensures (ch + RemovalOf(key, Firsts(kinds, i)))[Derived(key, kinds[i]) := None] == ch + RemovalOf(key, Firsts(kinds, i + 1))
  {
    FirstsMore(kinds, i);
    CompanionsMore(key, Firsts(kinds, i), map[], kinds[i], map[]);
    hide Companions, Firsts, Apart, Derived;
    OneMore(map[key := None], Companions(key, Firsts(kinds, i), map[]), Derived(key, kinds[i]), None);
    OneMore(ch, RemovalOf(key, Firsts(kinds, i)), Derived(key, kinds[i]), None);
  }

  function RemovalOf(key: Key, flavors: set<Flavor>): Changes {
    map[key := None] + Companions(key, flavors, map[])
  }

  lemma RemovalFirst(ch: Changes, key: Key, kinds: seq<Flavor>)
    ensures ch[key := None] == ch + RemovalOf(key, Firsts(kinds, 0))
  {
    NoneFirst(kinds);
    CompanionsAt(key, {}, map[]);
    assert Companions(key, {}, map[]) == map[];
  }

  /** Stage one removal; where the epoch has removals only, that is all it does. */
  method StageRemoval(k: VfsKernel, ep: Staging, key: Key)
    requires Idle(k) && Publishable(k.View(), ep.changes)
    modifies ep, k`ledger, k.cache.pool, k.cache.registry
    ensures Idle(k) && Publishable(k.View(), ep.changes) && ep.changes == old(ep.changes)[key := None]
    ensures k.View() == old(k.View()).(ledger := k.ledger) && k.cache.pool.segments == old(k.cache.pool.segments)
    ensures OnlyRemoves(old(ep.changes)) ==>
      OnlyRemoves(ep.changes) && k.View() == old(k.View()) && k.cache.registry.Space() == old(k.cache.registry.Space())
  {
    hide Settled, Publishable, FilesystemCache.Mem, VfsKernel.Represents, AfterSupersede, PublishedBy, OnlyRemoves, SegmentRegistry.Space;
    SupersededLedger(k.View(), ep.changes, key);
    k.Stage(ep, key, None);
  }

  /** The epoch as `Staged` defines it for a removal: `None` at the source and at each derived key. */
  method UnstageKey(k: VfsKernel, ghost setup: Setup, ep: Staging, key: Key, kinds: seq<Flavor>)
    requires Idle(k) && Publishable(k.View(), ep.changes)
    requires IsSource(key) && Apart(kinds) && Firsts(kinds, |kinds|) == setup.kinds(key.place)
    modifies ep, k`ledger, k.cache.pool, k.cache.registry
    ensures Idle(k) && Publishable(k.View(), ep.changes)
    ensures ep.changes == old(ep.changes) + Staged(setup, Op.Unstage(key))
    ensures OnlyRemoves(old(ep.changes)) ==> k.View() == old(k.View()) && k.cache.registry.Space() == old(k.cache.registry.Space())
    ensures k.View() == old(k.View()).(ledger := k.ledger) && k.cache.pool.segments == old(k.cache.pool.segments)
  {
    hide Settled, Publishable, RemovalOf, Firsts, Apart, FilesystemCache.Mem, VfsKernel.Represents, AfterSupersede, PublishedBy, OnlyRemoves, SegmentRegistry.Space, VfsKernel.View, Idle;
    ghost var s, ch := k.View(), ep.changes;
    RemovalFirst(ch, key, kinds);
    StageRemoval(k, ep, key);
    for i := 0 to |kinds|
      invariant Idle(k) && Publishable(k.View(), ep.changes)
      invariant ep.changes == ch + RemovalOf(key, Firsts(kinds, i))
      invariant OnlyRemoves(ch) ==> OnlyRemoves(ep.changes) && k.View() == s && k.cache.registry.Space() == old(k.cache.registry.Space())
      invariant k.View() == s.(ledger := k.ledger) && k.cache.pool.segments == old(k.cache.pool.segments)
    {
      RemovalMore(ch, key, kinds, i);
      StageRemoval(k, ep, Derived(key, kinds[i]));
    }
    RemovalStages(setup, key);
  }

  lemma RemovalStages(setup: Setup, key: Key)
    ensures Staged(setup, Op.Unstage(key)) == RemovalOf(key, setup.kinds(key.place))
  {
  }

  ghost function Removals(keys: seq<Key>): seq<Op> {
    seq(|keys|, i requires 0 <= i < |keys| => Op.Unstage(keys[i]))
  }

  lemma RemovalsMore(setup: Setup, keys: seq<Key>, n: nat)
    requires n < |keys|
    ensures StagedAll(setup, Removals(keys[..n + 1])) == StagedAll(setup, Removals(keys[..n])) + Staged(setup, Op.Unstage(keys[n]))
  {
    assert Removals(keys[..n + 1])[..n] == Removals(keys[..n]);
  }

  lemma RemovalsGrouped(setup: Setup, files: Files, keys: seq<Key>)
    requires forall key :: key in keys ==> IsSource(key)
    ensures Grouped(setup, files, StagedAll(setup, Removals(keys)))
  {
    assert Batch(setup, StagedAll(setup, Removals(keys)), Removals(keys));
  }

  /** One `Flush` whose changes are those of a batch of removals. */
  method UnpublishVirtual(k: VfsKernel, ghost setup: Setup, place: string, keys: seq<Key>, kinds: seq<Flavor>, owner: Option<Req>)
    requires MayCommit(Calls(k.serving, k.credit), owner)
    requires Idle(k) && (forall key :: key in keys ==> IsSource(key) && key.place == place)
    requires Apart(kinds) && Firsts(kinds, |kinds|) == setup.kinds(place)
    modifies k, k.pins`bound, k.pins`ever, k.cache, k.cache.pool, k.cache.registry, k.cache.Sabs()
    ensures Idle(k) && SameContent(After(old(k.cache.entries), StagedAll(setup, Removals(keys))), k.cache.entries)
    ensures Posted(old(k.View()), k.View(), StagedAll(setup, Removals(keys)), owner)
    ensures Sound(setup) && CoherentHistory(setup, old(k.View())) ==> CoherentHistory(setup, k.View())
  {
    hide Sound, CoherentHistory, Grouped, SameContent, After, FilesystemCache.Mem, Idle, Publishable, Staged, StagedAll, Firsts, Apart, Removals;
    ghost var s := k.View();
    var ep := new Staging();
    NothingPublished(s);
    NoRemovals(setup, keys);
    StateOf(k, s);
    for i := 0 to |keys|
      invariant Idle(k) && Publishable(k.View(), ep.changes) && fresh(ep)
      invariant ep.changes == StagedAll(setup, Removals(keys[..i]))
      invariant k.View() == s.(ledger := k.ledger) && k.cache.pool.segments == old(k.cache.pool.segments)
    {
      RemovalsMore(setup, keys, i);
      UnstageKey(k, setup, ep, keys[i], kinds);
    }
    assert keys[..|keys|] == keys;
    RemovalsGrouped(setup, s.index, keys);
    ghost var t := k.View();
    OnlyBytes(setup, s, t);
    FlushEpoch(k, setup, ep.changes, owner);
    PostedSince(s, t, k.View(), StagedAll(setup, Removals(keys)), owner);
  }

  lemma StateOf(k: VfsKernel, s: State)
    requires k.View() == s
    ensures s == s.(ledger := k.ledger)
  {
    hide FilesystemCache.Mem;
  }

  lemma NoRemovals(setup: Setup, keys: seq<Key>)
    ensures StagedAll(setup, Removals(keys[..0])) == map[]
  {
    assert Removals(keys[..0]) == [];
  }

  /** `k` is the source `key` or a companion it may have. */
  ghost predicate Belonging(setup: Setup, key: Key, k: Key) {
    k == key || exists fl :: fl in setup.kinds(key.place) && k == Derived(key, fl)
  }

  lemma UnstagedAt(setup: Setup, key: Key, k: Key)
    requires IsSource(key)
    ensures k in Staged(setup, Op.Unstage(key)) <==> Belonging(setup, key, k)
    ensures k in Staged(setup, Op.Unstage(key)) ==> Staged(setup, Op.Unstage(key))[k] == None
  {
    var op := Op.Unstage(key);
    StagedSource(setup, op);
    CompanionsAt(key, setup.kinds(key.place), map[]);
    if k in Staged(setup, op) && k != key {
      var fl :| fl in setup.kinds(key.place) && k == Derived(key, fl);
    }
    hide Companions, Derived, SourceKey;
  }

  /** `k` goes with one of `keys`. */
  ghost predicate Goes(setup: Setup, keys: seq<Key>, k: Key) {
    exists key :: key in keys && Belonging(setup, key, k)
  }

  lemma GoesMore(setup: Setup, keys: seq<Key>, k: Key)
    requires keys != []
    ensures Goes(setup, keys, k) <==> Goes(setup, keys[..|keys| - 1], k) || Belonging(setup, keys[|keys| - 1], k)
  {
    assert keys == keys[..|keys| - 1] + [keys[|keys| - 1]];
    hide Belonging;
  }

  /** An epoch of removals takes exactly the sources and their companions. */
  lemma {:induction false} RemovalsAt(setup: Setup, keys: seq<Key>, k: Key)
    requires forall key :: key in keys ==> IsSource(key)
    ensures k in StagedAll(setup, Removals(keys)) <==> Goes(setup, keys, k)
    ensures k in StagedAll(setup, Removals(keys)) ==> StagedAll(setup, Removals(keys))[k] == None
  {
    if keys == [] {
      NoRemovals(setup, keys);
    } else {
      var n := |keys| - 1;
      RemovalsAt(setup, keys[..n], k);
      RemovalsMore(setup, keys, n);
      UnstagedAt(setup, keys[n], k);
      GoesMore(setup, keys, k);
      hide Staged, StagedAll, Removals, Belonging, Goes;
      assert keys[..n + 1] == keys;
    }
  }

  /** After the update none of the keys is there, nor a companion of theirs, and every other file is as it was. */
  lemma RemovedAt(setup: Setup, files: Files, keys: seq<Key>, after: Files, k: Key)
    requires (forall key :: key in keys ==> IsSource(key)) && SameContent(After(files, StagedAll(setup, Removals(keys))), after)
    ensures k in after <==> k in files && forall key :: key in keys ==> !Belonging(setup, key, k)
    ensures k in after ==> SameBytes(files[k], after[k])
  {
    RemovalsAt(setup, keys, k);
    hide StagedAll, Removals, Belonging;
  }

  // --- Moving files ---

  lemma PublishedReadable(k: VfsKernel, key: Key)
    requires k.Valid() && key in k.files && k.files[key].Shared?
    ensures k.files == k.cache.entries
    ensures k.files[key].WellFormed() && k.cache.pool.Valid()
    ensures k.files[key].Occupies() ==>
      var x := k.files[key].extent;
      && x.segment in k.cache.pool.segments && k.cache.pool.segments[x.segment].Length == k.cache.pool.segmentSize
      && x.offset + x.length <= k.cache.pool.segmentSize && Intact(k.cache.Mem(), k.files[key])
  {
    hide Reachable, Coupled, Inv, Intact, OwnsAll, FilesystemCache.Mem;
    k.CacheSound();
    ReachableInv(k.View());
    FilesAreIndex(k.View());
    var x := k.files[key].extent;
    if k.files[key].Occupies() {
      OwnersRegistered(k.cache.Books(), k.cache.pool.segmentSize, x);
      OwnedInside(k.cache.Books(), k.cache.pool.segmentSize, x);
    }
  }

  /** The bytes of a published file, as the main thread reads them from its segment. */
  method ReadPublished(k: VfsKernel, key: Key) returns (data: seq<byte>)
    requires k.Valid() && key in k.files && k.files[key].Shared?
    ensures data == k.files[key].bytes
  {
    hide VfsKernel.Represents, FilesystemCache.Mem, Intact, VfsKernel.View;
    PublishedReadable(k, key);
    var x := k.files[key].extent;
    if x.length == 0 {
      return [];
    }
    k.cache.ReadsBytes(k.files[key]);
    data := k.cache.pool.segments[x.segment][x.offset..x.offset + x.length];
  }

  /**
   * Either one `Flush` of a batch that removes `from` and creates `to` from its bytes, or no flush
   * and every entry the attempt had allocated given up.
   */
  method RenameVirtual(k: VfsKernel, ghost setup: Setup, from: Key, to: Key, limit: nat, kinds: seq<Flavor>, flavors: seq<Flavor>,
      prepare: seq<byte> -> Option<seq<byte>>, build: (Flavor, seq<byte>) -> Option<seq<byte>>, owner: Option<Req>)
    returns (ok: bool, ghost op: Op)
    requires MayCommit(Calls(k.serving, k.credit), owner) && Permitted(setup, build)
    requires Idle(k) && IsSource(from) && IsSource(to) && from in k.files && k.files[from].Shared?
    requires Apart(kinds) && Firsts(kinds, |kinds|) == setup.kinds(from.place)
    requires Apart(flavors) && Firsts(flavors, |flavors|) == setup.flavors(to)
    modifies k, k.pins`bound, k.pins`ever, k.cache, k.cache.pool, k.cache.registry, k.cache.Sabs()
    ensures Idle(k)
    ensures !ok ==> k.View() == old(k.View()).(minted := k.cache.minted, mem := k.cache.Mem())
    ensures ok ==> prepare(old(k.files[from].bytes)).Some?
    ensures ok ==> MadeFrom(old(k.cache.registry.Space()), Input(prepare(old(k.files[from].bytes)).value, limit, None, false, None), flavors, build, op)
    ensures !ok && prepare(old(k.files[from].bytes)).Some? ==>
      CannotMake(old(k.cache.registry.Space()), Input(prepare(old(k.files[from].bytes)).value, limit, None, false, None), flavors, build)
    ensures ok ==> op.Store? && op.key == to && Legal(setup, op) && (Script in flavors ==> Script in op.built)
    ensures ok ==> Faithful(op, Input(prepare(old(k.files[from].bytes)).value, limit, None, false, None), build)
    ensures ok ==> SameContent(After(After(old(k.cache.entries), Staged(setup, Op.Unstage(from))), Staged(setup, op)), k.cache.entries)
    ensures ok ==> Posted(old(k.View()), k.View(), Staged(setup, Op.Unstage(from)) + Staged(setup, op), owner)
    ensures Sound(setup) && CoherentHistory(setup, old(k.View())) ==> CoherentHistory(setup, k.View())
  {
    hide Sound, CoherentHistory, Grouped, SameContent, After, FilesystemCache.Mem, Settled, VfsKernel.Represents, Publishable, Faithful, Legal, Staged, Firsts, Apart, MadeFrom, CannotMake, SegmentRegistry.Space, Posted;
    ghost var s := k.View();
    op := Op.Unstage(from);
    var raw := ReadPublished(k, from);
    var data := prepare(raw);
    if data.None? {
      SameState(k, s);
      return false, op;
    }
    var ep := new Staging();
    NothingPublished(s);
    assert OnlyRemoves(ep.changes);
    UnstageKey(k, setup, ep, from, kinds);
    ok, op := StoreShared(k, setup, ep, to, Input(data.value, limit, None, false, None), flavors, build);
    ghost var t := k.View();
    OnlyBytes(setup, s, t);
    if !ok {
      return;
    }
    TwoOps(setup, s.index, Op.Unstage(from), op);
    FlushEpoch(k, setup, ep.changes, owner);
    PostedSince(s, t, k.View(), Staged(setup, Op.Unstage(from)) + Staged(setup, op), owner);
  }

  lemma TwoOps(setup: Setup, files: Files, a: Op, b: Op)
    requires Legal(setup, a) && Legal(setup, b)
    ensures Grouped(setup, files, map[] + Staged(setup, a) + Staged(setup, b))
    ensures map[] + Staged(setup, a) + Staged(setup, b) == Staged(setup, a) + Staged(setup, b)
    ensures After(files, map[] + Staged(setup, a) + Staged(setup, b)) == After(After(files, Staged(setup, a)), Staged(setup, b))
  {
    var ops := [a, b];
    OneOp(setup, files, a);
    assert ops[..1] == [a];
    assert map[] + Staged(setup, a) == Staged(setup, a);
    assert StagedAll(setup, ops) == StagedAll(setup, [a]) + Staged(setup, b);
    assert Batch(setup, map[] + Staged(setup, a) + Staged(setup, b), ops);
    AfterThen(files, Staged(setup, a), Staged(setup, b));
  }

  // --- Moving a subtree ---

  /** `moves` lists each file under `from` once, with its key under `to`, where nothing is. */
  ghost predicate TreeMoves(files: Files, place: string, from: string, to: string, moves: seq<(Key, Key)>) {
    && !IsCompanionKey(to)
    && (forall k :: k in files && k.place == place ==> !Under(SourceOf(k.name), to))
    && (forall i :: 0 <= i < |moves| ==> moves[i].0 in MovingKeys(files, place, from) && moves[i].1 == Image(from, to, moves[i].0))
    && (forall m :: m in MovingKeys(files, place, from) ==> exists i :: 0 <= i < |moves| && moves[i].0 == m)
    && (forall i, j :: 0 <= i < j < |moves| ==> moves[i].0 != moves[j].0)
  }

  /** No new key is another new key, or an old one. */
  ghost predicate MovesApart(moves: seq<(Key, Key)>) {
    && (forall i, j :: 0 <= i < j < |moves| ==> moves[i].0 != moves[j].0 && moves[i].1 != moves[j].1)
    && (forall i, j :: 0 <= i < |moves| && 0 <= j < |moves| ==> moves[i].0 != moves[j].1)
  }

  lemma TreeApart(files: Files, place: string, from: string, to: string, moves: seq<(Key, Key)>)
    requires TreeMoves(files, place, from, to, moves)
    ensures MovesApart(moves)
  {
    forall i, j | 0 <= i < j < |moves| ensures moves[i].1 != moves[j].1 {
      assert moves[i].0 in MovingKeys(files, place, from) && moves[j].0 in MovingKeys(files, place, from);
      Subtree.SameSuffix(from, to, moves[i].0.name, moves[j].0.name);
    }
    forall i, j | 0 <= i < |moves| && 0 <= j < |moves| ensures moves[i].0 != moves[j].1 {
      assert moves[i].0 in MovingKeys(files, place, from) && moves[j].0 in MovingKeys(files, place, from);
      LandsUnder(from, to, moves[j].0);
    }
  }

  /** Each copy holds what the file it will replace holds. */
  ghost predicate CopiesOf(files: Files, moves: seq<(Key, Key)>, made: seq<(Key, Entry)>) {
    && |made| <= |moves|
    && forall i :: 0 <= i < |made| ==> moves[i].0 in files && made[i].0 == moves[i].1 && SameBytes(files[moves[i].0], made[i].1)
  }

  ghost function MovedKeys(moves: seq<(Key, Key)>, n: nat): set<Key>
    requires n <= |moves|
  {
    (set i | 0 <= i < n :: moves[i].0) + (set i | 0 <= i < n :: moves[i].1)
  }

  lemma MovedKeysMore(moves: seq<(Key, Key)>, n: nat)
    requires n < |moves|
    ensures MovedKeys(moves, n + 1) == MovedKeys(moves, n) + {moves[n].0, moves[n].1}
    ensures MovesApart(moves) ==> moves[n].0 !in MovedKeys(moves, n) && moves[n].1 !in MovedKeys(moves, n) && moves[n].0 != moves[n].1
    ensures forall i :: 0 <= i < n ==> moves[i].0 in MovedKeys(moves, n) && moves[i].1 in MovedKeys(moves, n)
  {
  }

  /** The first `n` moves are staged: `None` at the key moved from, the copy at the key moved to. */
  ghost predicate StagedMoves(ch: Changes, moves: seq<(Key, Key)>, made: seq<(Key, Entry)>, n: nat)
    requires n <= |moves| && n <= |made|
  {
    && ch.Keys == MovedKeys(moves, n)
    && forall i :: 0 <= i < n ==> ch[moves[i].0] == None && ch[moves[i].1] == Some(made[i].1)
  }

  lemma NextMoveApart(ch: Changes, moves: seq<(Key, Key)>, made: seq<(Key, Entry)>, n: nat)
    requires n < |moves| && n < |made| && MovesApart(moves) && StagedMoves(ch, moves, made, n)
    ensures moves[n].0 !in ch && moves[n].1 !in ch && moves[n].0 != moves[n].1
  {
    MovedKeysMore(moves, n);
    hide MovesApart, MovedKeys;
  }

  lemma OneMoveMore(ch: Changes, moves: seq<(Key, Key)>, made: seq<(Key, Entry)>, n: nat)
    requires n < |moves| && n < |made| && StagedMoves(ch, moves, made, n)
    requires moves[n].0 !in ch && moves[n].1 !in ch && moves[n].0 != moves[n].1
    ensures StagedMoves(ch[moves[n].0 := None][moves[n].1 := Some(made[n].1)], moves, made, n + 1)
  {
    hide MovesApart, MovedKeys;
    MovedKeysMore(moves, n);
    var ch' := ch[moves[n].0 := None][moves[n].1 := Some(made[n].1)];
    assert ch'.Keys == ch.Keys + {moves[n].0, moves[n].1};
    forall i | 0 <= i < n
      ensures moves[i].0 in ch' && ch'[moves[i].0] == None && moves[i].1 in ch' && ch'[moves[i].1] == Some(made[i].1)
    {
      StagedApart(ch, moves, made, n, i);
    }
  }

  lemma StagedApart(ch: Changes, moves: seq<(Key, Key)>, made: seq<(Key, Entry)>, n: nat, i: nat)
    requires i < n < |moves| && n < |made| && StagedMoves(ch, moves, made, n)
    requires moves[n].0 !in ch && moves[n].1 !in ch
    ensures moves[i].0 in ch && moves[i].1 in ch && ch[moves[i].0] == None && ch[moves[i].1] == Some(made[i].1)
    ensures moves[i].0 !in {moves[n].0, moves[n].1} && moves[i].1 !in {moves[n].0, moves[n].1}
  {
    assert moves[i].0 in MovedKeys(moves, n) && moves[i].1 in MovedKeys(moves, n);
  }

  lemma StagedIsShift(files: Files, ch: Changes, place: string, from: string, to: string, moves: seq<(Key, Key)>, made: seq<(Key, Entry)>)
    requires TreeMoves(files, place, from, to, moves) && CopiesOf(files, moves, made) && |made| == |moves|
    requires StagedMoves(ch, moves, made, |moves|)
    ensures Shifts(files, ch, place, from, to)
  {
    hide SameBytes, Image, MovedKeys, CopiesOf, IsCompanionKey, Under, SourceOf;
    MovedKeysAre(files, place, from, to, moves);
    hide TreeMoves, StagedMoves;
    forall m | m in MovingKeys(files, place, from)
      ensures m in ch && ch[m] == None && Image(from, to, m) in ch
      ensures ch[Image(from, to, m)].Some? && SameBytes(files[m], ch[Image(from, to, m)].value)
    {
      OneShifted(files, ch, place, from, to, moves, made, m);
    }
  }

  lemma MovedKeysAre(files: Files, place: string, from: string, to: string, moves: seq<(Key, Key)>)
    requires TreeMoves(files, place, from, to, moves)
    ensures var moving := MovingKeys(files, place, from);
      MovedKeys(moves, |moves|) == moving + (set m | m in moving :: Image(from, to, m))
  {
    hide Image, MovingKeys, IsCompanionKey, Under, SourceOf;
    var moving := MovingKeys(files, place, from);
    assert (set i | 0 <= i < |moves| :: moves[i].0) == moving;
    assert (set i | 0 <= i < |moves| :: moves[i].1) == set m | m in moving :: Image(from, to, m);
  }

  lemma OneShifted(files: Files, ch: Changes, place: string, from: string, to: string, moves: seq<(Key, Key)>, made: seq<(Key, Entry)>, m: Key)
    requires TreeMoves(files, place, from, to, moves) && CopiesOf(files, moves, made) && |made| == |moves|
    requires StagedMoves(ch, moves, made, |moves|) && m in MovingKeys(files, place, from)
    ensures m in ch && ch[m] == None && Image(from, to, m) in ch
    ensures ch[Image(from, to, m)].Some? && SameBytes(files[m], ch[Image(from, to, m)].value)
  {
    hide SameBytes, Image, IsCompanionKey, Under, SourceOf;
    var i :| 0 <= i < |moves| && moves[i].0 == m;
    assert moves[i].0 in MovedKeys(moves, |moves|) && moves[i].1 in MovedKeys(moves, |moves|);
  }

  /** The files were copied one after the other; `rooms` has what was left before each and after the last. */
  ghost predicate Copied(rooms: seq<Room>, files: Files, moves: seq<(Key, Key)>, made: seq<(Key, Entry)>) {
    && CopiesOf(files, moves, made) && |rooms| == |made| + 1
    && forall j :: 0 <= j < |made| ==>
         && files[moves[j].0].Shared? && !NoPlace(rooms[j], files[moves[j].0].bytes, |files[moves[j].0].bytes|)
         && Spent(rooms[j], rooms[j + 1], Some(made[j].1))
  }

  /** Beginning in `room`, one of the files finds no place after those before it were copied. */
  ghost predicate CannotCopy(room: Room, files: Files, moves: seq<(Key, Key)>) {
    exists rooms, made ::
      && Copied(rooms, files, moves, made) && rooms[0] == room && |made| < |moves|
      && moves[|made|].0 in files && files[moves[|made|].0].Shared?
      && NoPlace(rooms[|made|], files[moves[|made|].0].bytes, |files[moves[|made|].0].bytes|)
  }

  lemma NothingCopied(files: Files, moves: seq<(Key, Key)>, room: Room)
    ensures CopiesOf(files, moves, []) && Copied([room], files, moves, [])
  {
  }

  lemma CopiedMore(rooms: seq<Room>, files: Files, moves: seq<(Key, Key)>, made: seq<(Key, Entry)>, e: Entry, post: Room)
    requires Copied(rooms, files, moves, made) && |made| < |moves| && moves[|made|].0 in files
    requires SameBytes(files[moves[|made|].0], e) && files[moves[|made|].0].Shared?
    requires !NoPlace(rooms[|made|], files[moves[|made|].0].bytes, |files[moves[|made|].0].bytes|) && Spent(rooms[|made|], post, Some(e))
    ensures var more := made + [(moves[|made|].1, e)];
      CopiesOf(files, moves, more) && Copied(rooms + [post], files, moves, more) && (rooms + [post])[0] == rooms[0]
  {
    hide NoPlace, Spent, SameBytes;
  }

  lemma CopyStuck(rooms: seq<Room>, files: Files, moves: seq<(Key, Key)>, made: seq<(Key, Entry)>)
    requires Copied(rooms, files, moves, made) && |made| < |moves| && moves[|made|].0 in files && files[moves[|made|].0].Shared?
    requires NoPlace(rooms[|made|], files[moves[|made|].0].bytes, |files[moves[|made|].0].bytes|)
    ensures CannotCopy(rooms[0], files, moves)
  {
    hide NoPlace, Copied;
  }

  /** Copy every file of the list, or none. */
  method CopyTree(k: VfsKernel, moves: seq<(Key, Key)>) returns (ok: bool, made: seq<(Key, Entry)>)
    requires Idle(k) && forall i :: 0 <= i < |moves| ==> moves[i].0 in k.files && k.files[moves[i].0].Shared?
    modifies k`ledger, k.cache`minted, k.cache.pool, k.cache.registry, k.cache.Sabs()
    ensures Idle(k)
    ensures !ok ==> k.View() == old(k.View()).(minted := k.cache.minted, mem := k.cache.Mem())
    ensures ok ==> Holding(old(k.View()), k.View(), made) && |made| == |moves| && CopiesOf(k.files, moves, made)
    ensures !ok ==> CannotCopy(old(k.cache.registry.Space()), k.files, moves)
    ensures PoolGrew(old(k.cache.pool.segments), k.cache.pool.segments)
    ensures forall id :: id in k.cache.pool.segments && id !in old(k.cache.pool.segments) ==> fresh(k.cache.pool.segments[id])
  {
    hide Settled, Holding, FilesystemCache.Mem, VfsKernel.Represents, VfsKernel.View, NoPlace, Spent, CopiesOf, Copied, CannotCopy, SegmentRegistry.Space;
    ghost var s := k.View();
    ghost var rooms := [k.cache.registry.Space()];
    HoldingNothing(s);
    NothingCopied(k.files, moves, rooms[0]);
    made := [];
    for i := 0 to |moves|
      invariant Idle(k) && Holding(s, k.View(), made) && |made| == i && CopiesOf(k.files, moves, made)
      invariant |rooms| == i + 1 && Copied(rooms, k.files, moves, made) && rooms[0] == old(k.cache.registry.Space()) && rooms[i] == k.cache.registry.Space()
      invariant PoolGrew(old(k.cache.pool.segments), k.cache.pool.segments)
      invariant forall id :: id in k.cache.pool.segments && id !in old(k.cache.pool.segments) ==> fresh(k.cache.pool.segments[id])
    {
      var e := CopyFile(k, moves[i].0, moves[i].1, s, made);
      if e.None? {
        CopyStuck(rooms, k.files, moves, made);
        Withdraw(k, s, made);
        return false, made;
      }
      CopiedMore(rooms, k.files, moves, made, e.value, k.cache.registry.Space());
      rooms := rooms + [k.cache.registry.Space()];
      made := made + [(moves[i].1, e.value)];
    }
    ok := true;
  }

  /** A private copy of one published file. */
  method CopyFile(k: VfsKernel, from: Key, to: Key, ghost s0: State, ghost made: seq<(Key, Entry)>) returns (e: Option<Entry>)
    requires Idle(k) && Holding(s0, k.View(), made) && from in k.files && k.files[from].Shared?
    modifies k`ledger, k.cache`minted, k.cache.pool, k.cache.registry, k.cache.Sabs()
    ensures Idle(k)
    ensures e.None? ==> k.View() == old(k.View())
    ensures e.Some? ==> SameBytes(k.files[from], e.value) && Holding(s0, k.View(), made + [(to, e.value)])
    ensures e.None? <==> NoPlace(old(k.cache.registry.Space()), k.files[from].bytes, |k.files[from].bytes|)
    ensures Spent(old(k.cache.registry.Space()), k.cache.registry.Space(), e)
    ensures PoolGrew(old(k.cache.pool.segments), k.cache.pool.segments)
    ensures forall id :: id in k.cache.pool.segments && id !in old(k.cache.pool.segments) ==> fresh(k.cache.pool.segments[id])
  {
    hide Settled, Holding, AfterAllocate, NoPlace, Took, FilesystemCache.Mem, VfsKernel.Represents;
    ghost var s := k.View();
    var data := ReadPublished(k, from);
    var r := k.Allocate(data, None, |data|, "", false, false, Some(k.files[from].origin));
    if !r.Placed? {
      return None;
    }
    HoldingMore(s0, s, made, to, r.entry, k.cache.Mem());
    e := Some(r.entry);
  }

  /** Stage the moves: each old key goes, and its copy comes under the new key. */
  method StageTree(k: VfsKernel, ep: Staging, moves: seq<(Key, Key)>, made: seq<(Key, Entry)>)
    requires Idle(k) && ep.changes == map[] && |made| == |moves| && MovesApart(moves) && Unstaged(k.ledger, map[], made)
    modifies ep, k`ledger, k.cache.pool, k.cache.registry
    ensures Idle(k) && Publishable(k.View(), ep.changes) && StagedMoves(ep.changes, moves, made, |moves|)
    ensures k.View() == old(k.View()) && k.cache.pool.segments == old(k.cache.pool.segments)
  {
    hide Settled, Publishable, StagedMoves, MovesApart, FilesystemCache.Mem, VfsKernel.Represents, AfterSupersede, PublishedBy, Unstaged;
    ghost var s := k.View();
    NothingPublished(s);
    NothingMoved(moves, made);
    for i := 0 to |moves|
      invariant Idle(k) && Publishable(k.View(), ep.changes) && StagedMoves(ep.changes, moves, made, i)
      invariant k.View() == s && k.cache.pool.segments == old(k.cache.pool.segments)
    {
      NextMoveApart(ep.changes, moves, made, i);
      OneMoveMore(ep.changes, moves, made, i);
      CopyUnstaged(k, ep.changes, moves, made, i);
      NothingSuperseded(s, ep.changes, moves[i].0);
      NothingSuperseded(s, ep.changes[moves[i].0 := None], moves[i].1);
      k.Stage(ep, moves[i].0, None);
      k.Stage(ep, moves[i].1, Some(made[i].1));
    }
  }

  lemma NothingMoved(moves: seq<(Key, Key)>, made: seq<(Key, Entry)>)
    ensures StagedMoves(map[], moves, made, 0)
  {
  }

  lemma NothingSuperseded(s: State, ch: Changes, key: Key)
    requires key !in ch
    ensures AfterSupersede(s, ch, key) == s
  {
  }

  /** The next copy is staged nowhere yet. */
  lemma CopyUnstaged(k: VfsKernel, ch: Changes, moves: seq<(Key, Key)>, made: seq<(Key, Entry)>, n: nat)
    requires n < |moves| == |made| && Unstaged(k.ledger, map[], made) && StagedMoves(ch, moves, made, n)
    ensures IsPrivate(k.ledger, made[n].1) && !PublishedBy(ch, made[n].1) && !PublishedBy(ch[moves[n].0 := None], made[n].1)
  {
    forall x | x in ch ensures ch[x] != Some(made[n].1) {
      if ch[x].Some? {
        var i :| 0 <= i < n && (moves[i].0 == x || moves[i].1 == x);
        assert made[i].1.id != made[n].1.id;
      }
    }
  }

  /**
   * Either one `Flush` that `Shifts` the subtree, or no flush and every copy the attempt had made
   * given up.
   */
  method RenameTree(k: VfsKernel, ghost setup: Setup, ghost place: string, ghost from: string, ghost to: string, moves: seq<(Key, Key)>, owner: Option<Req>)
    returns (ok: bool, ghost ch: Changes)
    requires MayCommit(Calls(k.serving, k.credit), owner)
    requires Idle(k) && TreeMoves(k.files, place, from, to, moves)
    requires forall i :: 0 <= i < |moves| ==> moves[i].0 in k.files && k.files[moves[i].0].Shared?
    modifies k, k.pins`bound, k.pins`ever, k.cache, k.cache.pool, k.cache.registry, k.cache.Sabs()
    ensures Idle(k)
    ensures !ok ==> k.View() == old(k.View()).(minted := k.cache.minted, mem := k.cache.Mem())
    ensures !ok ==> CannotCopy(old(k.cache.registry.Space()), old(k.files), moves)
    ensures ok ==> Shifts(old(k.cache.entries), ch, place, from, to) && SameContent(After(old(k.cache.entries), ch), k.cache.entries)
    ensures ok ==> Posted(old(k.View()), k.View(), ch, owner)
    ensures Sound(setup) && CoherentHistory(setup, old(k.View())) ==> CoherentHistory(setup, k.View())
  {
    hide Sound, CoherentHistory, Grouped, SameContent, After, FilesystemCache.Mem, Idle, Publishable, Holding, Shifts, TreeMoves, MovesApart, StagedMoves, CopiesOf, CannotCopy, Posted, SegmentRegistry.Space;
    ghost var s := k.View();
    TreeApart(k.files, place, from, to, moves);
    MainProjectsIndex(k);
    var ep := new Staging();
    var made;
    ok, made := CopyTree(k, moves);
    ghost var t := k.View();
    OnlyBytes(setup, s, t);
    ch := map[];
    if !ok {
      return;
    }
    HoldingLedger(setup, s, t, made);
    StageTree(k, ep, moves, made);
    StagedIsShift(s.index, ep.changes, place, from, to, moves, made);
    ShiftGrouped(setup, s.index, ep.changes, place, from, to);
    ch := ep.changes;
    FlushEpoch(k, setup, ep.changes, owner);
    PostedSince(s, t, k.View(), ch, owner);
  }

  lemma ShiftGrouped(setup: Setup, files: Files, ch: Changes, place: string, from: string, to: string)
    requires Shifts(files, ch, place, from, to)
    ensures Grouped(setup, files, ch)
  {
    hide Shifts;
  }

  lemma MainProjectsIndex(k: VfsKernel)
    requires Idle(k)
    ensures k.files == k.cache.entries
  {
    hide Reachable, Coupled, Inv, FilesystemCache.Mem, FilesystemCache.Valid;
    ReachableInv(k.View());
    FilesAreIndex(k.View());
  }

  lemma HoldingLedger(setup: Setup, s0: State, s: State, made: seq<(Key, Entry)>)
    requires Holding(s0, s, made)
    ensures Unstaged(s.ledger, map[], made) && s.index == s0.index && (CoherentHistory(setup, s0) ==> CoherentHistory(setup, s))
  {
    OnlyBytes(setup, s0, s);
    hide Ids, Unstaged, CoherentHistory;
  }

  /** After the update each file under `from` is found under `to` with the same bytes, and every other file is as it was. */
  lemma ShiftedContent(files: Files, ch: Changes, place: string, from: string, to: string, after: Files, k: Key)
    requires Shifts(files, ch, place, from, to) && SameContent(After(files, ch), after)
    ensures k in MovingKeys(files, place, from) ==> k !in after && Image(from, to, k) in after && SameBytes(files[k], after[Image(from, to, k)])
    ensures k in files && k !in MovingKeys(files, place, from) ==> k in after && SameBytes(files[k], after[k])
    ensures k in after ==> k in files || exists m :: m in MovingKeys(files, place, from) && k == Image(from, to, m)
  {
    if k in MovingKeys(files, place, from) {
      ShiftedAt(files, ch, place, from, to, k);
    }
    forall m | m in MovingKeys(files, place, from) ensures Image(from, to, m) !in files {
      LandsUnder(from, to, m);
    }
    hide Image, MovingKeys;
  }
}
