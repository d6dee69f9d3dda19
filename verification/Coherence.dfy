/** No thread ever sees a companion that was built from another version than the source it projects. */
module Coherence {
  import opened Layout
  import opened Paths
  import opened Companion
  import opened Protocol
  import opened Invariant
  import opened Safety
  import opened Upkeep
  import opened History
  import opened Kernel
  import P = Publication
  import Subtree

  /**
   * Which companions a source of each key gets, which a place may hold at all, and what the compiler
   * and the codecs may make of the bytes of a source.
   */
  datatype Setup = Setup(flavors: Key -> set<Flavor>, kinds: string -> set<Flavor>, permits: (Flavor, seq<byte>, seq<byte>) -> bool)

  /** Settings go by extension, so by the last name of a key. */
  ghost predicate Sound(setup: Setup) {
    && (forall k :: setup.flavors(k) <= setup.kinds(k.place))
    && (forall a: Key, b: Key :: a.place == b.place && P.BaseName(a.name) == P.BaseName(b.name) ==> setup.flavors(a) == setup.flavors(b))
  }

  predicate IsSource(k: Key) {
    !IsCompanionKey(k.name)
  }

  function SourceKey(k: Key): Key {
    Key(k.place, SourceOf(k.name))
  }

  function Derived(k: Key, fl: Flavor): Key {
    Key(k.place, CompanionKey(k.name, fl))
  }

  /** The companion was built from this very version, and holds what becomes of its bytes. */
  predicate MadeOf(setup: Setup, fl: Flavor, source: Entry, companion: Entry) {
    && companion.Shared? && companion.origin == source.origin
    && (source.Shared? ==> setup.permits(fl, source.bytes, companion.bytes))
  }

  /** The source of `c` is there, and `c` was built from just that version of it. */
  ghost predicate BuiltFromSource(setup: Setup, files: Files, c: Key)
    requires c in files
  {
    var k := SourceKey(c);
    k in files && exists fl :: fl in setup.flavors(k) && c == Derived(k, fl) && MadeOf(setup, fl, files[k], files[c])
  }

  ghost predicate Coherent(setup: Setup, files: Files) {
    forall c :: c in files && !IsSource(c) ==> BuiltFromSource(setup, files, c)
  }

  // --- Epochs ---

  /** What an epoch collects: a source with the companions that could be built, or the removal of a source. */
  datatype Op =
    | Store(key: Key, source: Entry, built: map<Flavor, Entry>)
    | Unstage(key: Key)

  predicate Legal(setup: Setup, op: Op) {
    && IsSource(op.key)
    && (op.Store? ==>
         && op.source.origin == op.source.id
         && op.built.Keys <= setup.flavors(op.key)
         && forall fl :: fl in op.built ==> MadeOf(setup, fl, op.source, op.built[fl]))
  }

  lemma DerivedApart(k: Key)
    ensures forall x, y :: Derived(k, x) == Derived(k, y) ==> x == y
  {
    P.FlavorKeysApart(k.name);
  }

  lemma DerivedOf(k: Key, fl: Flavor)
    requires IsSource(k)
    ensures !IsSource(Derived(k, fl)) && SourceKey(Derived(k, fl)) == k
  {
    CompanionOf(k.name, fl);
  }

  lemma SourceOfKey(k: Key)
    ensures IsSource(SourceKey(k))
    ensures IsSource(k) ==> SourceKey(k) == k
  {
    Subtree.SourcePrefix(k.name);
    if IsSource(k) {
      SourceOfSource(k.name);
    }
  }

  /** The companions an operation stages with its source. */
  function StagedFlavors(setup: Setup, op: Op): set<Flavor> {
    if op.Store? then setup.flavors(op.key) else setup.kinds(op.key.place)
  }

  function Built(op: Op): map<Flavor, Entry> {
    if op.Store? then op.built else map[]
  }

  function Kept(built: map<Flavor, Entry>, fl: Flavor): Option<Entry> {
    if fl in built then Some(built[fl]) else None
  }

  /** Of all `flavors` those in `built` come, and the others go. */
  function Companions(key: Key, flavors: set<Flavor>, built: map<Flavor, Entry>): Changes {
    DerivedApart(key);
    map fl | fl in flavors :: Derived(key, fl) := Kept(built, fl)
  }

  /** The changes one operation stages: companions that could not be built are dropped, not kept. */
  function Staged(setup: Setup, op: Op): Changes {
    map[op.key := if op.Store? then Some(op.source) else None] + Companions(op.key, StagedFlavors(setup, op), Built(op))
  }

  function StagedAll(setup: Setup, ops: seq<Op>): Changes {
    if ops == [] then map[] else StagedAll(setup, ops[..|ops| - 1]) + Staged(setup, ops[|ops| - 1])
  }

  ghost predicate Batch(setup: Setup, ch: Changes, ops: seq<Op>) {
    (forall op :: op in ops ==> Legal(setup, op)) && ch == StagedAll(setup, ops)
  }

  function Image(from: string, to: string, k: Key): Key {
    Key(k.place, Subtree.Rekey(from, to, k.name))
  }

  /** The sources under `from` in a place, and their companions. */
  ghost function MovingKeys(files: Files, place: string, from: string): set<Key> {
    set k | k in files && k.place == place && Under(SourceOf(k.name), from)
  }

  /** Every file under `from` goes, and a copy of it comes under `to`, where nothing was. */
  ghost predicate Shifts(files: Files, ch: Changes, place: string, from: string, to: string) {
    var moving := MovingKeys(files, place, from);
    && !IsCompanionKey(to)
    && (forall k :: k in files && k.place == place ==> !Under(SourceOf(k.name), to))
    && ch.Keys == moving + (set m | m in moving :: Image(from, to, m))
    && forall m :: m in moving ==>
         && ch[m] == None
         && ch[Image(from, to, m)].Some? && SameBytes(files[m], ch[Image(from, to, m)].value)
  }

  /** Publications and removals, a subtree rename, or a compaction. */
  ghost predicate Grouped(setup: Setup, files: Files, ch: Changes) {
    || (exists ops :: Batch(setup, ch, ops))
    || (exists place, from, to :: Shifts(files, ch, place, from, to))
    || Relocates(files, ch)
  }

  function After(files: Files, ch: Changes): Files {
    map k | k in files.Keys + ch.Keys && (k in ch ==> ch[k].Some?) :: if k in ch then ch[k].value else files[k]
  }

  lemma AfterIsCommitted(files: Files, ch: Changes)
    ensures (files + Added(ch)) - Removed(files, ch) == After(files, ch)
  {
  }

  lemma AfterThen(files: Files, a: Changes, b: Changes)
    ensures After(files, a + b) == After(After(files, a), b)
  {
  }

  // --- Each kind of epoch keeps source and companions together ---

  lemma CompanionsAt(key: Key, flavors: set<Flavor>, built: map<Flavor, Entry>)
    ensures forall fl :: fl in flavors ==>
      Derived(key, fl) in Companions(key, flavors, built) && Companions(key, flavors, built)[Derived(key, fl)] == Kept(built, fl)
    ensures forall k :: k in Companions(key, flavors, built) ==> exists fl :: fl in flavors && k == Derived(key, fl)
  {
    DerivedApart(key);
    hide Derived, Kept;
    var all := Companions(key, flavors, built);
    forall fl | fl in flavors ensures Derived(key, fl) in all && all[Derived(key, fl)] == Kept(built, fl) {
      var k := Derived(key, fl);
      assert k in all;
      var x :| x in flavors && k == Derived(key, x) && all[k] == Kept(built, x);
    }
    forall k | k in all ensures exists fl :: fl in flavors && k == Derived(key, fl) {
      var x :| x in flavors && k == Derived(key, x) && all[k] == Kept(built, x);
    }
  }

  /** Trying one more flavor adds one change. */
  lemma CompanionsMore(key: Key, flavors: set<Flavor>, built: map<Flavor, Entry>, fl: Flavor, built': map<Flavor, Entry>)
    requires fl !in flavors && forall x :: x in flavors ==> Kept(built', x) == Kept(built, x)
    ensures Derived(key, fl) !in Companions(key, flavors, built)
    ensures Companions(key, flavors + {fl}, built') == Companions(key, flavors, built)[Derived(key, fl) := Kept(built', fl)]
  {
    DerivedApart(key);
    CompanionsAt(key, flavors, built);
    CompanionsAt(key, flavors + {fl}, built');
    hide Derived, Kept, Companions;
  }

  lemma StagedSource(setup: Setup, op: Op)
    requires IsSource(op.key)
    ensures op.key in Staged(setup, op) && Staged(setup, op)[op.key] == if op.Store? then Some(op.source) else None
    ensures forall k :: k in Staged(setup, op) && IsSource(k) ==> k == op.key
  {
    CompanionsAt(op.key, StagedFlavors(setup, op), Built(op));
    forall fl ensures !IsSource(Derived(op.key, fl)) {
      DerivedOf(op.key, fl);
    }
    hide Derived, IsSource, Companions;
  }

  lemma StagedCompanion(setup: Setup, op: Op, fl: Flavor)
    requires fl in StagedFlavors(setup, op)
    ensures Derived(op.key, fl) in Staged(setup, op) && Staged(setup, op)[Derived(op.key, fl)] == Kept(Built(op), fl)
  {
    CompanionsAt(op.key, StagedFlavors(setup, op), Built(op));
    hide Derived, Companions;
  }

  lemma StagedOnly(setup: Setup, op: Op, k: Key)
    requires IsSource(op.key) && k in Staged(setup, op) && !IsSource(k)
    ensures exists fl :: fl in StagedFlavors(setup, op) && k == Derived(op.key, fl)
  {
    CompanionsAt(op.key, StagedFlavors(setup, op), Built(op));
    hide Derived, Companions;
  }

  /** What an operation stages are companions of its source: built ones of the flavors it gets. */
  lemma StagedFresh(setup: Setup, files: Files, op: Op, c: Key)
    requires Sound(setup) && Legal(setup, op) && c in Staged(setup, op) && !IsSource(c) && c in After(files, Staged(setup, op))
    ensures BuiltFromSource(setup, After(files, Staged(setup, op)), c)
  {
    StagedSource(setup, op);
    StagedOnly(setup, op, c);
    var fl :| fl in StagedFlavors(setup, op) && c == Derived(op.key, fl);
    StagedCompanion(setup, op, fl);
    DerivedOf(op.key, fl);
    hide Staged, Sound, IsSource, SourceKey, Derived;
  }

  /** An operation stages every companion its source can have. */
  lemma StagesEvery(setup: Setup, op: Op, fl: Flavor)
    requires Sound(setup) && IsSource(op.key) && fl in setup.flavors(op.key)
    ensures Derived(op.key, fl) in Staged(setup, op)
  {
    assert setup.flavors(op.key) <= setup.kinds(op.key.place);
    StagedCompanion(setup, op, fl);
  }

  /** Companions of other sources stay, and so do those sources. */
  lemma StagedOthers(setup: Setup, files: Files, op: Op, c: Key)
    requires Sound(setup) && Legal(setup, op) && c !in Staged(setup, op) && !IsSource(c) && c in files && BuiltFromSource(setup, files, c)
    ensures BuiltFromSource(setup, After(files, Staged(setup, op)), c)
  {
    StagedSource(setup, op);
    SourceOfKey(c);
    var k := SourceKey(c);
    var fl :| fl in setup.flavors(k) && c == Derived(k, fl) && MadeOf(setup, fl, files[k], files[c]);
    if fl in setup.flavors(op.key) {
      StagesEvery(setup, op, fl);
    }
    hide Staged, Sound, IsSource, SourceKey, Derived;
  }

  lemma StageKeepsCoherent(setup: Setup, files: Files, op: Op)
    requires Sound(setup) && Legal(setup, op) && Coherent(setup, files)
    ensures Coherent(setup, After(files, Staged(setup, op)))
  {
    hide Staged, Sound, IsSource, BuiltFromSource, Legal;
    var ch, after := Staged(setup, op), After(files, Staged(setup, op));
    forall c | c in after && !IsSource(c) ensures BuiltFromSource(setup, after, c) {
      if c in ch {
        StagedFresh(setup, files, op, c);
      } else {
        StagedOthers(setup, files, op, c);
      }
    }
  }

  lemma {:induction false} BatchKeepsCoherent(setup: Setup, files: Files, ops: seq<Op>)
    requires Sound(setup) && Coherent(setup, files) && forall op :: op in ops ==> Legal(setup, op)
    ensures Coherent(setup, After(files, StagedAll(setup, ops)))
  {
    hide Sound, Coherent, Staged, After, Legal;
    if ops == [] {
      NothingStaged(files);
    } else {
      var first, last := ops[..|ops| - 1], ops[|ops| - 1];
      assert forall op :: op in first ==> op in ops;
      assert last in ops;
      BatchKeepsCoherent(setup, files, first);
      StageKeepsCoherent(setup, After(files, StagedAll(setup, first)), last);
      AfterThen(files, StagedAll(setup, first), Staged(setup, last));
    }
  }

  lemma NothingStaged(files: Files)
    ensures After(files, map[]) == files
  {
  }

  /** A copy of what moves is there under the new key. */
  lemma ShiftedAt(files: Files, ch: Changes, place: string, from: string, to: string, m: Key)
    requires Shifts(files, ch, place, from, to) && m in MovingKeys(files, place, from)
    ensures Image(from, to, m) in After(files, ch) && SameBytes(files[m], After(files, ch)[Image(from, to, m)])
  {
    hide MovingKeys, SameBytes, Image;
  }

  /** The companion of a moved source is what its moved companion is called. */
  lemma ShiftedNames(setup: Setup, from: string, to: string, m: Key, fl: Flavor)
    requires Sound(setup) && !IsCompanionKey(to) && Under(SourceOf(m.name), from) && m == Derived(SourceKey(m), fl)
    ensures SourceKey(Image(from, to, m)) == Image(from, to, SourceKey(m))
    ensures Image(from, to, m) == Derived(Image(from, to, SourceKey(m)), fl)
    ensures setup.flavors(Image(from, to, SourceKey(m))) == setup.flavors(SourceKey(m))
  {
    var s := SourceKey(m);
    Subtree.RekeyKeepsSource(from, to, m.name);
    SourceOfKey(m);
    SourceOfKey(s);
    Subtree.RekeyCompanion(from, to, s.name, fl);
    SameFlavors(setup, s, from, to);
    hide Sound, Subtree.Rekey, CompanionKey, SourceOf, Under;
  }

  /** Moving a source to another directory does not change which companions it gets. */
  lemma SameFlavors(setup: Setup, s: Key, from: string, to: string)
    requires Sound(setup) && IsSource(s) && Under(SourceOf(s.name), from)
    ensures setup.flavors(Image(from, to, s)) == setup.flavors(s)
  {
    SourceOfKey(s);
    Subtree.SameBaseName(from, to, s.name);
    hide P.BaseName, SourceOf, Under;
  }

  /** A source that moves with a companion of its own is a source under the old key. */
  lemma MovedCompanion(from: string, to: string, m: Key)
    requires !IsCompanionKey(to) && Under(SourceOf(m.name), from) && !IsSource(Image(from, to, m))
    ensures !IsSource(m) && Under(SourceOf(SourceKey(m).name), from) && IsSource(SourceKey(m))
  {
    Subtree.RekeyKeepsSource(from, to, m.name);
    SourceOfKey(m);
    SourceOfKey(SourceKey(m));
  }

  /** A source moves with its companions: both keep their bytes, and the new keys belong together. */
  lemma ShiftedCompanion(setup: Setup, files: Files, ch: Changes, place: string, from: string, to: string, m: Key)
    requires Sound(setup) && Coherent(setup, files) && Shifts(files, ch, place, from, to)
    requires m in MovingKeys(files, place, from) && !IsSource(Image(from, to, m))
    ensures BuiltFromSource(setup, After(files, ch), Image(from, to, m))
  {
    var s := SourceKey(m);
    MovedCompanion(from, to, m);
    assert BuiltFromSource(setup, files, m);
    assert s in MovingKeys(files, place, from);
    ShiftedAt(files, ch, place, from, to, m);
    ShiftedAt(files, ch, place, from, to, s);
    hide Shifts, After, MovingKeys, Coherent, Sound, IsSource, Image, Derived, SourceKey, Under;
    var fl :| fl in setup.flavors(s) && m == Derived(s, fl) && MadeOf(setup, fl, files[s], files[m]);
    ShiftedNames(setup, from, to, m, fl);
  }

  lemma ShiftKeepsCoherent(setup: Setup, files: Files, ch: Changes, place: string, from: string, to: string)
    requires Sound(setup) && Coherent(setup, files) && Shifts(files, ch, place, from, to)
    ensures Coherent(setup, After(files, ch))
  {
    var moving, after := MovingKeys(files, place, from), After(files, ch);
    forall c | c in after && !IsSource(c) ensures BuiltFromSource(setup, after, c) {
      if c in ch {
        var m :| m in moving && c == Image(from, to, m);
        ShiftedCompanion(setup, files, ch, place, from, to, m);
      } else {
        assert BuiltFromSource(setup, files, c);
        StayingSource(files, ch, place, from, to, c);
      }
    }
  }

  /** The source of a companion that stays, stays. */
  lemma StayingSource(files: Files, ch: Changes, place: string, from: string, to: string, c: Key)
    requires Shifts(files, ch, place, from, to) && c in files && SourceKey(c) in files && c !in ch
    ensures SourceKey(c) !in ch
  {
    var s := SourceKey(c);
    SourceOfKey(c);
    SourceOfKey(s);
    if s in ch && s !in MovingKeys(files, place, from) {
      var m :| m in MovingKeys(files, place, from) && s == Image(from, to, m);
      LandsUnder(from, to, m);
    }
  }

  lemma LandsUnder(from: string, to: string, m: Key)
    requires !IsCompanionKey(to) && Under(SourceOf(m.name), from)
    ensures Under(SourceOf(Image(from, to, m).name), to)
  {
    Subtree.RekeyKeepsSource(from, to, m.name);
    var s := SourceOf(m.name);
    SourceOfKey(m);
    SourceOfSource(s);
    assert Subtree.Rekey(from, to, s) == to + s[|from|..];
  }

  lemma RelocationKeepsCoherent(setup: Setup, files: Files, ch: Changes)
    requires Coherent(setup, files) && Relocates(files, ch)
    ensures Coherent(setup, After(files, ch))
  {
    var after := After(files, ch);
    assert after.Keys == files.Keys;
    forall k | k in files ensures SameBytes(files[k], after[k]) {
      assert k in ch ==> SameBytes(files[k], ch[k].value);
    }
    forall c | c in after && !IsSource(c) ensures BuiltFromSource(setup, after, c) {
      assert BuiltFromSource(setup, files, c);
    }
  }

  lemma EpochKeepsCoherent(setup: Setup, files: Files, ch: Changes)
    requires Sound(setup) && Coherent(setup, files) && Grouped(setup, files, ch)
    ensures Coherent(setup, (files + Added(ch)) - Removed(files, ch))
  {
    hide Sound, Coherent, Shifts, Relocates, After;
    AfterIsCommitted(files, ch);
    if ops :| Batch(setup, ch, ops) {
      BatchKeepsCoherent(setup, files, ops);
    } else if place, from, to :| Shifts(files, ch, place, from, to) {
      ShiftKeepsCoherent(setup, files, ch, place, from, to);
    } else {
      RelocationKeepsCoherent(setup, files, ch);
    }
  }

  // --- Every thread, at any time ---

  /** Every index there ever was is coherent. */
  ghost predicate CoherentHistory(setup: Setup, s: State) {
    && |s.hist| == |s.log| + 1 && s.hist[|s.log|] == s.index
    && forall n :: 0 <= n < |s.hist| ==> Coherent(setup, s.hist[n])
  }

  lemma InitiallyCoherent(setup: Setup)
    ensures CoherentHistory(setup, Initial)
  {
  }

  lemma IndexGrows(setup: Setup, s: State, t: State)
    requires CoherentHistory(setup, s) && Coherent(setup, t.index)
    requires |t.log| == |s.log| + 1 && t.hist == s.hist + [t.index]
    ensures CoherentHistory(setup, t)
  {
    hide Coherent;
  }

  lemma FlushKeepsHistory(setup: Setup, s: State, ch: Changes, ids: map<Key, nat>, owner: Option<Req>)
    requires Sound(setup) && CoherentHistory(setup, s) && Numbered(s, ch, ids) && Grouped(setup, s.index, ch)
    ensures CoherentHistory(setup, Credited(s, Commit(s, ch, ids), owner))
  {
    CreditPast(s, Commit(s, ch, ids), owner);
    CommitKeepsHistory(setup, s, ch, ids);
    hide Sound, Coherent, Grouped, Numbered, Commit, Credited;
  }

  lemma CommitKeepsHistory(setup: Setup, s: State, ch: Changes, ids: map<Key, nat>)
    requires Sound(setup) && CoherentHistory(setup, s) && Numbered(s, ch, ids) && Grouped(setup, s.index, ch)
    ensures CoherentHistory(setup, Commit(s, ch, ids))
  {
    EpochKeepsCoherent(setup, s.index, ch);
    hide Sound, Coherent, Grouped, Numbered, Commit, Vacuous;
    if Vacuous(s.index, ch) {
      VacuousFlush(s, ch, ids);
    } else {
      FlushPast(s, ch, ids);
      IndexGrows(setup, s, Commit(s, ch, ids));
    }
  }

  lemma EventKeepsHistory(setup: Setup, s: State, ev: Event)
    requires Sound(setup) && CoherentHistory(setup, s) && Enabled(s, ev)
    requires ev.Flush? ==> Grouped(setup, s.index, ev.changes)
    ensures CoherentHistory(setup, Next(s, ev))
  {
    hide Sound, Coherent, Grouped;
    if ev.Flush? {
      hide CoherentHistory;
      FlushKeepsHistory(setup, s, ev.changes, ev.ids, ev.owner);
    } else {
      OthersKeepPast(s, ev);
      hide Enabled, Next;
    }
  }

  ghost predicate GroupedRun(setup: Setup, states: seq<State>, events: seq<Event>) {
    Run(states, events) && forall i :: 0 <= i < |events| && events[i].Flush? ==> Grouped(setup, states[i].index, events[i].changes)
  }

  lemma {:induction false} RunKeepsHistory(setup: Setup, states: seq<State>, events: seq<Event>, n: nat)
    requires Sound(setup) && GroupedRun(setup, states, events) && CoherentHistory(setup, states[0]) && n <= |events|
    ensures CoherentHistory(setup, states[n])
  {
    hide Sound, CoherentHistory, Grouped, Enabled, Next;
    if n > 0 {
      RunKeepsHistory(setup, states, events, n - 1);
      EventKeepsHistory(setup, states[n - 1], events[n - 1]);
    }
  }

  /** Whatever a thread projects is some index there was. */
  lemma ProjectionCoherent(setup: Setup, s: State, who: Holder)
    requires Inv(s) && CoherentHistory(setup, s)
    ensures Coherent(setup, FilesOf(s, who))
  {
    hide LedgerInv, RoleInv, RecordInv, AckInv, HeldForAcks, HoldersInv, VisibleInv, MainPinInv, PinnedInv, HoldInv, InboxInv, OutboxInv, Ordered;
    match who
    case Main =>
    case Worker(l) =>
      if l in s.peers {
        assert s.peers[l].files == s.hist[s.peers[l].applied];
      }
  }

  /**
   * Through every run of republishing, failed codecs, removals, file and subtree renames and
   * compactions, in whatever order workers take their updates: each companion any thread projects
   * was built from the very source version that thread projects, and none outlives its source.
   */
  lemma CoherentInEveryThread(setup: Setup, states: seq<State>, events: seq<Event>, n: nat, who: Holder, c: Key)
    requires Sound(setup) && GroupedRun(setup, states, events) && states[0] == Initial && n <= |events|
    requires c in FilesOf(states[n], who) && IsCompanionKey(c.name)
    ensures var files, k := FilesOf(states[n], who), SourceKey(c);
      k in files && exists fl :: fl in setup.flavors(k) && c == Derived(k, fl) && MadeOf(setup, fl, files[k], files[c])
  {
    hide Sound, GroupedRun, CoherentHistory, Inv, Enabled, Next;
    InitiallyCoherent(setup);
    RunKeepsHistory(setup, states, events, n);
    InitialInv();
    GroupedRuns(setup, states, events);
    RunKeepsInv(states, events, n);
    ProjectionCoherent(setup, states[n], who);
    assert BuiltFromSource(setup, FilesOf(states[n], who), c);
  }

  lemma GroupedRuns(setup: Setup, states: seq<State>, events: seq<Event>)
    requires GroupedRun(setup, states, events)
    ensures Run(states, events)
  {
  }

  // --- The kernel ---

  /** What the kernel does on its own while it settles keeps every index coherent. */
  lemma StepsKeepHistory(setup: Setup, s: State, t: State)
    requires Sound(setup) && CoherentHistory(setup, s) && Steps(s, t)
    ensures CoherentHistory(setup, t)
  {
    hide Sound, CoherentHistory, Enabled, Next, Batch, Shifts, Relocates;
    var states: seq<State>, events: seq<Event> :| Path(s, t, states, events);
    forall i | 0 <= i < |events| && events[i].Flush? ensures Grouped(setup, states[i].index, events[i].changes) {
      assert Internal(states[i], events[i]);
    }
    RunKeepsHistory(setup, states, events, |events|);
  }

  /** A flush of the kernel, with all the settling and compaction it sets off. */
  lemma KernelFlushCoherent(setup: Setup, k: VfsKernel, s: State, ch: Changes, ids: map<Key, nat>, owner: Option<Req>, who: Holder)
    requires Sound(setup) && CoherentHistory(setup, s) && Numbered(s, ch, ids) && Grouped(setup, s.index, ch)
    requires k.SettledFrom(Credited(s, Commit(s, ch, ids), owner))
    ensures CoherentHistory(setup, k.View()) && Coherent(setup, FilesOf(k.View(), who))
  {
    hide Sound, CoherentHistory, Grouped, Numbered, Commit, Credited, Steps, Settled, SameContent, PrivateKept, Reachable, Coupled, Coherent;
    FlushKeepsHistory(setup, s, ch, ids, owner);
    StepsKeepHistory(setup, Credited(s, Commit(s, ch, ids), owner), k.View());
    ReachableInv(k.View());
    ProjectionCoherent(setup, k.View(), who);
  }
}
