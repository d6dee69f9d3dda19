/** Streams and leases of every thread over whole runs: each reads the version it opened, and ends once. */
module Readers {
  import opened Layout
  import opened Ranges
  import opened Protocol
  import opened Invariant
  import opened Safety
  import opened Upkeep
  import opened History
  import opened Threads
  import L = Leases

  /**
   * One stream, or one view lease that is never read from here. `ends` counts how often its hold on
   * the version was ended.
   */
  datatype Reader = Reader(
    who: Holder, version: Entry, start: nat, end: int, highWaterMark: nat, borrowed: bool,
    offset: nat, chunks: seq<seq<byte>>, destroyed: bool, held: bool, ends: nat)

  /** All threads, and every reader there ever was. */
  datatype World = World(state: State, readers: seq<Reader>)

  datatype Act =
    | Open(who: Holder, key: Key, start: nat, end: int, highWaterMark: nat, borrowed: bool)
    | Read(id: nat)       // the consumer asks for more
    | Destroy(id: nat)    // ended, failed or aborted
    | LetGo(id: nat)      // the release of a stream or lease
    | Step(event: Event)  // anything else that happens anywhere

  // --- Steps ---

  /** A range of a file in the pool: all of it, or a part that lies in it and is not empty. */
  predicate Opens(version: Entry, start: nat, end: int) {
    version.Shared? && start <= end + 1 && end < version.extent.length
  }

  predicate Sound(r: Reader) {
    r.version.Shared? && r.highWaterMark > 0
  }

  ghost predicate Allowed(w: World, act: Act) {
    match act
    case Open(who, key, start, end, _, _) => Enabled(w.state, Pin(who, key)) && Opens(FilesOf(w.state, who)[key], start, end)
    case Read(id) => id < |w.readers| && Running(w.state, w.readers[id].who) && !w.readers[id].destroyed
    case Destroy(id) => id < |w.readers| && Running(w.state, w.readers[id].who)
    case LetGo(id) => id < |w.readers| && Running(w.state, w.readers[id].who)
    case Step(ev) => !ev.Pin? && !ev.Unpin? && Enabled(w.state, ev)
  }

  /** What a view of the segment shows at the moment. */
  function Shown(mem: Memory, e: Entry, from: nat, to: nat): (bytes: seq<byte>)
    requires e.Shared? && from <= to
    ensures |bytes| == to - from
  {
    seq(to - from, i requires 0 <= i < to - from =>
      var a := Addr(e.extent.segment, e.extent.offset + from + i); if a in mem then mem[a] else 0)
  }

  function AfterRead(r: Reader, mem: Memory): Reader
    requires Sound(r)
  {
    if r.offset > r.end then r
    else
      var stop := StopOf(r.offset, r.end, r.highWaterMark);
      r.(chunks := r.chunks + [Shown(mem, r.version, r.offset, stop)], offset := stop)
  }

  /** The release of the pin: only the first one counts. */
  function Ended(w: World, id: nat): World
    requires id < |w.readers| && Running(w.state, w.readers[id].who)
  {
    var r := w.readers[id];
    if !r.held then w
    else World(
      if r.version in PinsOf(w.state, r.who).counts then Unpinned(w.state, r.who, r.version) else w.state,
      w.readers[id := r.(held := false, ends := r.ends + 1)])
  }

  /** The stream stops; one that hands out copies gives its pin back at once. */
  function Stopped(w: World, id: nat): World
    requires id < |w.readers|
  {
    w.(readers := w.readers[id := w.readers[id].(destroyed := true)])
  }

  function NewReader(s: State, who: Holder, key: Key, start: nat, end: int, mark: nat, borrowed: bool): Reader
    requires key in FilesOf(s, who)
  {
    Reader(who, FilesOf(s, who)[key], start, end, if mark == 0 then DEFAULT_HIGH_WATER_MARK else mark, borrowed, start, [], false, true, 0)
  }

  ghost function After(w: World, act: Act): World
    requires Allowed(w, act)
    requires forall i :: 0 <= i < |w.readers| ==> Sound(w.readers[i])
  {
    match act
    case Open(who, key, start, end, mark, borrowed) =>
      World(Next(w.state, Pin(who, key)), w.readers + [NewReader(w.state, who, key, start, end, mark, borrowed)])
    case Read(id) => w.(readers := w.readers[id := AfterRead(w.readers[id], w.state.mem)])
    case Destroy(id) => if w.readers[id].borrowed then Stopped(w, id) else Ended(Stopped(w, id), id)
    case LetGo(id) => Ended(Stopped(w, id), id)
    case Step(ev) => w.(state := Next(w.state, ev))
  }

  // --- What every run keeps ---

  /** What was read so far is the version from `start` to `offset`, and the hold was ended at most once. */
  ghost predicate Faithful(r: Reader) {
    && Sound(r) && r.start <= r.offset <= r.end + 1 <= |r.version.bytes|
    && Concat(r.chunks) == r.version.bytes[r.start..r.offset]
    && (forall i :: 0 <= i < |r.chunks| ==> 0 < |r.chunks[i]| <= r.highWaterMark)
    && (!r.destroyed ==> r.held) && (r.held && r.destroyed ==> r.borrowed)
    && r.ends == (if r.held then 0 else 1)
    && (r.version.Occupies() ==> r.version.WellFormed()) && (r.offset <= r.end ==> r.version.Occupies())
  }

  /** The holds of one thread that were not ended. */
  ghost function HeldBy(readers: seq<Reader>, who: Holder): map<nat, Entry> {
    map i | 0 <= i < |readers| && readers[i].who == who && readers[i].held :: readers[i].version
  }

  /** In each thread the count of every version is the number of its readers that hold it. */
  ghost predicate Counted(counts: map<Entry, nat>, held: map<nat, Entry>) {
    && (forall e :: e in counts ==> counts[e] > 0)
    && (forall e :: L.CountOf(counts, e) == |L.LeasesOf(held, e)|)
  }

  ghost predicate KnownReaders(w: World) {
    forall i :: 0 <= i < |w.readers| && w.readers[i].who.Worker? ==> w.readers[i].who.link <= w.state.nextLink
  }

  ghost predicate CountInv(w: World) {
    forall who :: Here(w.state, who) ==> Counted(PinsOf(w.state, who).counts, HeldBy(w.readers, who))
  }

  ghost predicate WorldInv(w: World) {
    && Reachable(w.state) && KnownReaders(w) && CountInv(w)
    && forall i :: 0 <= i < |w.readers| ==> Faithful(w.readers[i])
  }

  // --- Holding ---

  /** Whoever holds a version has it pinned. */
  lemma HeldIsPinned(w: World, id: nat)
    requires CountInv(w) && id < |w.readers| && w.readers[id].held && Here(w.state, w.readers[id].who)
    ensures w.readers[id].version in PinsOf(w.state, w.readers[id].who).counts
  {
    var who, e := w.readers[id].who, w.readers[id].version;
    assert Counted(PinsOf(w.state, who).counts, HeldBy(w.readers, who));
    SomeHolds(HeldBy(w.readers, who), id, e);
  }

  lemma SomeHolds(held: map<nat, Entry>, id: nat, e: Entry)
    requires id in held && held[id] == e
    ensures |L.LeasesOf(held, e)| > 0
  {
    assert id in L.LeasesOf(held, e);
  }

  /** A pinned version is intact, whatever happens anywhere else. */
  lemma HeldIsIntact(w: World, id: nat)
    requires WorldInv(w) && id < |w.readers| && w.readers[id].held && Here(w.state, w.readers[id].who) && w.readers[id].version.Occupies()
    ensures Safe(w.state, w.readers[id].version)
  {
    HeldIsPinned(w, id);
    hide Reachable, Safe, Faithful, Counted, HeldBy;
    NoUseAfterFree(w.state, w.readers[id].who, w.readers[id].version);
  }

  lemma ShownIntact(mem: Memory, e: Entry, from: nat, to: nat)
    requires e.Shared? && e.WellFormed() && Intact(mem, e) && from <= to <= |e.bytes|
    ensures Shown(mem, e, from, to) == e.bytes[from..to]
  {
    forall i | 0 <= i < to - from ensures Shown(mem, e, from, to)[i] == e.bytes[from..to][i] {
      var j := from + i;
      IntactAt(mem, e, Addr(e.extent.segment, e.extent.offset + j));
      assert e.bytes[from..to][i] == e.bytes[j];
    }
  }

  // --- Reading ---

  lemma ReadKeepsFaithful(r: Reader, mem: Memory)
    requires Faithful(r) && !r.destroyed && (r.version.Occupies() ==> Intact(mem, r.version))
    ensures Faithful(AfterRead(r, mem))
  {
    if r.offset <= r.end {
      var stop := StopOf(r.offset, r.end, r.highWaterMark);
      ShownIntact(mem, r.version, r.offset, stop);
      ConcatMore(r.chunks, Shown(mem, r.version, r.offset, stop));
      assert r.version.bytes[r.start..r.offset] + r.version.bytes[r.offset..stop] == r.version.bytes[r.start..stop];
      hide Concat, Shown, StopOf, Intact;
    }
  }

  // --- Each act keeps it ---

  lemma AllSound(w: World)
    requires WorldInv(w)
    ensures forall i :: 0 <= i < |w.readers| ==> Sound(w.readers[i])
  {
    hide Reachable, KnownReaders, CountInv, Concat;
  }

  lemma OneReader(readers: seq<Reader>, id: nat, r: Reader, who: Holder)
    requires id < |readers| && r.who == readers[id].who && r.version == readers[id].version && r.held == readers[id].held
    ensures HeldBy(readers[id := r], who) == HeldBy(readers, who)
  {
  }

  /** A reader that goes on, or stops, changes nothing for the threads. */
  lemma ReaderKeepsWorld(w: World, id: nat, r: Reader)
    requires WorldInv(w) && id < |w.readers| && Faithful(r)
    requires r.who == w.readers[id].who && r.version == w.readers[id].version && r.held == w.readers[id].held
    ensures WorldInv(w.(readers := w.readers[id := r]))
  {
    hide Reachable, Faithful, Counted, HeldBy;
    forall who | Here(w.state, who) ensures Counted(PinsOf(w.state, who).counts, HeldBy(w.readers[id := r], who)) {
      OneReader(w.readers, id, r, who);
    }
  }

  lemma ReadKeepsWorld(w: World, id: nat)
    requires WorldInv(w) && Allowed(w, Read(id))
    ensures Sound(w.readers[id]) && WorldInv(w.(readers := w.readers[id := AfterRead(w.readers[id], w.state.mem)]))
  {
    var r := w.readers[id];
    assert Faithful(r);
    if r.version.Occupies() {
      HeldIsIntact(w, id);
    }
    hide WorldInv, Faithful, Concat, Shown, Intact;
    StillSound(r);
    ReadKeepsFaithful(r, w.state.mem);
    ReaderKeepsWorld(w, id, AfterRead(r, w.state.mem));
  }

  lemma StillSound(r: Reader)
    requires Faithful(r)
    ensures Sound(r)
  {
    hide Concat;
  }

  lemma StopKeepsWorld(w: World, id: nat)
    requires WorldInv(w) && id < |w.readers| && w.readers[id].borrowed
    ensures WorldInv(Stopped(w, id))
  {
    var r := w.readers[id].(destroyed := true);
    assert Faithful(w.readers[id]);
    assert Faithful(r) by {
      hide WorldInv, Concat;
    }
    hide WorldInv, Faithful;
    ReaderKeepsWorld(w, id, r);
  }

  // --- Opening ---

  lemma PinnedHere(s: State, who: Holder, pins: Pins, other: Holder)
    requires Running(s, who)
    ensures var t := WithPins(s, who, pins);
      && (Here(t, other) <==> Here(s, other)) && t.nextLink == s.nextLink
      && PinsOf(t, other) == (if other == who then pins else PinsOf(s, other))
  {
  }

  lemma AcquireCounts(counts: Pins, e: Entry, held: map<nat, Entry>, id: nat)
    requires Counted(counts.counts, held) && id !in held
    ensures Counted(Acquire(counts, e).counts, held[id := e])
  {
    forall f ensures L.CountOf(Acquire(counts, e).counts, f) == |L.LeasesOf(held[id := e], f)| {
      L.OneMoreLease(held, id, e, f);
      hide L.LeasesOf;
    }
    hide L.LeasesOf;
  }

  lemma NewHolds(readers: seq<Reader>, r: Reader, who: Holder)
    requires r.held
    ensures HeldBy(readers + [r], who) == if r.who == who then HeldBy(readers, who)[|readers| := r.version] else HeldBy(readers, who)
    ensures |readers| !in HeldBy(readers, who)
  {
  }

  lemma OpenKeepsWorld(w: World, who: Holder, key: Key, start: nat, end: int, mark: nat, borrowed: bool)
    requires WorldInv(w) && Allowed(w, Open(who, key, start, end, mark, borrowed))
    ensures WorldInv(World(Next(w.state, Pin(who, key)), w.readers + [NewReader(w.state, who, key, start, end, mark, borrowed)]))
  {
    var s, r := w.state, NewReader(w.state, who, key, start, end, mark, borrowed);
    var pins := Acquire(PinsOf(s, who), r.version);
    assert Next(s, Pin(who, key)) == WithPins(s, who, pins);
    ReachableNext(s, Pin(who, key));
    OpenedFaithful(w, who, key, start, end, mark, borrowed);
    hide Reachable, Faithful, Enabled, Next, Counted, HeldBy, WithPins, Acquire, NewReader;
    NewReaderIs(s, who, key, start, end, mark, borrowed);
    PinnedHere(s, who, pins, who);
    var t := World(WithPins(s, who, pins), w.readers + [r]);
    forall other | Here(t.state, other) ensures Counted(PinsOf(t.state, other).counts, HeldBy(t.readers, other)) {
      PinnedHere(s, who, pins, other);
      NewHolds(w.readers, r, other);
      if other == who {
        AcquireCounts(PinsOf(s, who), r.version, HeldBy(w.readers, who), |w.readers|);
      }
    }
    OpenedKnown(w, t, r);
  }

  lemma NewReaderIs(s: State, who: Holder, key: Key, start: nat, end: int, mark: nat, borrowed: bool)
    requires key in FilesOf(s, who)
    ensures var r := NewReader(s, who, key, start, end, mark, borrowed); r.who == who && r.held && r.version == FilesOf(s, who)[key]
  {
  }

  lemma OpenedKnown(w: World, t: World, r: Reader)
    requires KnownReaders(w) && t.readers == w.readers + [r] && t.state.nextLink == w.state.nextLink
    requires r.who.Worker? ==> r.who.link <= w.state.nextLink
    ensures KnownReaders(t)
  {
  }

  lemma OpenedFaithful(w: World, who: Holder, key: Key, start: nat, end: int, mark: nat, borrowed: bool)
    requires Reachable(w.state) && Allowed(w, Open(who, key, start, end, mark, borrowed))
    ensures Faithful(NewReader(w.state, who, key, start, end, mark, borrowed))
    ensures who.Worker? ==> who.link <= w.state.nextLink
  {
    hide Reachable, Faithful, Enabled;
    MayPin(w.state, who, key);
    var e := FilesOf(w.state, who)[key];
    if e.Occupies() {
      ProjectedWellFormed(w.state, who, key);
    }
    FaithfulFromStart(NewReader(w.state, who, key, start, end, mark, borrowed));
  }

  lemma MayPin(s: State, who: Holder, key: Key)
    requires Reachable(s) && Enabled(s, Pin(who, key))
    ensures key in FilesOf(s, who) && (who.Worker? ==> who.link <= s.nextLink)
  {
    hide Reachable, Inv;
    ReachableInv(s);
    if who.Worker? {
      KnownLink(s, who.link);
    }
  }

  /** A projected version that occupies bytes holds as many as its extent. */
  lemma ProjectedWellFormed(s: State, who: Holder, key: Key)
    requires Reachable(s) && key in FilesOf(s, who) && FilesOf(s, who)[key].Occupies()
    ensures FilesOf(s, who)[key].WellFormed()
  {
    hide Reachable;
    assert FilesOf(s, who)[key] in FilesOf(s, who).Values;
    NoUseAfterFree(s, who, FilesOf(s, who)[key]);
  }

  lemma FaithfulFromStart(r: Reader)
    requires Sound(r) && r.chunks == [] && r.offset == r.start <= r.end + 1 && r.end < r.version.extent.length
    requires r.held && !r.destroyed && r.ends == 0 && (r.version.Occupies() ==> r.version.WellFormed())
    ensures Faithful(r)
  {
    assert r.version.bytes[r.start..r.start] == [];
  }

  // --- Ending a hold ---

  lemma DropCounts(pins: Pins, held: map<nat, Entry>, id: nat)
    requires Counted(pins.counts, held) && id in held
    ensures held[id] in pins.counts && Counted(Drop(pins, held[id]).counts, held - {id})
  {
    assert id in L.LeasesOf(held, held[id]);
    assert L.CountOf(pins.counts, held[id]) > 0;
    forall f ensures L.CountOf(Drop(pins, held[id]).counts, f) == |L.LeasesOf(held - {id}, f)| {
      L.OneLeaseLess(held, id, f);
      hide L.LeasesOf;
    }
    hide L.LeasesOf;
  }

  lemma LessHeld(readers: seq<Reader>, id: nat, r: Reader, who: Holder)
    requires id < |readers| && readers[id].held && !r.held && r.who == readers[id].who
    ensures HeldBy(readers[id := r], who) == if r.who == who then HeldBy(readers, who) - {id} else HeldBy(readers, who)
    ensures r.who == who ==> id in HeldBy(readers, who) && HeldBy(readers, who)[id] == readers[id].version
  {
  }

  lemma UnpinnedHere(s: State, who: Holder, e: Entry, other: Holder)
    requires Running(s, who) && e in PinsOf(s, who).counts
    ensures var t := Unpinned(s, who, e);
      && (Here(t, other) <==> Here(s, other)) && t.nextLink == s.nextLink
      && PinsOf(t, other).counts == if other == who then Drop(PinsOf(s, who), e).counts else PinsOf(s, other).counts
  {
    hide Drop, Freed, Send;
    var drop := Drop(PinsOf(s, who), e);
    PinnedHere(s, who, drop, other);
    var t := WithPins(s, who, drop);
    hide WithPins;
    var freed := Freed(PinsOf(s, who), e);
    if freed.Some? && who.Worker? {
      PinnedHere(s, who, drop, who);
      SentHere(t, who.link, freed.value, other);
    }
    hide WithPeer;
  }

  lemma SentHere(s: State, l: nat, id: nat, other: Holder)
    requires l in s.peers
    ensures var t := WithPeer(s, l, Send(s.peers[l], Release(id)));
      (Here(t, other) <==> Here(s, other)) && t.nextLink == s.nextLink && PinsOf(t, other) == PinsOf(s, other)
  {
  }

  lemma EndKeepsWorld(w: World, id: nat)
    requires WorldInv(w) && id < |w.readers| && Running(w.state, w.readers[id].who) && Faithful(w.readers[id].(destroyed := true, held := false, ends := 1))
    requires w.readers[id].destroyed ==> w.readers[id].borrowed || !w.readers[id].held
    ensures WorldInv(Ended(Stopped(w, id), id))
  {
    var s, r := w.state, w.readers[id];
    hide Reachable, Faithful, Enabled, Next, Counted, HeldBy, Unpinned;
    if r.held {
      HeldIsPinned(w, id);
      LastFaithful(r);
      UnpinReachable(s, r.who, r.version);
      EndedWorld(w, id);
    } else {
      StoppedFaithful(r);
      ReaderKeepsWorld(w, id, r.(destroyed := true));
    }
  }

  lemma StoppedFaithful(r: Reader)
    requires Faithful(r) && (r.held ==> r.borrowed)
    ensures Faithful(r.(destroyed := true))
  {
    hide Concat;
  }

  lemma LastFaithful(r: Reader)
    requires Faithful(r) && r.held
    ensures r.ends == 0 && Faithful(r.(destroyed := true, held := false, ends := 1))
  {
    hide Concat;
  }

  lemma UnpinReachable(s: State, who: Holder, e: Entry)
    requires Reachable(s) && Running(s, who) && e in PinsOf(s, who).counts
    ensures Reachable(Unpinned(s, who, e))
  {
    hide Reachable, Unpinned;
    assert Enabled(s, Unpin(who, e)) && Next(s, Unpin(who, e)) == Unpinned(s, who, e);
    hide Enabled, Next;
    ReachableNext(s, Unpin(who, e));
  }

  lemma EndedWorld(w: World, id: nat)
    requires WorldInv(w) && id < |w.readers| && Running(w.state, w.readers[id].who) && w.readers[id].held && w.readers[id].ends == 0
    requires w.readers[id].version in PinsOf(w.state, w.readers[id].who).counts
    requires Faithful(w.readers[id].(destroyed := true, held := false, ends := 1)) && Reachable(Unpinned(w.state, w.readers[id].who, w.readers[id].version))
    ensures WorldInv(Ended(Stopped(w, id), id))
  {
    hide Reachable, Faithful, Counted, HeldBy, Unpinned;
    var s, r := w.state, w.readers[id];
    var last := r.(destroyed := true, held := false, ends := 1);
    var t := World(Unpinned(s, r.who, r.version), w.readers[id := last]);
    EndedIs(w, id);
    forall other | Here(t.state, other) ensures Counted(PinsOf(t.state, other).counts, HeldBy(t.readers, other)) {
      UnpinnedHere(s, r.who, r.version, other);
      LessHeld(w.readers, id, last, other);
      if other == r.who {
        DropCounts(PinsOf(s, other), HeldBy(w.readers, other), id);
      }
    }
    UnpinnedHere(s, r.who, r.version, Main);
  }

  lemma EndedIs(w: World, id: nat)
    requires id < |w.readers| && Running(w.state, w.readers[id].who) && w.readers[id].held && w.readers[id].ends == 0
    requires w.readers[id].version in PinsOf(w.state, w.readers[id].who).counts
    ensures var r := w.readers[id];
      Ended(Stopped(w, id), id) == World(Unpinned(w.state, r.who, r.version), w.readers[id := r.(destroyed := true, held := false, ends := 1)])
  {
    hide Unpinned;
  }

  // --- Everything else ---

  lemma ReceivedCounts(s: State, l: nat)
    requires Enabled(s, Receive(l))
    ensures var t := Next(s, Receive(l)); l in t.peers && t.peers[l].pins.counts == s.peers[l].pins.counts
  {
    hide RetainedIds, Apply;
    assert Next(s, Receive(l)) == WithPeer(s, l, Received(s.peers[l]));
  }

  lemma NewLinkEmpty(s: State, l: nat)
    requires l in AfterLink(s).peers && l !in s.peers
    ensures l == s.nextLink + 1 && AfterLink(s).peers[l].pins == EmptyPins
  {
  }

  lemma NobodyHolds(w: World, l: nat)
    requires KnownReaders(w) && l > w.state.nextLink
    ensures Counted(EmptyPins.counts, HeldBy(w.readers, Worker(l)))
  {
    assert HeldBy(w.readers, Worker(l)) == map[];
  }

  lemma StepCounts(w: World, ev: Event, who: Holder)
    requires WorldInv(w) && Allowed(w, Step(ev)) && Here(Next(w.state, ev), who)
    ensures Counted(PinsOf(Next(w.state, ev), who).counts, HeldBy(w.readers, who))
  {
    hide Reachable, Faithful, Counted, HeldBy, Inv, Enabled, Next, Received;
    var s := w.state;
    ReachableInv(s);
    if who.Main? {
      MainAfter(s, ev);
    } else if who.link !in s.peers {
      NewLinkHolds(w, ev, who.link);
    } else {
      KnownLink(s, who.link);
      if ev == Receive(who.link) {
        ReceivedCounts(s, who.link);
      } else {
        EndAfter(s, ev, who.link);
      }
    }
  }

  lemma NewLinkHolds(w: World, ev: Event, l: nat)
    requires KnownReaders(w) && Enabled(w.state, ev) && l !in w.state.peers && l in Next(w.state, ev).peers
    ensures Counted(PinsOf(Next(w.state, ev), Worker(l)).counts, HeldBy(w.readers, Worker(l)))
  {
    hide Counted, HeldBy, Enabled, KnownReaders;
    if !ev.NewLink? {
      hide Next;
      LinksAfter(w.state, ev);
    } else {
      assert Next(w.state, ev) == AfterLink(w.state);
      NewLinkEmpty(w.state, l);
      NobodyHolds(w, l);
    }
  }

  lemma StepKeepsWorld(w: World, ev: Event)
    requires WorldInv(w) && Allowed(w, Step(ev))
    ensures WorldInv(w.(state := Next(w.state, ev)))
  {
    hide Faithful, Counted, HeldBy, Reachable, Next;
    ReachableNext(w.state, ev);
    forall who | Here(Next(w.state, ev), who) ensures Counted(PinsOf(Next(w.state, ev), who).counts, HeldBy(w.readers, who)) {
      StepCounts(w, ev, who);
    }
    LinksGrow(w.state, ev);
  }

  lemma LinksGrow(s: State, ev: Event)
    requires Enabled(s, ev)
    ensures Next(s, ev).nextLink >= s.nextLink
  {
    if !ev.NewLink? {
      LinksAfter(s, ev);
      hide Enabled, Next;
    }
  }

  lemma ActKeepsWorld(w: World, act: Act)
    requires WorldInv(w) && Allowed(w, act)
    ensures (forall i :: 0 <= i < |w.readers| ==> Sound(w.readers[i])) && WorldInv(After(w, act))
  {
    AllSound(w);
    hide WorldInv, Ended, Stopped, Next, Enabled, AfterRead, NewReader;
    match act
    case Open(who, key, start, end, mark, borrowed) => OpenKeepsWorld(w, who, key, start, end, mark, borrowed);
    case Read(id) => ReadKeepsWorld(w, id);
    case Destroy(id) =>
      if w.readers[id].borrowed {
        StopKeepsWorld(w, id);
      } else {
        EndOnce(w, id);
        EndKeepsWorld(w, id);
      }
    case LetGo(id) =>
      EndOnce(w, id);
      EndKeepsWorld(w, id);
    case Step(ev) => StepKeepsWorld(w, ev);
  }

  lemma EndOnce(w: World, id: nat)
    requires WorldInv(w) && id < |w.readers|
    ensures Faithful(w.readers[id].(destroyed := true, held := false, ends := 1))
    ensures w.readers[id].destroyed ==> w.readers[id].borrowed || !w.readers[id].held
  {
    assert Faithful(w.readers[id]);
    hide WorldInv, Concat;
  }

  // --- Runs ---

  const Silence := World(Initial, [])

  ghost predicate WorldRun(worlds: seq<World>, acts: seq<Act>) {
    && |worlds| == |acts| + 1 && worlds[0] == Silence
    && forall i :: 0 <= i < |acts| ==>
         && Allowed(worlds[i], acts[i])
         && (forall j :: 0 <= j < |worlds[i].readers| ==> Sound(worlds[i].readers[j]))
         && worlds[i + 1] == After(worlds[i], acts[i])
  }

  lemma SilenceInv()
    ensures WorldInv(Silence)
  {
    InitialReachable();
    hide Reachable;
    assert forall who :: HeldBy([], who) == map[];
  }

  lemma {:induction false} RunKeepsWorld(worlds: seq<World>, acts: seq<Act>, n: nat)
    requires WorldRun(worlds, acts) && n <= |acts|
    ensures WorldInv(worlds[n])
  {
    hide WorldInv, Allowed, After;
    if n == 0 {
      SilenceInv();
    } else {
      RunKeepsWorld(worlds, acts, n - 1);
      ActKeepsWorld(worlds[n - 1], acts[n - 1]);
    }
  }

  // --- What a reader can rely on ---

  /** `r` is a later state of the same reader. */
  ghost predicate GoesOn(r: Reader, q: Reader) {
    && q.who == r.who && q.version == r.version && q.start == r.start && q.end == r.end
    && q.highWaterMark == r.highWaterMark && q.borrowed == r.borrowed
    && q.offset >= r.offset && q.ends >= r.ends
  }

  lemma ReadGoesOn(r: Reader, mem: Memory)
    requires Sound(r)
    ensures GoesOn(r, AfterRead(r, mem))
  {
  }

  lemma EndGoesOn(w: World, id: nat, i: nat)
    requires id < |w.readers| && i < |w.readers| && Running(w.state, w.readers[id].who)
    ensures |Ended(w, id).readers| == |w.readers| && GoesOn(w.readers[i], Ended(w, id).readers[i])
  {
    hide Unpinned;
  }

  lemma ActGoesOn(w: World, act: Act, i: nat)
    requires Allowed(w, act) && i < |w.readers| && forall j :: 0 <= j < |w.readers| ==> Sound(w.readers[j])
    ensures i < |After(w, act).readers| && GoesOn(w.readers[i], After(w, act).readers[i])
  {
    hide Next, Enabled, AfterRead, NewReader, Ended;
    match act
    case Open(_, _, _, _, _, _) =>
    case Read(id) => ReadGoesOn(w.readers[id], w.state.mem);
    case Destroy(id) =>
      if !w.readers[id].borrowed {
        EndGoesOn(Stopped(w, id), id, i);
      }
    case LetGo(id) => EndGoesOn(Stopped(w, id), id, i);
    case Step(_) =>
  }

  lemma {:induction false} ReaderGoesOn(worlds: seq<World>, acts: seq<Act>, m: nat, n: nat, i: nat)
    requires WorldRun(worlds, acts) && m <= n <= |acts| && i < |worlds[m].readers|
    ensures i < |worlds[n].readers| && GoesOn(worlds[m].readers[i], worlds[n].readers[i])
  {
    hide Allowed, After, Sound;
    if m < n {
      ReaderGoesOn(worlds, acts, m, n - 1, i);
      ActGoesOn(worlds[n - 1], acts[n - 1], i);
    }
  }

  lemma OpenedReader(worlds: seq<World>, acts: seq<Act>, m: nat, act: Act)
    requires WorldRun(worlds, acts) && m < |acts| && acts[m] == act && act.Open?
    ensures var s, id := worlds[m].state, |worlds[m].readers|;
      && act.key in FilesOf(s, act.who) && id < |worlds[m + 1].readers|
      && worlds[m + 1].readers[id] == NewReader(s, act.who, act.key, act.start, act.end, act.highWaterMark, act.borrowed)
  {
    assert Allowed(worlds[m], acts[m]) && worlds[m + 1] == After(worlds[m], acts[m]);
    hide Next, NewReader;
  }

  /**
   * A reader in any thread, through any run of publications, compactions, frees, other readers, new
   * and exiting workers: what it has read is, from the first byte of its range, the version that was
   * projected when it opened, in chunks within the high-water mark, and all of its range once it came
   * to the end. While it holds the version, the version is pinned in its thread and its bytes belong to
   * it alone; its hold is ended once, and not before it stops.
   */
  lemma OpenedVersionRead(worlds: seq<World>, acts: seq<Act>, m: nat, act: Act, n: nat)
    requires WorldRun(worlds, acts) && m < n <= |acts| && acts[m] == act && act.Open?
    ensures act.key in FilesOf(worlds[m].state, act.who) && |worlds[m].readers| < |worlds[n].readers|
    ensures var e, s, r := FilesOf(worlds[m].state, act.who)[act.key], worlds[n].state, worlds[n].readers[|worlds[m].readers|];
      && r.who == act.who && r.version == e && e.Shared? && r.borrowed == act.borrowed
      && r.highWaterMark == (if act.highWaterMark == 0 then DEFAULT_HIGH_WATER_MARK else act.highWaterMark)
      && act.start <= r.offset <= act.end + 1 <= |e.bytes| && Concat(r.chunks) == e.bytes[act.start..r.offset]
      && (forall i :: 0 <= i < |r.chunks| ==> 0 < |r.chunks[i]| <= r.highWaterMark)
      && (r.offset > act.end ==> Concat(r.chunks) == e.bytes[act.start..act.end + 1])
      && (!r.destroyed ==> r.held) && (r.held && r.destroyed ==> r.borrowed) && r.ends == (if r.held then 0 else 1)
      && (r.held && Here(s, r.who) ==> e in PinsOf(s, r.who).counts && (e.Occupies() ==> Safe(s, e)))
  {
    OpenedReader(worlds, acts, m, act);
    ReaderGoesOn(worlds, acts, m + 1, n, |worlds[m].readers|);
    RunKeepsWorld(worlds, acts, n);
    var id, w := |worlds[m].readers|, worlds[n];
    assert Faithful(w.readers[id]);
    if w.readers[id].held && Here(w.state, w.readers[id].who) {
      HeldIsPinned(w, id);
      if w.readers[id].version.Occupies() {
        HeldIsIntact(w, id);
      }
    }
    hide WorldRun, WorldInv, Safe, Concat;
  }

  /** In every thread a version is pinned exactly while a reader of that thread holds it, and counted once for each. */
  lemma PinnedWhileHeld(worlds: seq<World>, acts: seq<Act>, n: nat, who: Holder, e: Entry)
    requires WorldRun(worlds, acts) && n <= |acts| && Here(worlds[n].state, who)
    ensures L.CountOf(PinsOf(worlds[n].state, who).counts, e) == |L.LeasesOf(HeldBy(worlds[n].readers, who), e)|
    ensures e in PinsOf(worlds[n].state, who).counts <==>
      exists i :: 0 <= i < |worlds[n].readers| && worlds[n].readers[i].who == who && worlds[n].readers[i].held && worlds[n].readers[i].version == e
  {
    RunKeepsWorld(worlds, acts, n);
    var w := worlds[n];
    assert Counted(PinsOf(w.state, who).counts, HeldBy(w.readers, who));
    if e in PinsOf(w.state, who).counts {
      var i :| i in L.LeasesOf(HeldBy(w.readers, who), e);
      assert w.readers[i].who == who && w.readers[i].held && w.readers[i].version == e;
    }
    if i :| 0 <= i < |w.readers| && w.readers[i].who == who && w.readers[i].held && w.readers[i].version == e {
      HeldIsPinned(w, i);
    }
  }
}
