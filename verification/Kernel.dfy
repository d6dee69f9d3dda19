/** The main kernel: committing epochs, posting updates, retiring, freeing and compacting. */
module Kernel {
  import opened Layout
  import opened Registry
  import opened Ownership
  import opened Relocation
  import opened Cache
  import opened ThreadPins
  import opened Protocol
  import opened Invariant
  import opened Safety
  import opened Upkeep
  import opened History
  import opened Commits

  class VfsKernel {
    const cache: FilesystemCache
    const pins: PinTable
    const threshold: real
    var files: Files                     // the main thread's own projection
    var retired: map<nat, Record>
    var holders: map<nat, set<Holder>>
    var acks: map<nat, Pending>
    var nextRetireId: nat
    var nextUpdateId: nat
    var nextLinkId: nat
    var ports: map<nat, Peer>            // the live links, with what lies beyond their ports
    var serving: set<Req>                // mutations of workers not yet answered
    var credit: map<Req, nat>            // the update each was committed as
    ghost var ledger: map<nat, Slot>
    ghost var log: seq<Update>
    ghost var hist: seq<Files>

    ghost function View(): State
      reads this, pins, cache, cache.pool, cache.Sabs()
    {
      State(cache.entries, files, pins.View(), retired, holders, acks, nextRetireId, nextLinkId, cache.minted,
            ports, ledger, cache.Mem(), log, hist, Calls(serving, credit))
    }

    /** `s` is a reachable state of the protocol in which exactly the bytes of its entries are owned. */
    ghost predicate Accounts(s: State)
      reads this`nextUpdateId, pins, cache.pool, cache.registry
    {
      && cache.Valid()
      && Reachable(s)
      && Coupled(s.ledger, cache.Books())
      && nextUpdateId == |s.log|
      && pins.Leased()
    }

    /** And nothing published lies in a segment that compaction closed. */
    ghost predicate Represents(s: State)
      reads this`nextUpdateId, pins, cache.pool, cache.registry
    {
      Accounts(s) && Vacant(s.index, cache.registry.closed)
    }

    ghost predicate Valid()
      reads this, pins, cache, cache.pool, cache.registry, cache.Sabs()
    {
      Represents(View())
    }

    /** What it takes to represent `s`. */
    lemma Represented(s: State)
      ensures Represents(s) <==>
        && cache.Valid() && Reachable(s) && Coupled(s.ledger, cache.Books()) && nextUpdateId == |s.log| && pins.Leased()
        && Vacant(s.index, cache.registry.closed)
    {
      hide Reachable, Coupled, PinTable.Leased, Vacant, FilesystemCache.Valid;
    }

    constructor (limit: nat, segmentSize: nat, maxFileSize: nat, threshold: real)
      requires 0 < segmentSize
      ensures Valid() && View() == Initial
      ensures fresh(cache) && fresh(cache.pool) && fresh(cache.registry) && fresh(pins)
    {
      hide Reachable, Run, Enabled, Next, Coupled, Pool.Valid, SegmentRegistry.Valid, FilesystemCache.Valid, FilesystemCache.Mem, FilesystemCache.Sabs;
      cache := new FilesystemCache(limit, segmentSize, maxFileSize);
      pins := new PinTable();
      this.threshold := threshold;
      files, retired, holders, acks, ports := map[], map[], map[], map[], map[];
      nextRetireId, nextUpdateId, nextLinkId := 0, 0, 0;
      ledger, log, hist := map[], [], [map[]];
      serving, credit := {}, map[];
      new;
      InitialReachable();
      NothingOwned();
      cache.NoMemory();
    }

    // --- Flush ---

    /** Put or remove one key; returns what it replaced. */
    method PutOne(key: Key, change: Option<Entry>) returns (previous: Option<Entry>)
      requires cache.Valid()
      modifies cache`entries, cache.registry`closed
      ensures cache.Valid()
      ensures previous == Lookup(old(cache.entries), key)
      ensures cache.entries == if change.Some? then old(cache.entries)[key := change.value] else old(cache.entries) - {key}
      ensures cache.registry.closed == old(cache.registry.closed) - if change.Some? && change.value.Shared? then {change.value.extent.segment} else {}
      ensures SameOwners(old(cache.Books()), cache.Books())
    {
      hide SegmentRegistry.Valid, Pool.Valid, SameOwners, FilesystemCache.Valid;
      SelfOwners(cache.Books());
      if change.Some? {
        previous := cache.Put(key, change.value);
      } else {
        previous := cache.Remove(key);
      }
    }

    /** The changes `part` are put: numbered from `from`, done to `index`, no byte changed owner since `books`. */
    ghost predicate PutFrom(index: Files, books: Books, closed: set<nat>, from: nat, part: Changes, all: Epoch)
      reads this, cache, cache.pool, cache.registry
    {
      && cache.Valid()
      && PartDone(index, part, all, cache.entries)
      && NumberedFrom(from, all.ids) && nextRetireId == from + |all.ids|
      && cache.registry.closed == closed - Segments(part)
      && SameOwners(books, cache.Books())
    }

    /** Before the first change nothing is put. */
    lemma NothingPut(part: Changes)
      requires cache.Valid() && part == map[]
      ensures PutFrom(cache.entries, cache.Books(), cache.registry.closed, nextRetireId, part, Epoch(map[], {}, map[], map[]))
    {
      hide SegmentRegistry.Valid, Pool.Valid, FilesystemCache.Valid, PartDone, NumberedFrom, SameOwners;
      NothingDone(cache.entries, part);
      NothingNumbered(nextRetireId);
      SelfOwners(cache.Books());
    }

    /** One more change is put than in the books `mid`. */
    lemma OneMorePut(index: Files, books: Books, closed: set<nat>, from: nat, part: Changes, done: Epoch, key: Key, change: Option<Entry>, was: Files, mid: Books, next: nat)
      requires key !in part && PartDone(index, part, done, was) && NumberedFrom(from, done.ids) && next == from + |done.ids|
      requires mid.closed == closed - Segments(part) && SameOwners(books, mid) && SameOwners(mid, cache.Books())
      requires cache.Valid() && cache.entries == if change.Some? then was[key := change.value] else was - {key}
      requires cache.registry.closed == mid.closed - if change.Some? && change.value.Shared? then {change.value.extent.segment} else {}
      requires nextRetireId == if Hit(Lookup(index, key)) then next + 1 else next
      ensures PutFrom(index, books, closed, from, part[key := change], With(index, done, key, change, next + 1))
    {
      hide SegmentRegistry.Valid, Pool.Valid, SameOwners, FilesystemCache.Valid, PartDone, NumberedFrom, Owns, Segments, Lookup, Hit, With;
      ChangeDone(index, part, key, change, done, was, next + 1);
      WithNumbered(from, index, done, key, change);
      FewerClosed(closed, part, key, change);
      OwnersTwice(books, mid, cache.Books());
    }

    /** One change of an epoch: what it replaces gets the next retireId. */
    method CommitOne(key: Key, change: Option<Entry>, done: Epoch, ghost index: Files, ghost books: Books, ghost closed: set<nat>, ghost from: nat, ghost part: Changes)
      returns (more: Epoch)
      requires key !in part && PutFrom(index, books, closed, from, part, done)
      modifies this`nextRetireId, cache`entries, cache.registry`closed
      ensures PutFrom(index, books, closed, from, part[key := change], more)
    {
      hide SegmentRegistry.Valid, Pool.Valid, SameOwners, FilesystemCache.Valid, PartDone, NumberedFrom, Owns, Segments;
      ghost var was, mid, next := cache.entries, cache.Books(), nextRetireId;
      ChangeDone(index, part, key, change, done, was, next + 1);
      var previous := PutOne(key, change);
      more := if change.Some? then done.(entries := done.entries[key := change.value])
        else if previous.Some? then done.(removals := done.removals + {key})
        else done;
      if previous.Some? && previous.value.Occupies() {
        nextRetireId := nextRetireId + 1;
        more := more.(ids := more.ids[key := nextRetireId], replaced := more.replaced[key := previous.value]);
      }
      OneMorePut(index, books, closed, from, part, done, key, change, was, mid, next);
    }

    /** Put or remove every change of an epoch. */
    method PutAll(ch: Changes) returns (all: Epoch)
      requires cache.Valid()
      modifies this`nextRetireId, cache`entries, cache.registry`closed
      ensures PutFrom(old(cache.entries), old(cache.Books()), old(cache.registry.closed), old(nextRetireId), ch, all)
    {
      hide SegmentRegistry.Valid, Pool.Valid, FilesystemCache.Valid, VfsKernel.PutFrom;
      ghost var index, books, closed, from := cache.entries, cache.Books(), cache.registry.closed, nextRetireId;
      all := Epoch(map[], {}, map[], map[]);
      var rest := ch.Keys;
      NothingPut(ch - rest);
      while rest != {}
        invariant rest <= ch.Keys && PutFrom(index, books, closed, from, ch - rest, all)
        decreases rest
      {
        var key :| key in rest;
        OneMoreDone(ch, rest, key);
        all := CommitOne(key, ch[key], all, index, books, closed, from, ch - rest);
        rest := rest - {key};
      }
      assert ch - rest == ch;
    }

    // --- Settling ---

    /** The kernel has settled from `t`: internal steps led here, and no key lost or changed content. */
    ghost predicate SettledFrom(t: State)
      reads this, pins, cache, cache.pool, cache.registry, cache.Sabs()
    {
      && Valid()
      && Settled(View())
      && Steps(t, View())
      && SameContent(t.index, cache.entries)
      && PrivateKept(t.ledger, ledger, map[])
    }

    /** Free one retired version nobody waits for. */
    method FreeRecord(id: nat)
      requires Valid() && id in retired && Releasable(View(), id)
      modifies this`retired, this`holders, this`ledger, cache.pool, cache.registry
      ensures Valid() && View() == AfterFree(old(View()), id)
      ensures Steps(old(View()), View()) && PrivateKept(old(ledger), ledger, map[])
      ensures cache.pool.segments == old(cache.pool.segments) && OnlyFewer(old(cache.Books()), cache.Books())
    {
      hide Reachable, Steps, Path, Run, Enabled, Next, Coupled, Releasable, PrivateKept, Pool.Valid, SegmentRegistry.Valid, FilesystemCache.Valid, FilesystemCache.Mem, FilesystemCache.Sabs, OnlyFewer, Lost, OwnsAll, Vacant, PinTable.Leased, VfsKernel.Represents;
      ghost var s, b := View(), cache.Books();
      Represented(s);
      var entry := retired[id].entry;
      RecordOwned(s, id, b);
      retired := retired - {id};
      holders := holders - {id};
      cache.Free(entry);
      ledger := ledger - {entry.id};
      FreeStep(s, id, b, cache.Books());
      FewerVacant(cache.entries, b, cache.Books());
      cache.SameMemory();
      Represented(AfterFree(s, id));
    }

    /** Some records were freed since `s` and books `b`; what can still be freed is in `rest`. */
    ghost predicate FreedFrom(s: State, b: Books, rest: set<nat>, freed: bool)
      reads this, pins, cache, cache.pool, cache.registry, cache.Sabs()
    {
      && (if freed then Sweepable(s) != {} else View() == s)
      && Cleared(View()) == Cleared(s) && OnlyFewer(b, cache.Books())
      && Valid()
      && Steps(s, View())
      && cache.entries == s.index
      && PrivateKept(s.ledger, ledger, map[])
      && forall r :: Releasable(View(), r) ==> r in rest
    }

    /** Free one record unless an acknowledgement or a consumer still holds it. */
    method FreeUnlessHeld(id: nat, ghost s: State, ghost b: Books, ghost rest: set<nat>, before: bool) returns (freed: bool)
      requires FreedFrom(s, b, rest, before)
      modifies this`retired, this`holders, this`ledger, cache.pool, cache.registry
      ensures FreedFrom(s, b, rest - {id}, before || freed)
      ensures cache.pool.segments == old(cache.pool.segments)
      ensures OpenSegments(cache.Books()) <= old(OpenSegments(cache.Books()))
    {
      hide Reachable, Steps, Path, Run, Enabled, Next, Coupled, AfterFree, PrivateKept,
        Pool.Valid, SegmentRegistry.Valid, FilesystemCache.Valid, FilesystemCache.Mem, FilesystemCache.Sabs, OnlyFewer, OpenSegments;
      ghost var t, now := View(), cache.Books();
      if id !in retired {
        return false;
      }
      RecordHeld(t, id);
      if holders[id] != {} || retired[id].updateId in acks {
        return false;
      }
      hide Releasable;
      ClearedMore(t, id);
      FreeRecord(id);
      StepsThen(s, t, View());
      PrivateKeptThen(s.ledger, t.ledger, ledger, map[]);
      FreeingOpensNothing(now, cache.Books());
      FewerThen(b, now, cache.Books());
      forall r | Releasable(View(), r) ensures r in rest - {id} {
        FreeReleasable(t, id, r);
      }
      freed := true;
    }

    /**
     * A run of `Free` events for the releasable ones among `records`, then one `Compact`; afterwards
     * nothing is releasable.
     */
    method Settle(records: set<nat>)
      requires Valid() && forall r :: Releasable(View(), r) ==> r in records
      modifies this, pins`bound, pins`ever, cache, cache.pool, cache.registry, cache.Sabs()
      ensures SettledFrom(old(View())) && cache.pool.segments == old(cache.pool.segments) && pins.SameLeases()
      ensures SweptFrom(old(View()), old(cache.Books()))
      ensures OpenSegments(cache.Books()) <= old(OpenSegments(cache.Books()))
      decreases |OpenSegments(cache.Books())|, 1
    {
      hide Reachable, Steps, Path, Run, Enabled, Next, Coupled, Releasable, SameContent, PrivateKept,
        Pool.Valid, SegmentRegistry.Valid, FilesystemCache.Mem, OpenSegments, VfsKernel.Represents, Sweepable, Cleared, Swept, VfsKernel.CompactedFrom,
        Target, NothingToMove, VfsKernel.Emptied;
      ghost var s, b := View(), cache.Books();
      StepsSame(s);
      PrivateKeptAlways(ledger);
      FewerSame(b, b);
      var rest, freed := records, false;
      while rest != {}
        invariant FreedFrom(s, b, rest, freed)
        invariant cache.pool.segments == old(cache.pool.segments)
        invariant OpenSegments(cache.Books()) <= old(OpenSegments(cache.Books()))
        decreases rest
      {
        var id :| id in rest;
        var one := FreeUnlessHeld(id, s, b, rest, freed);
        rest := rest - {id};
        freed := freed || one;
      }
      SameContentAlways(s.index);
      ghost var t, mid := View(), cache.Books();
      ClearedNothing(t);
      if freed {
        NowSwept(b);
        Smaller(OpenSegments(cache.Books()), old(OpenSegments(cache.Books())));
        ghost var target := Compact();
        StepsThen(s, t, View());
        PrivateKeptThen(s.ledger, t.ledger, ledger, map[]);
        CompactedNow(t, mid, target);
        SweptThen(s, b, t, mid);
      }
    }

    /** A compaction was due at `t` and books `b`: nothing could be moved, or a target of then is emptied now. */
    ghost predicate CompactedFrom(t: State, b: Books)
      reads this, pins, cache, cache.pool, cache.registry, cache.Sabs()
    {
      && cache.pool.segmentSize > 0
      && (|| (NothingToMove(b, t.index, cache.pool.segmentSize, threshold) && View() == t.(mem := cache.Mem()))
          || exists target: nat :: Target(b, cache.pool.segmentSize, threshold, target)
               && Emptied(target) && target !in OpenSegments(cache.Books()))
    }

    /** All that could be freed of `t` was freed, and then one compaction was due; or nothing could be freed or happened. */
    ghost predicate SweptFrom(t: State, b: Books)
      reads this, pins, cache, cache.pool, cache.registry, cache.Sabs()
    {
      if Sweepable(t) == {} then View() == t
      else exists mid: Books :: Swept(b, mid, cache.pool.segmentSize, Cleared(t).ledger) && CompactedFrom(Cleared(t), mid)
    }

    /** Where nothing can be freed nothing is due. */
    lemma NothingSwept(t: State)
      requires View() == t && forall r :: !Releasable(t, r)
      ensures forall b :: SweptFrom(t, b)
    {
      hide Releasable, Cleared, VfsKernel.CompactedFrom, Swept, FilesystemCache.Mem;
      ClearedNothing(t);
    }

    lemma CompactedNow(t: State, b: Books, target: Option<nat>)
      requires cache.pool.segmentSize > 0
      requires target.Some? ==>
        && Target(b, cache.pool.segmentSize, threshold, target.value)
        && OpenSegments(cache.Books()) <= OpenSegments(b) - {target.value} && Emptied(target.value)
      requires target.None? ==> NothingToMove(b, t.index, cache.pool.segmentSize, threshold) && View() == t.(mem := cache.Mem())
      ensures CompactedFrom(t, b)
    {
      hide Target, NothingToMove, VfsKernel.Emptied, OpenSegments, FilesystemCache.Mem;
    }

    lemma SweptThen(s: State, b: Books, t: State, mid: Books)
      requires Sweepable(s) != {} && Cleared(s) == t && Swept(b, mid, cache.pool.segmentSize, t.ledger) && CompactedFrom(t, mid)
      ensures SweptFrom(s, b)
    {
      hide Sweepable, Cleared, Swept, VfsKernel.CompactedFrom;
    }

    lemma NowSwept(b: Books)
      requires Valid() && OnlyFewer(b, cache.Books())
      ensures Swept(b, cache.Books(), cache.pool.segmentSize, ledger) && cache.pool.segmentSize > 0
    {
      hide Reachable, Coupled, OnlyFewer, WellKept, PinTable.Leased, Vacant;
    }

    /** What the cache relies on when it compacts: published entries own their bytes and are intact. */
    lemma CacheSound()
      requires Valid()
      ensures cache.Sound()
    {
      hide Reachable, Run, Enabled, Next, Inv, Coupled, Pool.Valid, SegmentRegistry.Valid, FilesystemCache.Valid, OwnsAll, Intact,
        VfsKernel.Represents, PinTable.Leased, Vacant, FilesystemCache.Mem, FilesystemCache.Sabs;
      ghost var s := View();
      Represented(s);
      ReachableInv(s);
      forall k | k in cache.entries && cache.entries[k].Shared?
        ensures cache.entries[k].WellFormed() && OwnsAll(cache.Books(), cache.entries[k].extent) && Intact(cache.Mem(), cache.entries[k])
      {
        IndexSlots(s, k);
        EntryOwned(ledger, cache.Books(), cache.entries[k].id);
      }
    }

    /** A plan that came to nothing leaves a settled kernel settled. */
    lemma NotCompacted(s: State, b: Books)
      requires View() == s.(mem := cache.Mem()) && cache.Valid() && |s.log| == nextUpdateId && pins.Leased() && Vacant(s.index, cache.registry.closed)
      requires Reachable(s) && Settled(s) && Coupled(s.ledger, b) && SameOwners(b, cache.Books()) && KeepsOwned(s, cache.Mem())
      ensures SettledFrom(s)
    {
      hide Reachable, Steps, Path, Run, Enabled, Next, Coupled, Settled, SameContent, PrivateKept, SameOwners, KeepsOwned,
        FilesystemCache.Valid, FilesystemCache.Mem;
      CompactFailed(s, b, cache.Books(), cache.Mem());
      SameContentAlways(s.index);
      PrivateKeptAlways(s.ledger);
    }

    /** Nothing published has bytes in segment `target`. */
    ghost predicate Emptied(target: nat)
      reads cache
    {
      forall k :: k in cache.entries && cache.entries[k].Occupies() ==> cache.entries[k].extent.segment != target
    }

    /**
     * Relocate what is published in one sparsely used segment, when there is such a segment and room
     * elsewhere: then nothing published is left in it, however much compaction follows.
     */
    method Compact() returns (ghost target: Option<nat>)
      requires Valid() && Settled(View())
      modifies this, pins`bound, pins`ever, cache, cache.pool, cache.registry, cache.Sabs()
      ensures SettledFrom(old(View())) && cache.pool.segments == old(cache.pool.segments) && pins.SameLeases()
      ensures target.Some? ==>
        && Target(old(cache.Books()), cache.pool.segmentSize, threshold, target.value)
        && OpenSegments(cache.Books()) <= old(OpenSegments(cache.Books())) - {target.value}
        && Emptied(target.value)
      ensures target.None? ==>
        && NothingToMove(old(cache.Books()), old(cache.entries), cache.pool.segmentSize, threshold)
        && View() == old(View()).(mem := cache.Mem()) && OpenSegments(cache.Books()) == old(OpenSegments(cache.Books()))
      decreases |OpenSegments(cache.Books())|, 0
    {
      hide Reachable, Steps, Path, Run, Enabled, Next, Coupled, Settled, Releasable, SameContent, PrivateKept, Commit, Numbered, Publishable, Inv,
        Copies, Moved, Relocated, NothingToMove, Target, OwnedKept, KeepsOwned, SameOwners, ChangesOf, OpenAfter, Adopted,
        Pool.Valid, SegmentRegistry.Valid, FilesystemCache.Valid, FilesystemCache.Sound, FilesystemCache.Mem, OpenSegments, Vacant, VacantBut, Emptied, SettledFrom, VfsKernel.Represents, PinTable.Leased;
      ghost var s, b := View(), cache.Books();
      Represented(s);
      CacheSound();
      var plan := cache.Compact(threshold);
      cache.MemoryKeys();
      OwnedBytesKept(s, b, cache.Mem());
      if plan.NoPlan? {
        NotCompacted(s, b);
        SameOpen(b, cache.Books());
        return None;
      }
      PlanReady(b, cache.Books(), cache.Mem(), s, cache.pool.segmentSize, threshold, plan);
      Adopt(plan, s, b);
      EmptiedOf(plan.target, s);
      target := Some(plan.target);
    }

    /** What is published lies in open segments, so not in one that is not open. */
    lemma EmptiedOf(target: nat, t: State)
      requires SettledFrom(t) && target !in OpenSegments(cache.Books())
      ensures Emptied(target)
    {
      hide Reachable, Run, Enabled, Next, Inv, Coupled, OwnsAll, Intact, OpenSegments, FilesystemCache.Mem;
      CacheSound();
      forall k | k in cache.entries && cache.entries[k].Occupies() ensures cache.entries[k].extent.segment in OpenSegments(cache.Books()) {
        PublishedOpen(cache.entries, cache.Books(), cache.pool.segmentSize, k);
      }
    }

    /** The copies of a plan become private entries, and are published. */
    method Adopt(plan: Plan, ghost s: State, ghost b: Books)
      requires plan.Planned? && plan.target > 0
      requires View() == s.(mem := cache.Mem(), minted := s.minted + |plan.moves|)
      requires Reachable(s) && Settled(s) && Coupled(s.ledger, b) && KeepsOwned(s, cache.Mem()) && |s.log| == nextUpdateId
      requires cache.Valid() && Relocated(b, cache.Books(), cache.Mem(), s.index, plan, s.minted) && pins.Leased()
      requires VacantBut(s.index, cache.registry.closed, ChangesOf(plan.moves).Keys)
      modifies this, pins`bound, pins`ever, cache, cache.pool, cache.registry, cache.Sabs()
      ensures SettledFrom(s) && cache.pool.segments == old(cache.pool.segments)
      ensures OpenSegments(cache.Books()) <= old(OpenAfter(cache.Books(), ChangesOf(plan.moves)))
      decreases |OpenAfter(cache.Books(), ChangesOf(plan.moves))|, 7
    {
      hide VacantBut, OpenSegments, Reachable, Steps, Path, Run, Enabled, Next, Coupled, Settled, Releasable, SameContent, PrivateKept, Publishable, Inv,
        Copies, Moved, Relocated, KeepsOwned, ChangesOf, OpenAfter, Adopted,
        FilesystemCache.Valid, FilesystemCache.Mem;
      CompactPlanned(s, b, cache.Books(), cache.Mem(), plan);
      ledger := Adopted(ledger, plan.moves);
      cache.SameMemory();
      Relocate(plan.moves, s);
    }

    /** Publish the copies of a relocation like any change. */
    method Relocate(moves: seq<Move>, ghost s: State)
      requires Reachable(s) && View() == AfterPlaces(s, moves, cache.Mem()) && Steps(s, View())
      requires Accounts(View()) && Settled(View()) && Publishable(View(), ChangesOf(moves))
      requires VacantBut(cache.entries, cache.registry.closed, ChangesOf(moves).Keys)
      requires Copies(s.index, Keys(moves), moves, s.minted)
      requires forall i, j :: 0 <= i < j < |moves| ==> moves[i].key != moves[j].key
      modifies this, pins`bound, pins`ever, cache, cache.pool, cache.registry, cache.Sabs()
      ensures SettledFrom(s) && cache.pool.segments == old(cache.pool.segments)
      ensures OpenSegments(cache.Books()) <= old(OpenAfter(cache.Books(), ChangesOf(moves)))
      decreases |OpenAfter(cache.Books(), ChangesOf(moves))|, 6
    {
      hide VacantBut, OpenSegments, VfsKernel.Accounts, Reachable, Steps, Path, Run, Enabled, Next, Coupled, Settled, Releasable, SameContent, PrivateKept, Commit, Numbered, Publishable, Inv,
        Copies, ChangesOf, OpenAfter, AfterPlaces, FilesystemCache.Mem, FilesystemCache.Valid, VfsKernel.Represents;
      ghost var mem, t, b := cache.Mem(), View(), cache.Books();
      var ch: Changes := map[];
      ChangesOfNone(moves);
      for i := 0 to |moves|
        modifies {}
        invariant ch == ChangesOf(moves[..i])
      {
        ChangesOfMore(moves, i);
        ch := ch[moves[i].key := Some(moves[i].entry)];
      }
      assert moves[..|moves|] == moves;
      cache.SameMemory();
      assert View() == t && cache.Books() == b;
      var posted := Flush(ch);
      ghost var ids :| Numbered(t, ch, ids) && SettledFrom(Commit(t, ch, ids));
      ReachableInv(s);
      CopiesByKey(s.index, moves, s.minted);
      CompactDone(s, mem, moves, ids, View());
    }

    /** The records in `added` get the links of the moment as their pending set, or settle if there are none. */
    method Track(u: nat, added: set<nat>, ghost t: State)
      requires t == View().(acks := TrackedAcks(acks, ports.Keys, u, added)) && Represents(t)
      requires forall r :: Releasable(t, r) ==> r in added
      requires forall r :: r in added && r in retired ==> retired[r].updateId == u
      modifies this, pins`bound, pins`ever, cache, cache.pool, cache.registry, cache.Sabs()
      ensures SettledFrom(t) && SweptFrom(t, old(cache.Books())) && cache.pool.segments == old(cache.pool.segments)
      ensures OpenSegments(cache.Books()) <= old(OpenSegments(cache.Books()))
      decreases |OpenSegments(cache.Books())|, 2
    {
      hide VfsKernel.SweptFrom, Sweepable, Reachable, Steps, Path, Run, Enabled, Next, Coupled, SameContent, PrivateKept,
        Pool.Valid, SegmentRegistry.Valid, FilesystemCache.Valid, FilesystemCache.Mem, OpenSegments, FilesystemCache.Sabs;
      StepsSame(t);
      SameContentAlways(t.index);
      PrivateKeptAlways(t.ledger);
      if added == {} {
        NothingSwept(t);
        return;
      }
      if ports != map[] {
        acks := acks[u := Pending(ports.Keys, added)];
        cache.SameMemory();
        NothingSwept(t);
        return;
      }
      Settle(added);
    }

    /** Bind what the old projection has in use, then move the projection on by one update. */
    method Apply(u: Update) returns (retained: set<nat>)
      requires SeparateVersions(files, pins.View(), u)
      modifies this`files, pins`bound, pins`ever
      ensures files == Protocol.Apply(old(files), u) && pins.View() == Bind(old(files), old(pins.View()), u)
      ensures retained == RetainedIds(old(files), old(pins.View()), u) && (old(pins.Leased()) ==> pins.Leased())
    {
      retained := pins.RetainAll(files, u);
      files := files + u.entries;
      files := files - u.removals;
    }

    /** Post an update to every link. */
    static method Deliver(ports: map<nat, Peer>, u: Update) returns (posted: map<nat, Peer>)
      ensures posted == Post(ports, u)
    {
      posted := ports;
      var rest := ports.Keys;
      while rest != {}
        invariant rest <= ports.Keys == posted.Keys
        invariant forall l :: l in posted ==> posted[l] == if l in rest then ports[l] else Queue(ports[l], Down.Deliver(u))
        decreases rest
      {
        var l :| l in rest;
        rest := rest - {l};
        posted := posted[l := Queue(posted[l], Down.Deliver(u))];
      }
    }

    /**
     * A `Flush` event of the protocol under some numbering of the replaced versions, followed by
     * internal events until the kernel is settled. The measure that makes the compactions in
     * between terminate is the set of open segments.
     */
    method Flush(ch: Changes) returns (updateId: nat)
      requires Accounts(View()) && VacantBut(cache.entries, cache.registry.closed, ch.Keys) && Settled(View()) && Publishable(View(), ch)
      modifies this, pins`bound, pins`ever, cache, cache.pool, cache.registry, cache.Sabs()
      ensures exists ids ::
        && Numbered(old(View()), ch, ids) && SettledFrom(Commit(old(View()), ch, ids))
        && SweptFrom(Commit(old(View()), ch, ids), old(cache.Books()).(closed := old(cache.registry.closed) - Segments(ch)))
      ensures cache.pool.segments == old(cache.pool.segments) && pins.SameLeases()
      ensures OpenSegments(cache.Books()) <= old(OpenAfter(cache.Books(), ch))
      ensures updateId == if Vacuous(old(cache.entries), ch) then 0 else old(nextUpdateId) + 1
      decreases |OpenAfter(cache.Books(), ch)|, 5
    {
      hide VfsKernel.SweptFrom, Sweepable, Reachable, Steps, Path, Run, Enabled, Next, Coupled, Settled, Releasable, SameContent, PrivateKept, Publishable, Inv, Commit,
        SameOwners, OpenAfter, PartDone, NumberedFrom, Segments, SettledFrom, PinTable.Leased,
        Pool.Valid, SegmentRegistry.Valid, FilesystemCache.Valid, FilesystemCache.Mem, OpenSegments, Vacuous, Numbered, Vacant, VacantBut;
      ghost var s, b := View(), cache.Books();
      var ep := PutAll(ch);
      PutVacant(s.index, ch, ep, cache.entries, b.closed);
      PuttingOpens(b, cache.Books(), ch);
      updateId := Tell(ep, s, b, ch);
    }

    /** The changes of an epoch are in the index: `Publish` it, unless it came out empty. */
    method Tell(ep: Epoch, ghost s: State, ghost b: Books, ghost ch: Changes) returns (updateId: nat)
      requires View() == s.(index := cache.entries, nextRetire := s.nextRetire + |ep.ids|) && |s.log| == nextUpdateId
      requires Reachable(s) && Settled(s) && Publishable(s, ch) && Coupled(s.ledger, b) && cache.Valid() && SameOwners(b, cache.Books())
      requires PartDone(s.index, ch, ep, cache.entries) && NumberedFrom(s.nextRetire, ep.ids)
      requires pins.Leased() && Vacant(cache.entries, cache.registry.closed)
      modifies this, pins`bound, pins`ever, cache, cache.pool, cache.registry, cache.Sabs()
      ensures exists ids :: Numbered(s, ch, ids) && SettledFrom(Commit(s, ch, ids)) && SweptFrom(Commit(s, ch, ids), old(cache.Books()))
      ensures cache.pool.segments == old(cache.pool.segments)
      ensures OpenSegments(cache.Books()) <= old(OpenSegments(cache.Books()))
      ensures updateId == if Vacuous(s.index, ch) then 0 else old(nextUpdateId) + 1
      decreases |OpenSegments(cache.Books())|, 4
    {
      hide VfsKernel.SweptFrom, Sweepable, Reachable, Steps, Path, Run, Enabled, Next, Coupled, Settled, Releasable, SameContent, PrivateKept, Publishable, Inv, Commit,
        SameOwners, PartDone, NumberedFrom, Segments, SettledFrom, PinTable.Leased,
        FilesystemCache.Valid, FilesystemCache.Mem, OpenSegments, Vacuous, Numbered, Vacant;
      if ep.entries == map[] && ep.removals == {} {
        NothingToTell(s, ch, ep, cache.entries);
        Unchanged(s, b, ch);
        return 0;
      }
      updateId := nextUpdateId + 1;
      Publish(ep, s, b, ch);
    }

    /** An epoch without changes leaves a settled kernel settled. */
    lemma Unchanged(s: State, b: Books, ch: Changes)
      requires View() == s && cache.Valid() && |s.log| == nextUpdateId && pins.Leased() && Vacant(s.index, cache.registry.closed)
      requires Reachable(s) && Settled(s) && Coupled(s.ledger, b) && SameOwners(b, cache.Books())
      ensures SettledFrom(s) && forall c :: SweptFrom(s, c)
    {
      hide Reachable, Steps, Path, Run, Enabled, Next, Coupled, Settled, SameContent, PrivateKept, SameOwners,
        FilesystemCache.Valid, FilesystemCache.Mem;
      StepsSame(s);
      CoupledSame(s.ledger, b, cache.Books());
      SameContentAlways(s.index);
      PrivateKeptAlways(s.ledger);
      NothingReleasable(s);
      NothingSwept(s);
    }

    /** The changes are in the index: retire what they replaced, apply, post and settle. */
    method Publish(ep: Epoch, ghost s: State, ghost b: Books, ghost ch: Changes)
      requires View() == s.(index := cache.entries, nextRetire := s.nextRetire + |ep.ids|) && |s.log| == nextUpdateId
      requires Reachable(s) && Settled(s) && Publishable(s, ch) && Coupled(s.ledger, b) && cache.Valid() && SameOwners(b, cache.Books())
      requires PartDone(s.index, ch, ep, cache.entries) && NumberedFrom(s.nextRetire, ep.ids)
      requires !(ep.entries == map[] && ep.removals == {}) && pins.Leased() && Vacant(cache.entries, cache.registry.closed)
      modifies this, pins`bound, pins`ever, cache, cache.pool, cache.registry, cache.Sabs()
      ensures Numbered(s, ch, ep.ids) && SettledFrom(Commit(s, ch, ep.ids)) && !Vacuous(s.index, ch)
      ensures SweptFrom(Commit(s, ch, ep.ids), old(cache.Books()))
      ensures cache.pool.segments == old(cache.pool.segments)
      ensures OpenSegments(cache.Books()) <= old(OpenSegments(cache.Books()))
      decreases |OpenSegments(cache.Books())|, 3
    {
      hide VfsKernel.SweptFrom, Sweepable, Reachable, Steps, Path, Run, Enabled, Next, Coupled, Settled, Releasable, SameContent, PrivateKept, Publishable, Inv,
        SameOwners, PartDone, NumberedFrom, RecordsOf, HeldByMain, Bind, Relabel, Post, SeparateVersions, RetainedIds, Protocol.Apply,
        FilesystemCache.Valid, FilesystemCache.Mem, OpenSegments, Vacuous, Numbered, Commit, Injective, Vacant, PinTable.Leased, Pool.Valid, SegmentRegistry.Valid, FilesystemCache.Sabs, SettledFrom, VfsKernel.Represents, TrackedAcks;
      ReachableInv(s);
      EpochShape(s, ch, ep, cache.entries);
      nextUpdateId := nextUpdateId + 1;
      var u := Update(nextUpdateId, ep.entries, ep.removals, ep.ids);
      SeparateInMain(s, u);
      FreshRecords(s, ep.ids);
      Announce(u, ep, s, ch);
      hide Told;
      ToldIsCommit(s, ch, ep, cache.entries, u);
      CommitRepresents(s, b, cache.Books(), ch, ep.ids);
      CommitSettles(s, ch, ep.ids);
      CommitFacts(s, ch, ep.ids);
      Represented(Commit(s, ch, ep.ids));
      Track(u.id, ep.ids.Values, Commit(s, ch, ep.ids));
    }

    /** Retire what an epoch replaced, apply it here and post it to every link. */
    method Announce(u: Update, ep: Epoch, ghost s: State, ghost ch: Changes)
      requires ep.ids.Keys <= ep.replaced.Keys && Injective(ep.ids) && u.retired == ep.ids
      requires forall k :: k in ep.ids ==> ep.ids[k] !in holders
      requires SeparateVersions(files, pins.View(), u)
      requires View() == s.(index := cache.entries, nextRetire := s.nextRetire + |ep.ids|)
      modifies this`files, this`retired, this`holders, this`ports, this`ledger, this`log, this`hist, pins`bound, pins`ever
      ensures View() == Told(s, ch, ep, cache.entries, u) && (old(pins.Leased()) ==> pins.Leased())
    {
      hide Injective, SeparateVersions, AfterRetire, AfterPost, Told, VfsKernel.View;
      RetireThenPost(s, ch, ep, cache.entries, u);
      Retire(u, ep);
      Broadcast(u, ch, ep.ids);
    }

    /** Record what an epoch replaced, apply its update here, and hold what this thread still reads. */
    method Retire(u: Update, ep: Epoch)
      requires ep.ids.Keys <= ep.replaced.Keys && Injective(ep.ids) && u.retired == ep.ids
      requires forall k :: k in ep.ids ==> ep.ids[k] !in holders
      requires SeparateVersions(files, pins.View(), u)
      modifies this`files, this`retired, this`holders, pins`bound, pins`ever
      ensures View() == AfterRetire(old(View()), ep, u) && (old(pins.Leased()) ==> pins.Leased())
    {
      hide Injective, SeparateVersions, RecordsOf, HeldByMain, Bind, RetainedIds, Protocol.Apply, FilesystemCache.Mem, Hold, NoHolders;
      retired := retired + RecordsOf(ep.ids, ep.replaced, u.id);
      holders := holders + NoHolders(ep.ids.Values);
      var retained := Apply(u);
      RetainedAmong(old(files), old(pins.View()), u);
      HeldNew(old(holders), ep.ids, retained);
      holders := Hold(holders, retained, Main);
      cache.SameMemory();
    }

    /** Post an update to every link. */
    method Broadcast(u: Update, ghost ch: Changes, ghost ids: map<Key, nat>)
      modifies this`ports, this`ledger, this`log, this`hist
      ensures View() == AfterPost(old(View()), ch, ids, u)
    {
      hide Relabel, Post, FilesystemCache.Mem;
      ports := Deliver(ports, u);
      ledger, log, hist := Relabel(ledger, ch, ids), log + [u], hist + [cache.entries];
      cache.SameMemory();
    }

    // --- Messages from workers, and their exit ---

    /** `h` holds every record in `ids` that still exists. */
    static method HoldAll(holders: map<nat, set<Holder>>, ids: set<nat>, h: Holder) returns (held: map<nat, set<Holder>>)
      ensures held == Hold(holders, ids, h)
    {
      held := holders;
      var rest := ids;
      while rest != {}
        invariant rest <= ids && held.Keys == holders.Keys
        invariant forall id :: id in held ==> held[id] == if id in ids && id !in rest then holders[id] + {h} else holders[id]
        decreases rest
      {
        var id :| id in rest;
        rest := rest - {id};
        if id in held {
          held := held[id := held[id] + {h}];
        }
      }
    }

    /** A state in which nothing can be freed is settled as it is. */
    lemma AlreadySettled(t: State)
      requires View() == t && Represents(t) && forall r :: !Releasable(t, r)
      ensures SettledFrom(t) && forall b :: SweptFrom(t, b)
    {
      hide Reachable, Steps, Path, Run, Enabled, Next, Coupled, Releasable, SameContent, PrivateKept, FilesystemCache.Valid, FilesystemCache.Mem;
      StepsSame(t);
      SameContentAlways(t.index);
      PrivateKeptAlways(t.ledger);
    }

    /** Hold what link `l` still reads and count its acknowledgement; true if it was the last. */
    method TakeAck(u: nat, l: nat, retained: set<nat>) returns (last: bool, done: set<nat>)
      modifies this`holders, this`acks
      ensures View() == old(View()).(holders := Hold(old(holders), retained, Worker(l)), acks := Acked(old(acks), u, l))
      ensures last <==> u in old(acks) && old(acks)[u].links == {l}
      ensures last ==> done == old(acks)[u].retired
    {
      hide Hold, FilesystemCache.Mem;
      holders := HoldAll(holders, retained, Worker(l));
      cache.SameMemory();
      if u !in acks || l !in acks[u].links {
        return false, {};
      }
      var left := acks[u].links - {l};
      if left != {} {
        acks := acks[u := acks[u].(links := left)];
        cache.SameMemory();
        return false, {};
      }
      done := acks[u].retired;
      acks := acks - {u};
      cache.SameMemory();
      last := true;
    }

    /**
     * First the holds of link `l`, then the end of its pending acknowledgement: in this order the
     * records it retains are not releasable when the others settle.
     */
    method HandleAck(u: nat, l: nat, retained: set<nat>, ghost t: State)
      requires t == View().(holders := Hold(holders, retained, Worker(l)), acks := Acked(acks, u, l))
      requires Represents(t)
      requires forall r :: Releasable(t, r) ==> u in acks && acks[u].links == {l} && r in acks[u].retired
      modifies this, pins`bound, pins`ever, cache, cache.pool, cache.registry, cache.Sabs()
      ensures SettledFrom(t) && SweptFrom(t, old(cache.Books())) && cache.pool.segments == old(cache.pool.segments)
    {
      hide VfsKernel.SweptFrom, Sweepable, Reachable, Steps, Path, Run, Enabled, Next, Coupled, Releasable, SameContent, PrivateKept, Hold, Acked, SettledFrom,
        FilesystemCache.Valid, FilesystemCache.Mem;
      var last, done := TakeAck(u, l, retained);
      if !last {
        AlreadySettled(t);
        return;
      }
      Settle(done);
    }

    /** Holder `h` leaves record `id`, which settles if that makes it releasable. */
    method HandleRelease(h: Holder, id: nat, ghost t: State)
      requires t == View().(holders := if id in holders then holders[id := holders[id] - {h}] else holders)
      requires Represents(t) && holders.Keys == retired.Keys
      requires forall r :: Releasable(t, r) ==> r == id && r in retired && r in holders && h in holders[r]
      modifies this, pins`bound, pins`ever, cache, cache.pool, cache.registry, cache.Sabs()
      ensures SettledFrom(t) && SweptFrom(t, old(cache.Books())) && cache.pool.segments == old(cache.pool.segments)
    {
      hide VfsKernel.SweptFrom, Sweepable, Reachable, Steps, Path, Run, Enabled, Next, Coupled, Releasable, SameContent, PrivateKept, SettledFrom,
        FilesystemCache.Valid, FilesystemCache.Mem;
      var done := LetGo(h, id);
      Settle(done);
    }

    /** Forget one hold; the record is returned if there was one. */
    method LetGo(h: Holder, id: nat) returns (done: set<nat>)
      requires holders.Keys == retired.Keys
      modifies this`holders
      ensures View() == old(View()).(holders := if id in old(holders) then old(holders)[id := old(holders)[id] - {h}] else old(holders))
      ensures id in old(holders) && h in old(holders)[id] ==> done == {id}
    {
      hide FilesystemCache.Mem;
      done := {};
      if id in retired {
        if h !in holders[id] {
          assert holders[id] - {h} == holders[id];
          assert holders[id := holders[id] - {h}] == holders;
          return;
        }
        done := {id};
        holders := holders[id := holders[id] - {h}];
        cache.SameMemory();
      }
    }

    /** Acknowledgements no longer waited for; `done` has the records of those that are complete. */
    static method DropLink(acks: map<nat, Pending>, l: nat) returns (left: map<nat, Pending>, done: set<nat>)
      ensures left == ExitAcks(acks, l)
      ensures forall u :: u in acks && acks[u].links == {l} ==> acks[u].retired <= done
    {
      left, done := acks, {};
      var rest := acks.Keys;
      while rest != {}
        invariant rest <= acks.Keys && left.Keys <= acks.Keys
        invariant forall u :: u in rest ==> u in left && left[u] == acks[u]
        invariant forall u :: u in acks && u !in rest ==> (u in left <==> acks[u].links != {l})
        invariant forall u :: u in left && u !in rest ==> left[u] == acks[u].(links := acks[u].links - {l})
        invariant forall u :: u in acks && u !in rest && acks[u].links == {l} ==> acks[u].retired <= done
        decreases rest
      {
        var u :| u in rest;
        rest := rest - {u};
        if l !in left[u].links {
          assert left[u].links - {l} == left[u].links;
          continue;
        }
        if left[u].links - {l} != {} {
          left := left[u := left[u].(links := left[u].links - {l})];
          continue;
        }
        assert left[u].links == {l};
        done := done + left[u].retired;
        left := left - {u};
      }
    }

    /** Every hold of `h` is gone; `done` has the records it held. */
    static method LetAllGo(holders: map<nat, set<Holder>>, h: Holder) returns (left: map<nat, set<Holder>>, done: set<nat>)
      ensures left == Unhold(holders, h)
      ensures forall id :: id in holders && h in holders[id] ==> id in done
    {
      left, done := holders, {};
      var rest := holders.Keys;
      while rest != {}
        invariant rest <= holders.Keys == left.Keys
        invariant forall id :: id in holders ==> left[id] == if id in rest then holders[id] else holders[id] - {h}
        invariant forall id :: id in holders && id !in rest && h in holders[id] ==> id in done
        decreases rest
      {
        var id :| id in rest;
        rest := rest - {id};
        if h in left[id] {
          left := left[id := left[id] - {h}];
          done := done + {id};
        } else {
          assert left[id] - {h} == left[id];
        }
      }
    }

    /** `AfterExit` of the protocol, and then a settled kernel: no record still names the link. */
    method HandleWorkerExit(l: nat)
      requires Valid() && Settled(View()) && l in ports && !ports[l].alive
      modifies this, pins`bound, pins`ever, cache, cache.pool, cache.registry, cache.Sabs()
      ensures SweptFrom(AfterExit(old(View()), l), old(cache.Books()))
      ensures SettledFrom(AfterExit(old(View()), l)) && cache.pool.segments == old(cache.pool.segments) && pins.SameLeases()
    {
      hide VfsKernel.SweptFrom, Sweepable, Reachable, Steps, Path, Run, Enabled, Next, Coupled, Releasable, SameContent, PrivateKept, Settled, Inv, SettledFrom,
        VfsKernel.Represents, PinTable.Leased, Vacant, FilesystemCache.Valid, FilesystemCache.Mem;
      ghost var s := View();
      Represented(s);
      ReachableInv(s);
      ExitRepresents(s, l, cache.Books());
      Represented(AfterExit(s, l));
      var done := Leave(l);
      forall r | Releasable(AfterExit(s, l), r) ensures r in done {
        ExitReleases(s, l, r);
      }
      Settle(done);
    }

    /** Forget the link; returns every record that waited for it or that it held. */
    method Leave(l: nat) returns (done: set<nat>)
      modifies this`ports, this`acks, this`holders
      ensures View() == AfterExit(old(View()), l)
      ensures forall u :: u in old(acks) && old(acks)[u].links == {l} ==> old(acks)[u].retired <= done
      ensures forall id :: id in old(holders) && Worker(l) in old(holders)[id] ==> id in done
    {
      hide ExitAcks, Unhold, FilesystemCache.Mem;
      ports := ports - {l};
      var complete, held;
      acks, complete := DropLink(acks, l);
      holders, held := LetAllGo(holders, Worker(l));
      done := complete + held;
      cache.SameMemory();
    }

    /** Take the next message of a port. */
    method Pop(l: nat) returns (msg: Up)
      requires l in ports && ports[l].outbox != []
      modifies this`ports
      ensures msg == old(ports)[l].outbox[0] && View() == AfterPop(old(View()), l)
    {
      hide FilesystemCache.Mem;
      msg := ports[l].outbox[0];
      ports := ports[l := Popped(ports[l])];
      cache.SameMemory();
    }

    /** A mutation of a worker is being worked on from now on. */
    method BeginMutation(q: Req, ghost t: State)
      requires t == View().(calls := View().calls.(serving := serving + {q})) && Represents(t) && forall r :: !Releasable(t, r)
      modifies this`serving
      ensures SettledFrom(t) && forall b :: SweptFrom(t, b)
    {
      hide VfsKernel.SweptFrom, Sweepable, VfsKernel.Represents, Releasable, SettledFrom, FilesystemCache.Mem;
      serving := serving + {q};
      cache.SameMemory();
      AlreadySettled(t);
    }

    /** The message handler of a link. */
    method OnMessage(l: nat)
      requires Valid() && Settled(View()) && l in ports && ports[l].outbox != []
      modifies this, pins`bound, pins`ever, cache, cache.pool, cache.registry, cache.Sabs()
      ensures SweptFrom(Served(old(View()), l), old(cache.Books()))
      ensures SettledFrom(Served(old(View()), l)) && cache.pool.segments == old(cache.pool.segments) && pins.SameLeases()
    {
      hide VfsKernel.SweptFrom, Sweepable, Reachable, Steps, Path, Run, Enabled, Next, Coupled, Releasable, SameContent, PrivateKept, Settled, Inv, SettledFrom, Served, Hold, Acked, Popped,
        VfsKernel.Represents, PinTable.Leased, Vacant, FilesystemCache.Valid, FilesystemCache.Mem, Pool.Valid, SegmentRegistry.Valid, FilesystemCache.Sabs;
      ghost var s := View();
      Represented(s);
      ReachableInv(s);
      RecordsHeld(s);
      ServeRepresents(s, l, cache.Books());
      PoppedThenServed(s, l);
      Represented(Served(s, l));
      var msg := Pop(l);
      match msg
      case Ack(u, retained) =>
        forall r | Releasable(Served(s, l), r) ensures u in acks && acks[u].links == {l} && r in acks[u].retired {
          AckReleases(s, l, r);
        }
        HandleAck(u, l, retained, Served(s, l));
      case Release(id) =>
        forall r | Releasable(Served(s, l), r) ensures r == id && r in retired && r in holders && Worker(l) in holders[r] {
          ReleaseReleases(s, l, r);
        }
        HandleRelease(Worker(l), id, Served(s, l));
      case Mutate(r) =>
        MutateReleases(s, l);
        NothingReleasable(Served(s, l));
        BeginMutation(Req(l, r), Served(s, l));
    }

    /** A new worker starts from a snapshot of the index and gets every later update. */
    method Link() returns (l: nat)
      requires Valid() && Settled(View())
      modifies this`nextLinkId, this`ports
      ensures Valid() && Settled(View()) && View() == AfterLink(old(View())) && l == nextLinkId
    {
      hide Reachable, Steps, Path, Run, Enabled, Next, Coupled, Releasable, Settled, FilesystemCache.Valid, FilesystemCache.Mem, VfsKernel.Represents, PinTable.Leased, Vacant, Pool.Valid, SegmentRegistry.Valid, FilesystemCache.Sabs;
      ghost var s := View();
      Represented(s);
      LinkRepresents(s, cache.Books());
      Represented(AfterLink(s));
      StaysSettled(s, AfterLink(s));
      nextLinkId := nextLinkId + 1;
      l := nextLinkId;
      ports := ports[l := Peer(true, false, cache.entries, EmptyPins, [], [], nextUpdateId, nextUpdateId, 0, {})];
      cache.SameMemory();
    }

    /**
     * Commit an epoch, on the account of the mutation it belongs to if a worker asked for one: the
     * response will speak of this update.
     */
    method FlushFor(owner: Option<Req>, ch: Changes)
      requires Valid() && Settled(View()) && Publishable(View(), ch) && MayCommit(Calls(serving, credit), owner)
      modifies this, pins`bound, pins`ever, cache, cache.pool, cache.registry, cache.Sabs()
      ensures exists ids :: Numbered(old(View()), ch, ids) && SettledFrom(Credited(old(View()), Commit(old(View()), ch, ids), owner))
      ensures cache.pool.segments == old(cache.pool.segments) && pins.SameLeases()
    {
      hide Reachable, Steps, Path, Run, Enabled, Next, Coupled, Settled, Releasable, SameContent, PrivateKept, Publishable, Inv, Commit, Credited,
        OpenAfter, OpenSegments, Vacuous, Numbered, Vacant, VacantBut, FilesystemCache.Valid, FilesystemCache.Mem;
      ghost var s := View();
      VacantAnyway(cache.entries, cache.registry.closed, ch.Keys);
      var posted := Flush(ch);
      ghost var ids :| Numbered(s, ch, ids) && SettledFrom(Commit(s, ch, ids));
      NoCredit(s, Commit(s, ch, ids));
      if owner.Some? {
        Account(s, ch, ids, owner.value, posted);
      }
    }

    /** Note which update a request was committed as. */
    method Account(ghost s: State, ghost ch: Changes, ghost ids: map<Key, nat>, q: Req, posted: nat)
      requires Reachable(s) && Publishable(s, ch) && Numbered(s, ch, ids) && SettledFrom(Commit(s, ch, ids))
      requires q in s.calls.serving && q !in s.calls.credit
      requires posted == if Vacuous(s.index, ch) then 0 else |s.log| + 1
      modifies this`credit
      ensures SettledFrom(Credited(s, Commit(s, ch, ids), Some(q)))
    {
      hide Reachable, Steps, Path, Run, Enabled, Next, Coupled, Settled, Releasable, SameContent, PrivateKept, Publishable, Inv, Commit, Credited,
        Vacuous, Numbered, Vacant, FilesystemCache.Valid, FilesystemCache.Mem;
      ghost var c, u := Commit(s, ch, ids), View();
      CreditedCommit(s, ch, ids, q, u);
      if posted > 0 {
        credit := credit[q := posted];
      }
      cache.SameMemory();
      assert View() == u.(calls := Credited(s, c, Some(q)).calls);
    }

    /** A mutation was published or refused: its response goes to the link, unless the link is gone. */
    method Answer(q: Req)
      requires Valid() && Settled(View()) && q in serving
      modifies this`serving, this`ports
      ensures Valid() && Settled(View()) && View() == Answered(old(View()), q)
    {
      hide Reachable, Steps, Path, Run, Enabled, Next, Coupled, Releasable, Settled, FilesystemCache.Valid, FilesystemCache.Mem, Vacant, PinTable.Leased, Responded, VfsKernel.Represents, Pool.Valid, SegmentRegistry.Valid, FilesystemCache.Sabs;
      ghost var s := View();
      Represented(s);
      AnswerRepresents(s, q, cache.Books());
      Represented(Answered(s, q));
      StaysSettled(s, Answered(s, q));
      ports := Responded(ports, Calls(serving, credit), q);
      serving := serving - {q};
      cache.SameMemory();
    }

    /** A stream or lease of the main thread starts to read what `key` projects. */
    method Pin(key: Key) returns (lease: nat)
      requires Valid() && Settled(View()) && key in files
      modifies pins
      ensures Valid() && Settled(View()) && View() == WithPins(old(View()), Main, Acquire(old(pins.View()), files[key]))
      ensures lease !in old(pins.held) || lease == old(pins.next)
      ensures pins.Holds(lease, files[key]) && pins.held == old(pins.held)[lease := files[key]]
    {
      hide Reachable, Steps, Path, Run, Enabled, Next, Coupled, Releasable, Settled, Acquire, FilesystemCache.Valid, FilesystemCache.Mem, VfsKernel.Represents, PinTable.Leased, Vacant, Pool.Valid, SegmentRegistry.Valid, FilesystemCache.Sabs;
      ghost var s := View();
      Represented(s);
      PinRepresents(s, key, cache.Books());
      StaysSettled(s, WithPins(s, Main, Acquire(s.pins, s.files[key])));
      lease := pins.Acquire(files[key]);
      cache.SameMemory();
      Represented(View());
    }

    /**
     * A handle of the main thread is released: the first time its hold ends, and with the last one
     * on a retired version the version; any other time nothing happens.
     */
    method Unpin(lease: nat)
      requires Valid() && Settled(View())
      modifies this, pins, cache, cache.pool, cache.registry, cache.Sabs()
      ensures Valid() && Settled(View()) && cache.pool.segments == old(cache.pool.segments)
      ensures lease in old(pins.held) ==> old(pins.held)[lease] in old(pins.counts) && SettledFrom(Unpinned(old(View()), Main, old(pins.held)[lease]))
      ensures lease in old(pins.held) ==> SweptFrom(Unpinned(old(View()), Main, old(pins.held)[lease]), old(cache.Books()))
      ensures lease !in old(pins.held) ==> View() == old(View())
      ensures pins.held == old(pins.held) - {lease} && pins.next == old(pins.next)
    {
      hide VfsKernel.SweptFrom, Sweepable, Reachable, Steps, Path, Run, Enabled, Next, Coupled, Releasable, SameContent, PrivateKept, Settled, Inv, Protocol.Drop, Freed, Unpinned,
        Vacant, FilesystemCache.Valid, FilesystemCache.Mem;
      ghost var s := View();
      if lease !in pins.held {
        assert pins.held - {lease} == pins.held;
        return;
      }
      ghost var version := pins.held[lease];
      pins.HeldIsPinned(lease);
      ReachableInv(s);
      RecordsHeld(s);
      UnpinRepresents(s, version, cache.Books());
      UnpinnedMain(s, version);
      var freed := pins.Release(lease);
      cache.SameMemory();
      ghost var t := Unpinned(s, Main, version);
      forall r | Releasable(t, r) ensures freed == Some(r) && r in retired && r in holders && Main in holders[r] {
        UnpinReleases(s, version, r);
      }
      if freed.Some? {
        HandleRelease(Main, freed.value, t);
      } else {
        AlreadySettled(t);
      }
    }

    /** Something happens beyond the ports: a worker attaches, reads, pins, asks or dies. */
    method Elsewhere(ghost ev: Event, ports': map<nat, Peer>)
      requires Valid() && Settled(View()) && Remote(ev) && Enabled(View(), ev) && ports' == Next(View(), ev).peers
      modifies this`ports
      ensures Valid() && Settled(View()) && View() == Next(old(View()), ev)
    {
      hide Reachable, Steps, Path, Run, Enabled, Next, Coupled, Releasable, Settled, FilesystemCache.Valid, FilesystemCache.Mem, VfsKernel.Represents, PinTable.Leased, Vacant, Pool.Valid, SegmentRegistry.Valid, FilesystemCache.Sabs;
      ghost var s := View();
      Represented(s);
      RemoteRepresents(s, ev, cache.Books());
      Represented(Next(s, ev));
      StaysSettled(s, s.(peers := ports'));
      ports := ports';
      cache.SameMemory();
    }

    // --- Publication ---

    /** A private entry for one input, which nobody else can see; or none. */
    method Allocate(data: seq<byte>, statSize: Option<nat>, limit: nat, path: string, onDisk: bool, fallback: bool, origin: Option<nat>) returns (r: Placement)
      requires Valid() && Settled(View())
      modifies this`ledger, cache`minted, cache.pool, cache.registry, cache.Sabs()
      ensures Valid() && Settled(View())
      ensures Decides(old(cache.registry.Space()), data, statSize, limit, path, onDisk, fallback, r)
      ensures Spent(old(cache.registry.Space()), cache.registry.Space(), r.Made())
      ensures !r.Placed? ==> View() == old(View())
      ensures r.Placed? ==> View() == AfterAllocate(old(View()), r.entry, cache.Mem()) && IsPrivate(ledger, r.entry) && r.entry.id !in old(ledger)
      ensures r.Placed? ==> r.entry.origin == OriginOf(origin, r.entry.id)
      ensures PoolGrew(old(cache.pool.segments), cache.pool.segments)
      ensures forall id :: id in cache.pool.segments && id !in old(cache.pool.segments) ==> fresh(cache.pool.segments[id])
    {
      hide Reachable, Run, Enabled, Next, Coupled, Releasable, Settled, Inv, PoolGrew, Gained, Intact, OwnedKept,
        VfsKernel.Represents, PinTable.Leased, Vacant, AfterAllocate, Decides, Spent, NoPlace, CannotHold, Took, FilesystemCache.Valid, FilesystemCache.Mem, Pool.Valid, SegmentRegistry.Valid, FilesystemCache.Sabs;
      ghost var s, b := View(), cache.Books();
      Represented(s);
      ReachableInv(s);
      LedgerApart(s);
      r := cache.Allocate(data, statSize, limit, path, onDisk, fallback, origin);
      Represented(s);
      if r.Placed? {
        cache.MemoryKeys();
        Keep(r.entry, s, b);
      }
    }

    /** The ledger takes a new private entry. */
    method Keep(e: Entry, ghost s: State, ghost b: Books)
      requires View() == s.(minted := s.minted + 1, mem := cache.Mem()) && cache.Valid() && |s.log| == nextUpdateId
      requires pins.Leased() && Vacant(s.index, cache.registry.closed)
      requires Reachable(s) && Coupled(s.ledger, b) && Settled(s) && e.id == s.minted && e.WellFormed()
      requires OwnedKept(b, s.mem, cache.Mem()) && s.mem.Keys <= cache.Mem().Keys
      requires if e.Occupies() then Gained(b, cache.Books(), e.extent) && Intact(cache.Mem(), e) else cache.Books() == b && cache.Mem() == s.mem
      modifies this`ledger
      ensures Valid() && Settled(View()) && View() == AfterAllocate(s, e, cache.Mem()) && IsPrivate(ledger, e)
    {
      hide Reachable, Run, Enabled, Next, Coupled, Releasable, Settled, Gained, Intact, OwnedKept, Vacant, PinTable.Leased, FilesystemCache.Valid, FilesystemCache.Mem, VfsKernel.Represents, Pool.Valid, SegmentRegistry.Valid, FilesystemCache.Sabs;
      AllocateRepresents(s, b, cache.Books(), e, cache.Mem());
      ledger := ledger[e.id := Slot(e, Private)];
      cache.SameMemory();
      Represented(View());
    }

    /** Give up a private entry. */
    method Discard(e: Entry)
      requires Valid() && Settled(View()) && IsPrivate(ledger, e)
      modifies this`ledger, cache.pool, cache.registry
      ensures Valid() && Settled(View()) && View() == AfterAbandon(old(View()), e.id)
      ensures cache.pool.segments == old(cache.pool.segments)
    {
      hide Reachable, Run, Enabled, Next, Coupled, Releasable, Settled, Lost, OwnsAll, OnlyFewer, Vacant, PinTable.Leased, FilesystemCache.Valid, FilesystemCache.Mem, VfsKernel.Represents, Pool.Valid, SegmentRegistry.Valid, FilesystemCache.Sabs;
      ghost var s, b := View(), cache.Books();
      Represented(s);
      PrivateOwned(s, b, e);
      cache.Free(e);
      FewerVacant(cache.entries, b, cache.Books());
      DiscardRepresents(s, b, cache.Books(), e);
      Represented(AfterAbandon(s, e.id));
      ledger := ledger - {e.id};
      cache.SameMemory();
    }

    /**
     * Set the change of `key` in a staged epoch. If it had a private entry there, that entry leaves
     * the ledger by an `Abandon` event, which is enabled because no reader can reach it.
     */
    method Stage(ep: Staging, key: Key, change: Option<Entry>)
      requires Valid() && Settled(View()) && Publishable(View(), ep.changes)
      requires change.Some? ==> IsPrivate(ledger, change.value) && !PublishedBy(ep.changes, change.value)
      modifies ep, this`ledger, cache.pool, cache.registry
      ensures Valid() && Settled(View()) && Publishable(View(), ep.changes)
      ensures ep.changes == old(ep.changes)[key := change]
      ensures View() == AfterSupersede(old(View()), old(ep.changes), key)
      ensures key !in old(ep.changes) || old(ep.changes)[key].None? ==> cache.registry.Space() == old(cache.registry.Space())
      ensures cache.pool.segments == old(cache.pool.segments)
    {
      hide Reachable, Run, Enabled, Next, Coupled, Releasable, Settled, PublishedBy, Publishable, AfterSupersede, VfsKernel.Represents, FilesystemCache.Valid, FilesystemCache.Mem;
      StageKeepsPublishable(View(), ep.changes, key, change);
      Supersede(ep.changes, key);
      label staged:
      ep.changes := ep.changes[key := change];
      cache.SameMemory@staged();
    }

    method Supersede(changes: Changes, key: Key)
      requires Valid() && Settled(View()) && Publishable(View(), changes)
      modifies this`ledger, cache.pool, cache.registry
      ensures Valid() && Settled(View()) && View() == AfterSupersede(old(View()), changes, key)
      ensures key !in changes || changes[key].None? ==> cache.registry.Space() == old(cache.registry.Space())
      ensures cache.pool.segments == old(cache.pool.segments)
    {
      hide Reachable, Run, Enabled, Next, Coupled, Releasable, Settled, VfsKernel.Represents, FilesystemCache.Valid, FilesystemCache.Mem;
      if key in changes && changes[key].Some? {
        Discard(changes[key].value);
      }
    }

    /** `Overlay` what the attempt made on the staged epoch, and `None` for what it could not make. */
    method StageAll(ep: Staging, made: seq<(Key, Entry)>, dropped: seq<Key>)
      requires Valid() && Settled(View()) && Publishable(View(), ep.changes) && Unstaged(ledger, ep.changes, made)
      modifies ep, this`ledger, cache.pool, cache.registry
      ensures Valid() && Settled(View()) && Publishable(View(), ep.changes)
      ensures ep.changes == Dropping(Overlay(old(ep.changes), made), dropped)
      ensures View() == old(View()).(ledger := ledger) && cache.pool.segments == old(cache.pool.segments)
    {
      hide Reachable, Run, Enabled, Next, Coupled, Releasable, Settled, Publishable, Unstaged, Overlay, Dropping, PublishedBy,
        VfsKernel.Represents, FilesystemCache.Valid, FilesystemCache.Mem;
      ghost var ch := ep.changes;
      OverlayNone(ch, made);
      for i := 0 to |made|
        invariant Valid() && Settled(View()) && Publishable(View(), ep.changes) && Unstaged(ledger, ep.changes, made[i..])
        invariant ep.changes == Overlay(ch, made[..i])
        invariant View() == old(View()).(ledger := ledger) && cache.pool.segments == old(cache.pool.segments)
      {
        OverlayMore(ch, made, i);
        FirstUnstaged(ledger, ep.changes, made[i..]);
        UnstagedLess(View(), ep.changes, made[i..]);
        assert made[i..][1..] == made[i + 1..];
        Stage(ep, made[i].0, Some(made[i].1));
      }
      assert made[..|made|] == made;
      DroppingNone(ep.changes, dropped);
      ghost var over := ep.changes;
      for i := 0 to |dropped|
        invariant Valid() && Settled(View()) && Publishable(View(), ep.changes)
        invariant ep.changes == Dropping(over, dropped[..i])
        invariant View() == old(View()).(ledger := ledger) && cache.pool.segments == old(cache.pool.segments)
      {
        DroppingMore(over, dropped, i);
        Stage(ep, dropped[i], None);
      }
      assert dropped[..|dropped|] == dropped;
    }

    /** An `Abandon` event for each entry of a failed attempt, and no other change of the ledger. */
    method GiveUp(made: seq<(Key, Entry)>)
      requires Valid() && Settled(View()) && Unstaged(ledger, map[], made)
      modifies this`ledger, cache.pool, cache.registry
      ensures Valid() && Settled(View()) && cache.pool.segments == old(cache.pool.segments)
      ensures View() == old(View()).(ledger := old(ledger) - Ids(made))
    {
      hide Reachable, Run, Enabled, Next, Coupled, Releasable, Settled, Unstaged, PublishedBy, Ids,
        VfsKernel.Represents, FilesystemCache.Valid, FilesystemCache.Mem;
      IdsSplit(made);
      for i := 0 to |made|
        invariant Valid() && Settled(View()) && Unstaged(ledger, map[], made[i..]) && cache.pool.segments == old(cache.pool.segments)
        invariant View() == old(View()).(ledger := old(ledger) - Ids(made[..i]))
      {
        FirstUnstaged(ledger, map[], made[i..]);
        DiscardedLess(ledger, made[i..]);
        IdsMore(made, i);
        assert made[i..][1..] == made[i + 1..];
        Discard(made[i].1);
      }
      assert made[..|made|] == made;
    }

    // --- Reading a file: the extent is reserved first, filled over time, then complete or given up ---

    method BeginRead(size: nat) returns (x: Option<Extent>)
      requires Valid() && Settled(View()) && size > 0
      modifies this`ledger, cache`minted, cache.pool, cache.registry
      ensures Valid() && Settled(View())
      ensures x.None? ==> View() == old(View())
      ensures x.None? <==> CannotHold(old(cache.registry.Space()), size)
      ensures if x.Some? then Took(old(cache.registry.Space()), cache.registry.Space(), x.value) else cache.registry.Space() == old(cache.registry.Space())
      ensures x.Some? ==> x.value.length == size && View() == AfterReserve(old(View()), x.value, cache.Mem())
      ensures PoolGrew(old(cache.pool.segments), cache.pool.segments)
      ensures forall s :: s in cache.pool.segments && s !in old(cache.pool.segments) ==> fresh(cache.pool.segments[s])
    {
      hide Reachable, Run, Enabled, Next, Coupled, Releasable, Settled, Gained, Extends, PoolGrew, AfterReserve, Filling, Took, CannotHold,
        Pool.Valid, SegmentRegistry.Valid, FilesystemCache.Valid, FilesystemCache.Mem;
      ghost var s, b := View(), cache.Books();
      x := Room(size);
      if x.Some? {
        hide VfsKernel.Represents;
        KeepRoom(x.value, s, b);
      }
    }

    /** An extent nobody owned; nothing but the books of the cache changes. */
    method Room(size: nat) returns (x: Option<Extent>)
      requires cache.Valid() && size > 0
      modifies cache.pool, cache.registry
      ensures cache.Valid()
      ensures x.None? ==> View() == old(View()) && cache.Books() == old(cache.Books())
      ensures x.None? <==> CannotHold(old(cache.registry.Space()), size)
      ensures if x.Some? then Took(old(cache.registry.Space()), cache.registry.Space(), x.value) else cache.registry.Space() == old(cache.registry.Space())
      ensures x.Some? ==> x.value.length == size && View() == old(View()).(mem := cache.Mem())
      ensures x.Some? ==> Extends(old(View()), x.value, cache.Mem()) && Gained(old(cache.Books()), cache.Books(), x.value)
      ensures PoolGrew(old(cache.pool.segments), cache.pool.segments) && cache.registry.closed == old(cache.registry.closed)
      ensures forall s :: s in cache.pool.segments && s !in old(cache.pool.segments) ==> fresh(cache.pool.segments[s])
    {
      hide Took, CannotHold, Gained, Extends, PoolGrew, Pool.Valid, SegmentRegistry.Valid, FilesystemCache.Valid, FilesystemCache.Mem;
      var at := cache.Reserve(size, false);
      if !at.At? {
        cache.SameMemory();
        return None;
      }
      x := Some(Extent(at.segment, at.offset, size));
      ReadRoom(x.value);
    }

    /** A newly reserved extent lies in memory, and other bytes are as they were. */
    twostate lemma ReadRoom(x: Extent)
      requires x.segment in cache.pool.segments && x.offset + x.length <= cache.pool.segments[x.segment].Length
      requires PoolGrew(old(cache.pool.segments), cache.pool.segments)
      requires forall id :: id in old(cache.pool.segments) ==> unchanged(old(cache.pool.segments[id]))
      ensures Extends(old(View()), x, cache.Mem())
    {
      hide FilesystemCache.Mem;
      cache.MemoryGrew();
      cache.ExtentInMemory(x);
    }

    /** The ledger takes a reserved extent. */
    method KeepRoom(x: Extent, ghost s: State, ghost b: Books)
      requires View() == s.(mem := cache.Mem()) && cache.Valid() && |s.log| == nextUpdateId
      requires pins.Leased() && Vacant(s.index, cache.registry.closed)
      requires Reachable(s) && Coupled(s.ledger, b) && Settled(s) && x.length > 0 && Gained(b, cache.Books(), x) && Extends(s, x, cache.Mem())
      modifies this`ledger, cache`minted
      ensures Valid() && Settled(View()) && View() == AfterReserve(s, x, cache.Mem()) && Filling(View(), s.minted)
    {
      hide Reachable, Run, Enabled, Next, Coupled, Releasable, Settled, Gained, Extends, Vacant, PinTable.Leased, FilesystemCache.Valid, FilesystemCache.Mem, VfsKernel.Represents, Pool.Valid, SegmentRegistry.Valid, FilesystemCache.Sabs;
      ReserveRepresents(s, b, cache.Books(), x, cache.Mem());
      ledger := ledger[cache.minted := Slot(Shared(cache.minted, cache.minted, x, []), Reserved)];
      cache.minted := cache.minted + 1;
      cache.SameMemory();
      Represented(View());
    }

    /** Where the bytes of a reservation are. */
    lemma ReservedInPool(id: nat)
      requires cache.Valid() && Coupled(ledger, cache.Books()) && id in ledger && ledger[id].entry.Occupies()
      ensures var x := ledger[id].entry.extent;
        && x.segment in cache.pool.segments && x.offset + x.length <= cache.pool.segmentSize == cache.pool.segments[x.segment].Length
        && OwnsAll(cache.Books(), x)
    {
      hide Coupled, Owns, Volume, Distinct;
      EntryOwned(ledger, cache.Books(), id);
      OwnersRegistered(cache.Books(), cache.pool.segmentSize, ledger[id].entry.extent);
      OwnedInside(cache.Books(), cache.pool.segmentSize, ledger[id].entry.extent);
    }

    /** Some bytes of the file arrive in the extent reserved for it. */
    method ReadChunk(ghost id: nat, x: Extent, at: nat, data: seq<byte>)
      requires Valid() && Settled(View()) && Filling(View(), id) && ledger[id].entry.extent == x && x.length > 0
      requires at + |data| <= x.length && x.segment in cache.pool.segments
      modifies cache.pool.segments[x.segment]
      ensures Valid() && Settled(View()) && View() == old(View()).(mem := cache.Mem())
      ensures WritesWithin(old(View()), id, cache.Mem()) && Written(old(cache.Mem()), cache.Mem(), x.segment, x.offset + at, data)
    {
      hide Reachable, Run, Enabled, Next, Coupled, Releasable, Settled, FilesystemCache.Mem, VfsKernel.Represents, PinTable.Leased, Vacant,
        Written, WritesWithin, OwnsAll, Pool.Valid, WellKept, Volume;
      ghost var s := View();
      Represented(s);
      ReservedInPool(id);
      cache.Write(x.segment, x.offset + at, data);
      WrittenWithin(s, id, x, at, data, cache.Mem());
      FillRepresents(s, cache.Books(), id, cache.Mem());
      Represented(View());
    }

    /** The whole file is there: the reservation becomes a private entry that holds it. */
    method EndRead(id: nat, x: Extent) returns (e: Entry)
      requires Valid() && Settled(View()) && Filling(View(), id) && ledger[id].entry.extent == x && ledger[id].entry.origin == id && x.length > 0
      requires x.segment in cache.pool.segments && x.offset + x.length <= cache.pool.segments[x.segment].Length
      modifies this`ledger
      ensures Valid() && Settled(View()) && IsPrivate(ledger, e) && e.id == e.origin == id && e.Shared? && e.extent == x
      ensures e.bytes == old(cache.pool.segments[x.segment][x.offset..x.offset + x.length])
      ensures View() == AfterComplete(old(View()), id, e.bytes)
    {
      hide Reachable, Run, Enabled, Next, Coupled, Releasable, Settled, FilesystemCache.Valid, VfsKernel.Represents, PinTable.Leased, Vacant, Pool.Valid, SegmentRegistry.Valid, FilesystemCache.Sabs;
      ghost var s := View();
      Represented(s);
      ReachableInv(s);
      LedgerApart(s);
      hide Inv, Apart;
      e := Shared(id, id, x, cache.pool.segments[x.segment][x.offset..x.offset + x.length]);
      assert Completes(s, id, e.bytes);
      hide FilesystemCache.Mem, Completes;
      CompleteRepresents(s, cache.Books(), id, e.bytes);
      ledger := ledger[id := Slot(e, Private)];
      cache.SameMemory();
      Represented(View());
    }

    /** The read failed: the reservation is given back. */
    method FailRead(ghost id: nat, x: Extent)
      requires Valid() && Settled(View()) && Filling(View(), id) && ledger[id].entry.extent == x && x.length > 0
      modifies this`ledger, cache.pool, cache.registry
      ensures Valid() && Settled(View()) && View() == AfterAbandon(old(View()), id)
      ensures cache.pool.segments == old(cache.pool.segments)
    {
      hide Reachable, Run, Enabled, Next, Coupled, Releasable, Settled, Lost, OwnsAll, OnlyFewer, Vacant, PinTable.Leased, FilesystemCache.Valid, FilesystemCache.Mem, VfsKernel.Represents, Pool.Valid, SegmentRegistry.Valid, FilesystemCache.Sabs;
      ghost var s, b := View(), cache.Books();
      Represented(s);
      EntryOwned(ledger, b, id);
      cache.Release(x);
      FewerVacant(cache.entries, b, cache.Books());
      AbandonRepresents(s, b, cache.Books(), id);
      Represented(AfterAbandon(s, id));
      ledger := ledger - {id};
      cache.SameMemory();
    }

    // --- What the cache frees is never readable ---

    /** Whatever a thread can read is owned in the cache, and the segments hold its bytes. */
    lemma ReadableBytesStay(who: Holder, e: Entry)
      requires Valid() && Readable(View(), who, e) && e.Occupies()
      ensures OwnsAll(cache.Books(), e.extent) && e.WellFormed() && Intact(cache.Mem(), e)
      ensures e.extent.segment in cache.pool.segments && e.extent.segment !in cache.pool.emptySegmentIds
    {
      hide Reachable, Coupled, Readable, OwnsAll, Intact, FilesystemCache.Mem;
      NoUseAfterFree(View(), who, e);
      EntryOwned(ledger, cache.Books(), e.id);
      OwnersRegistered(cache.Books(), cache.pool.segmentSize, e.extent);
    }

    /** In every segment the bytes in use are exactly those of published, retired and private entries. */
    lemma OwnedExactly(a: Addr)
      requires Valid()
      ensures Owns(cache.Books(), a) <==> OfPublished(View(), a) || OfRetired(View(), a) || OfInFlight(View(), a)
    {
      hide Reachable, Coupled, Inv, OfPublished, OfRetired, OfInFlight, Owns, FilesystemCache.Valid, FilesystemCache.Mem;
      ReachableInv(View());
      OwnersAre(View(), cache.Books(), a);
    }
  }

  /** The changes of one epoch, collected before it is committed. */
  class Staging {
    var changes: Changes

    constructor ()
      ensures changes == map[]
    {
      changes := map[];
    }
  }
}
