/** The pooled file cache: placing bytes, publishing entries and planning compaction. */
module Cache {
  import opened Layout
  import opened Extents
  import opened Registry
  import opened Ownership
  import opened Relocation

  datatype Placement = SizeMismatch | NoRoom | Placed(entry: Entry) {
    function Made(): Option<Entry> {
      if Placed? then Some(entry) else None
    }
  }

  /** The bytes are too many for the limit of their place, or nothing in the pool takes them. */
  ghost predicate NoPlace(room: Room, data: seq<byte>, limit: nat) {
    |data| > limit || (data != [] && CannotHold(room, |data|))
  }

  /**
   * What an allocation answers: bytes that contradict their stat are an error, what stays on disk or
   * finds no place becomes a disk entry or nothing, and everything else goes into the pool.
   */
  ghost predicate Decides(room: Room, data: seq<byte>, statSize: Option<nat>, limit: nat, path: string, onDisk: bool, fallback: bool, r: Placement) {
    if !onDisk && statSize.Some? && statSize.value != |data| then r.SizeMismatch?
    else if onDisk || NoPlace(room, data, limit) then
      if fallback then r.Placed? && r.entry.Disk? && r.entry.path == path else r.NoRoom?
    else r.Placed? && r.entry.Shared? && r.entry.bytes == data
  }

  /** What placing `e` took of the room: the extent of the entry, if it has one. */
  ghost predicate Spent(pre: Room, post: Room, e: Option<Entry>) {
    if e.Some? && e.value.Occupies() then Took(pre, post, e.value.extent) else post == pre
  }

  class FilesystemCache {
    const pool: Pool
    const registry: SegmentRegistry
    const maxFileSize: nat
    var entries: Files   // published only
    var minted: nat      // numbers entry objects

    ghost function Sabs(): set<array<byte>>
      reads pool
    {
      set id | id in pool.segments :: pool.segments[id]
    }

    ghost function Books(): Books
      reads registry
    {
      registry.View()
    }

    /** The bytes of every segment. */
    ghost function Mem(): Memory
      reads pool, Sabs()
    {
      map id, i | id in pool.segments && 0 <= i < pool.segments[id].Length :: Addr(id, i) := pool.segments[id][i]
    }

    /** A registered segment owns at least one byte: fully freed ones leave the registry. */
    ghost predicate Valid()
      reads pool, registry
    {
      && registry.pool == pool
      && registry.Valid()
      && (forall s :: s in registry.ids ==> UsedOf(registry.View(), s) > 0)
    }

    constructor (limit: nat, segmentSize: nat, maxFileSize: nat)
      requires 0 < segmentSize
      ensures Valid() && fresh(pool) && fresh(registry)
      ensures entries == map[] && minted == 0 && Books() == Registry.Books([], map[], map[], {}) && pool.segments == map[]
    {
      var p := new Pool(limit, segmentSize);
      pool := p;
      registry := new SegmentRegistry(p);
      this.maxFileSize := maxFileSize;
      entries, minted := map[], 0;
    }

    /** An extent that had no owner before and has one now, or a refusal that changed nothing. */
    method Reserve(size: nat, noGrow: bool) returns (r: Allocation)
      requires Valid() && size > 0
      modifies pool, registry
      ensures Valid() && !r.InvalidSize? && registry.closed == old(registry.closed)
      ensures r.Full? ==> Books() == old(Books()) && pool.segments == old(pool.segments)
      ensures r.At? ==> HandedOut(old(Books()), Books(), r, size, pool.segmentSize) && r.segment in pool.segments
      ensures r.At? ==> r.offset + size <= pool.segments[r.segment].Length
      ensures r.Full? && size <= pool.segmentSize ==> Stuck(old(Books()), size, pool.segmentSize)
      ensures !noGrow ==> (r.Full? <==> CannotHold(old(registry.Space()), size))
      ensures r.Full? ==> registry.Space() == old(registry.Space())
      ensures r.At? ==> Took(old(registry.Space()), registry.Space(), Extent(r.segment, r.offset, size))
      ensures noGrow ==> registry.ids == old(registry.ids) && pool.segments == old(pool.segments)
      ensures PoolGrew(old(pool.segments), pool.segments)
      ensures forall id :: id in pool.segments && id !in old(pool.segments) ==> fresh(pool.segments[id])
    {
      hide Volume, Gained, Coalesced, FreeAt, Distinct, PoolGrew, BestFit, NoExtentFits, NoTailFits, Owns, Took, CannotHold;
      ghost var pre := Books();
      r := registry.Allocate(size, noGrow);
      if r.At? {
        StillUsed(pre, Books(), Extent(r.segment, r.offset, size), pool.segmentSize);
      }
    }

    /** Fill part of one segment. */
    method Write(segment: nat, offset: nat, data: seq<byte>)
      requires pool.Valid() && segment in pool.segments && offset + |data| <= pool.segmentSize
      modifies pool.segments[segment]
      ensures Written(old(Mem()), Mem(), segment, offset, data)
    {
      hide Volume, Distinct;
      var sab := pool.segments[segment];
      forall i | 0 <= i < |data| {
        sab[offset + i] := data[i];
      }
      assert forall id :: id in pool.segments && id != segment ==> pool.segments[id] != sab;
    }

    /** `#release`: the extent loses its owner, and a segment left without owned bytes is retired. */
    method Release(x: Extent)
      requires Valid() && x.length > 0
      requires x.segment in pool.segments ==> OwnsAll(Books(), x)
      modifies pool, registry
      ensures Valid() && pool.segments == old(pool.segments)
      ensures Lost(old(Books()), Books(), x)
      ensures OnlyFewer(old(Books()), Books())
    {
      hide Volume, Coalesced, FreeAt, Distinct, Lost, Owns, WellKept, OnlyFewer, OwnsAll;
      ghost var pre := Books();
      OwnersRegistered(pre, pool.segmentSize, x);
      if x.segment !in pool.segments {
        NothingLost(pre, x);
        return;
      }
      registry.Release(x.segment, x.offset, x.length);
      ghost var mid := Books();
      ReleasedUse(pre, mid, x, pool.segmentSize);
      var used := registry.Used(x.segment);
      if used == 0 {
        Retire(x.segment);
        LostTwice(pre, mid, Books(), x);
        FewerTwice(pre, mid, x.segment);
      } else {
        FewerSame(pre, mid);
      }
    }

    /** An empty segment leaves the registry and waits in the pool for reuse. */
    method Retire(segment: nat)
      requires registry.pool == pool && registry.Valid() && segment in registry.ids && UsedOf(Books(), segment) == 0
      requires forall s :: s in registry.ids && s != segment ==> UsedOf(Books(), s) > 0
      modifies pool, registry
      ensures Valid() && pool.segments == old(pool.segments)
      ensures Books() == Unlist(old(Books()), segment)
      ensures SameOwners(old(Books()), Books())
    {
      hide Volume, Coalesced, FreeAt, SameOwners, Distinct, Owns;
      UnlistedOwners(Books(), pool.segmentSize, segment);
      UnlistedUse(Books(), segment);
      registry.Unregister(segment);
      hide WellKept;
      pool.FreeSegment(segment);
    }

    /**
     * `#place` for bytes in memory: a private entry that holds exactly them, in bytes nobody
     * owned; an entry without bytes of its own when there are none; or nothing.
     */
    method Place(data: seq<byte>, statSize: Option<nat>, limit: nat, origin: Option<nat>) returns (r: Placement)
      requires Valid()
      modifies this`minted, pool, registry, Sabs()
      ensures Valid() && registry.closed == old(registry.closed)
      ensures r.SizeMismatch? <==> statSize.Some? && statSize.value != |data|
      ensures r.NoRoom? <==> !r.SizeMismatch? && NoPlace(old(registry.Space()), data, limit)
      ensures Spent(old(registry.Space()), registry.Space(), r.Made())
      ensures !r.Placed? ==> Books() == old(Books()) && minted == old(minted) && pool.segments == old(pool.segments) && Mem() == old(Mem())
      ensures r.Placed? ==> minted == old(minted) + 1 && r.entry.Shared? && r.entry.id == old(minted) && r.entry.origin == OriginOf(origin, r.entry.id) && r.entry.bytes == data && r.entry.WellFormed()
      ensures r.Placed? && data == [] ==> !r.entry.Occupies() && Books() == old(Books()) && pool.segments == old(pool.segments) && Mem() == old(Mem())
      ensures r.Placed? && data != [] ==>
        && Gained(old(Books()), Books(), r.entry.extent)
        && Open(Books(), r.entry.extent.segment)
        && Intact(Mem(), r.entry)
      ensures OwnedKept(old(Books()), old(Mem()), Mem())
      ensures PoolGrew(old(pool.segments), pool.segments)
      ensures forall id :: id in pool.segments && id !in old(pool.segments) ==> fresh(pool.segments[id])
    {
      hide Volume, Coalesced, FreeAt, Distinct, Owns, WellKept, Gained, Intact, Mem, Took, CannotHold;
      if statSize.Some? && statSize.value != |data| {
        return SizeMismatch;
      }
      if |data| > limit {
        return NoRoom;
      }
      if data == [] {
        r := Placed(Shared(minted, OriginOf(origin, minted), Extent(0, 0, 0), []));
        minted := minted + 1;
        return;
      }
      var at := Store(data, false);
      if at.At? {
        r := Placed(Shared(minted, OriginOf(origin, minted), Extent(at.segment, at.offset, |data|), data));
        label stored:
        minted := minted + 1;
        SameMemory@stored();
      } else {
        r := NoRoom;
      }
    }

    /**
     * Place bytes held in memory, or leave the file on disk when it is to stay there or does not
     * fit and may fall back to its path.
     */
    method Allocate(data: seq<byte>, statSize: Option<nat>, limit: nat, path: string, onDisk: bool, fallback: bool, origin: Option<nat>) returns (r: Placement)
      requires Valid()
      modifies this`minted, pool, registry, Sabs()
      ensures Valid() && registry.closed == old(registry.closed)
      ensures Decides(old(registry.Space()), data, statSize, limit, path, onDisk, fallback, r)
      ensures Spent(old(registry.Space()), registry.Space(), r.Made())
      ensures !r.Placed? ==> Books() == old(Books()) && minted == old(minted) && pool.segments == old(pool.segments) && Mem() == old(Mem())
      ensures r.Placed? ==> r.entry.id == old(minted) && r.entry.origin == OriginOf(origin, r.entry.id) && minted == old(minted) + 1 && r.entry.WellFormed()
      ensures r.Placed? && !r.entry.Occupies() ==> Books() == old(Books()) && pool.segments == old(pool.segments) && Mem() == old(Mem())
      ensures r.Placed? && r.entry.Occupies() ==> Gained(old(Books()), Books(), r.entry.extent) && Intact(Mem(), r.entry)
      ensures OwnedKept(old(Books()), old(Mem()), Mem())
      ensures PoolGrew(old(pool.segments), pool.segments)
      ensures forall id :: id in pool.segments && id !in old(pool.segments) ==> fresh(pool.segments[id])
    {
      hide Volume, Coalesced, FreeAt, Distinct, Owns, WellKept, Gained, Intact, Mem, OwnedKept, Pool.Valid, SegmentRegistry.Valid, FilesystemCache.Valid, CannotHold, Took;
      NothingChanged(Books(), Mem());
      r := NoRoom;
      if !onDisk {
        r := Place(data, statSize, limit, origin);
      }
      if r.NoRoom? && fallback {
        label left:
        r := Placed(Disk(minted, OriginOf(origin, minted), path));
        minted := minted + 1;
        SameMemory@left();
      }
    }

    /** Reserve an extent and copy `data` into it. */
    method Store(data: seq<byte>, noGrow: bool) returns (r: Allocation)
      requires Valid() && data != []
      modifies pool, registry, Sabs()
      ensures Valid() && !r.InvalidSize? && registry.closed == old(registry.closed)
      ensures r.Full? ==> Books() == old(Books()) && pool.segments == old(pool.segments) && Mem() == old(Mem())
      ensures r.Full? && |data| <= pool.segmentSize ==> Stuck(old(Books()), |data|, pool.segmentSize)
      ensures !noGrow ==> (r.Full? <==> CannotHold(old(registry.Space()), |data|))
      ensures r.Full? ==> registry.Space() == old(registry.Space())
      ensures r.At? ==> Took(old(registry.Space()), registry.Space(), Extent(r.segment, r.offset, |data|))
      ensures noGrow ==> registry.ids == old(registry.ids) && pool.segments == old(pool.segments)
      ensures r.At? ==> HandedOut(old(Books()), Books(), r, |data|, pool.segmentSize) && r.segment in pool.segments
      ensures r.At? ==> forall id: nat, origin: nat :: Intact(Mem(), Shared(id, origin, Extent(r.segment, r.offset, |data|), data))
      ensures OwnedKept(old(Books()), old(Mem()), Mem())
      ensures PoolGrew(old(pool.segments), pool.segments)
      ensures forall id :: id in pool.segments && id !in old(pool.segments) ==> fresh(pool.segments[id])
    {
      hide Volume, Coalesced, FreeAt, Distinct, Owns, WellKept, Gained, Intact, Mem, OwnedKept, Took, CannotHold;
      ghost var pre, before := Books(), Mem();
      r := Reserve(|data|, noGrow);
      MemoryGrew();
      ghost var mid := Mem();
      if r.Full? {
        SameMemory();
        KeptAll(pre, before, mid);
        return;
      }
      Write(r.segment, r.offset, data);
      ghost var x := Extent(r.segment, r.offset, |data|);
      ExtentInMemory(x);
      forall id: nat, origin: nat ensures Intact(Mem(), Shared(id, origin, x, data)) {
        WrittenIntact(Mem(), Shared(id, origin, x, data));
      }
      OthersKept(pre, Books(), before, mid, Mem(), x);
    }

    // --- Publishing ---

    /**
     * Install `entry` in the index and hand back its predecessor, if any. Its segment is open
     * afterwards, whatever a compaction did to it; nothing else moves.
     */
    method Put(key: Key, entry: Entry) returns (previous: Option<Entry>)
      requires Valid()
      modifies this`entries, registry`closed
      ensures Valid()
      ensures entries == old(entries)[key := entry]
      ensures previous == if key in old(entries) then Some(old(entries)[key]) else None
      ensures registry.closed == old(registry.closed) - if entry.Shared? then {entry.extent.segment} else {}
      ensures SameOwners(old(Books()), Books())
    {
      hide Volume, Coalesced, FreeAt, Distinct, Owns, SameOwners, Pool.Valid;
      SelfOwners(Books());
      previous := if key in entries then Some(entries[key]) else None;
      entries := entries[key := entry];
      if entry.Shared? {
        ClosedSameOwners(Books(), registry.closed - {entry.extent.segment});
        registry.closed := registry.closed - {entry.extent.segment};
      }
    }

    /** Take `key` off the index and hand back what was there, if anything. */
    method Remove(key: Key) returns (removed: Option<Entry>)
      modifies this`entries
      ensures entries == old(entries) - {key}
      ensures removed == if key in old(entries) then Some(old(entries)[key]) else None
    {
      if key !in entries {
        return None;
      }
      removed := Some(entries[key]);
      entries := entries - {key};
    }

    /** Afterwards nobody owns the bytes of `entry`, and the ownership of all other bytes stands. */
    method Free(entry: Entry)
      requires Valid()
      requires entry.Occupies() ==> OwnsAll(Books(), entry.extent)
      modifies pool, registry
      ensures Valid() && pool.segments == old(pool.segments)
      ensures if entry.Occupies() then Lost(old(Books()), Books(), entry.extent) else Books() == old(Books())
      ensures OnlyFewer(old(Books()), Books()) && Mem() == old(Mem())
    {
      hide Volume, Coalesced, FreeAt, Distinct, Lost, Owns, WellKept, OwnsAll, Mem;
      if entry.Occupies() {
        hide OnlyFewer;
        Release(entry.extent);
        SameMemory();
      }
    }

    // --- Compaction ---

    /** Published entries own their bytes, and the bytes are there. */
    ghost predicate Sound()
      reads this, pool, registry, Sabs()
    {
      && Valid()
      && forall k :: k in entries && entries[k].Shared? ==>
           entries[k].WellFormed() && OwnsAll(Books(), entries[k].extent) && Intact(Mem(), entries[k])
    }

    method Util(segment: nat) returns (util: real)
      requires Valid()
      ensures util == Utilisation(Books(), segment, pool.segmentSize)
    {
      hide Volume, WellKept, UsedOf;
      var used := registry.Used(segment);
      util := used as real / pool.segmentSize as real;
    }

    /** One more segment: if it is open it is counted, and the least used so far or the one before stays so. */
    method Scan(s: nat, found: bool, target: nat, least: real, count: nat, ghost threshold: real, ghost p: nat, ghost seen: set<nat>)
      returns (found': bool, target': nat, least': real, count': nat, ghost seen': set<nat>)
      requires Valid() && pool.segmentSize > 0 && p < |registry.ids| && s == registry.ids[p]
      requires Scanned(Books(), pool.segmentSize, threshold, p, seen, found, target, least) && count == |seen|
      ensures Scanned(Books(), pool.segmentSize, threshold, p + 1, seen', found', target', least') && count' == |seen'|
    {
      ghost var b := Books();
      Registered(b, pool.segmentSize);
      hide Volume, Coalesced, FreeAt, UsedOf, WellKept, Utilisation, SegmentRegistry.Valid, FilesystemCache.Valid, Pool.Valid, Scanned, Distinct;
      found', target', least', count', seen' := found, target, least, count, seen;
      if registry.tail[s] == 0 || s in registry.closed {
        ScannedClosed(b, pool.segmentSize, threshold, p, seen, found, target, least);
        return;
      }
      ScannedOpen(b, pool.segmentSize, threshold, p, seen, found, target, least);
      count', seen' := count + 1, seen + {s};
      var util := Util(s);
      if util < least {
        found', target', least' := true, s, util;
      }
    }

    /** The least used open segment below the threshold, if another one is open. */
    method LeastUtilised(threshold: real) returns (found: bool, target: nat)
      requires Valid() && threshold != 0.0
      ensures found ==> Target(Books(), pool.segmentSize, threshold, target)
      ensures !found ==> forall s :: !Target(Books(), pool.segmentSize, threshold, s)
    {
      ghost var b := Books();
      assert pool.segmentSize > 0;
      hide SegmentRegistry.Valid, FilesystemCache.Valid, Pool.Valid, Target, Scanned;
      found, target := false, 0;
      var least, count := threshold, 0;
      ghost var seen: set<nat> := {};
      NothingScanned(b, pool.segmentSize, threshold);
      for p := 0 to |registry.ids|
        invariant count == |seen| && Scanned(b, pool.segmentSize, threshold, p, seen, found, target, least)
      {
        found, target, least, count, seen := Scan(registry.ids[p], found, target, least, count, threshold, p, seen);
      }
      LeastIsTarget(b, pool.segmentSize, threshold, seen, found, target, least);
      found := found && count >= 2;
    }

    /** The published entries of segment `target`, each once. */
    method ResidentKeys(target: nat) returns (keys: seq<Key>)
      ensures Lists(keys, Residents(entries, target))
    {
      keys := [];
      var rest := entries.Keys;
      while rest != {}
        invariant rest <= entries.Keys
        invariant Lists(keys, Residents(entries, target) - rest)
        decreases rest
      {
        var key :| key in rest;
        rest := rest - {key};
        if entries[key].Shared? && entries[key].extent.segment == target {
          keys := keys + [key];
        }
      }
      assert Residents(entries, target) - {} == Residents(entries, target);
    }

    /** Copy the bytes of one published entry of the closed segment elsewhere, without growing. */
    method CopyOut(key: Key, id: nat) returns (ok: bool, move: Move)
      requires Valid() && key in entries && entries[key].Occupies() && entries[key].WellFormed()
      requires OwnsAll(Books(), entries[key].extent) && Intact(Mem(), entries[key])
      modifies pool, registry, Sabs()
      ensures Valid() && registry.closed == old(registry.closed) && registry.ids == old(registry.ids) && pool.segments == old(pool.segments)
      ensures !ok ==> Books() == old(Books()) && Stuck(Books(), entries[key].extent.length, pool.segmentSize)
      ensures ok ==> CopiedOut(old(Books()), Books(), Mem(), entries, key, move, id)
      ensures ok ==> CopyTook(old(Books()), Books(), entries, key, move, pool.segmentSize)
      ensures OwnedKept(old(Books()), old(Mem()), Mem())
    {
      hide Volume, Coalesced, FreeAt, Distinct, Owns, WellKept, Gained, OwnedKept, Stuck, Took, CannotHold;
      var x := entries[key].extent;
      ghost var room := registry.Space();
      OwnersRegistered(Books(), pool.segmentSize, x);
      OwnedInside(Books(), pool.segmentSize, x);
      var data := pool.segments[x.segment][x.offset..x.offset + x.length];
      assert data == entries[key].bytes by {
        ReadsBytes(entries[key]);
      }
      hide Intact, Mem, OwnsAll;
      var at := Store(data, true);
      ok := at.At?;
      if ok {
        TookWithin(room, registry.Space(), Extent(at.segment, at.offset, |data|));
      }
      hide TookOpen;
      move := Move(key, if ok then Shared(id, entries[key].origin, Extent(at.segment, at.offset, |data|), data) else entries[key]);
    }

    /** Copy out every entry in `keys`, or none. */
    method CopyAll(keys: seq<Key>) returns (ok: bool, moves: seq<Move>)
      requires Sound()
      requires forall k :: k in keys ==> k in entries && entries[k].Occupies()
      modifies pool, registry, Sabs()
      ensures Valid() && registry.closed == old(registry.closed) && registry.ids == old(registry.ids) && pool.segments == old(pool.segments)
      ensures OwnedKept(old(Books()), old(Mem()), Mem())
      ensures ok ==> |moves| == |keys| && Copies(entries, keys, moves, minted)
      ensures ok ==> Moved(old(Books()), Books(), moves) && AllIntact(Mem(), moves)
      ensures !ok ==> SameOwners(old(Books()), Books())
      ensures !ok ==> Exhausted(old(Books()), entries, keys, pool.segmentSize)
    {
      hide Volume, Coalesced, FreeAt, Distinct, Owns, WellKept, Gained, OwnedKept, Stuck, Moved, AllIntact, CopyOf, CopiedOut, Mem, Intact, OwnsAll, SameOwners, TakenInTurn, TookOpen;
      ghost var pre, before := Books(), Mem();
      ghost var books, xs := [pre], [];
      NoneTaken(pre, entries, keys, pool.segmentSize);
      NothingMoved(pre, before);
      KeptAll(pre, before, before);
      ok, moves := true, [];
      for i := 0 to |keys|
        invariant Valid() && registry.closed == old(registry.closed) && registry.ids == old(registry.ids) && pool.segments == old(pool.segments)
        invariant |moves| == i && Copies(entries, keys, moves, minted)
        invariant |xs| == i && TakenInTurn(books, entries, keys, xs, pool.segmentSize)
        invariant |books| == i + 1 && books[0] == pre && books[i] == Books()
        invariant Moved(pre, Books(), moves) && AllIntact(Mem(), moves) && OwnedKept(pre, before, Mem())
      {
        ghost var mid, between := Books(), Mem();
        StillThere(pre, mid, moves, before, between, entries[keys[i]]);
        CopiesOccupy(entries, keys, moves, minted);
        var move;
        ok, move := CopyOut(keys[i], minted + i);
        KeptTwice(pre, mid, moves, before, between, Mem());
        if !ok {
          assert NoWayOut(pre, entries, keys, books, xs, pool.segmentSize);
          hide Copies;
          label stuck:
          RollBack(pre, moves);
          SameMemory@stuck();
          return;
        }
        CopyMade(mid, Books(), Mem(), entries, keys[i], move, minted + i);
        IntactKept(mid, pre, between, Mem(), moves);
        AllIntactMore(Mem(), moves, move);
        CopiesMore(entries, keys, moves, minted, move);
        MovedMore(pre, mid, Books(), moves, move);
        TakenNext(books, entries, keys, xs, pool.segmentSize, Books(), move.entry.extent);
        books, xs := books + [Books()], xs + [move.entry.extent];
        moves := moves + [move];
      }
    }

    /** Give the copies made so far back: who owns what is as before. */
    method RollBack(ghost pre: Books, moves: seq<Move>)
      requires Valid() && Moved(pre, Books(), moves)
      requires WellKept(pre, pool.segmentSize) && pre.ids == registry.ids && forall s :: s in pre.ids ==> UsedOf(pre, s) > 0
      requires forall i :: 0 <= i < |moves| ==> moves[i].entry.Occupies()
      modifies registry
      ensures Valid() && registry.ids == old(registry.ids) && registry.closed == old(registry.closed)
      ensures SameOwners(pre, Books())
    {
      hide Volume, Coalesced, FreeAt, Distinct, Owns, WellKept, Moved, UsedOf, Lost;
      for i := 0 to |moves|
        invariant registry.pool == pool && registry.Valid() && registry.ids == old(registry.ids) && registry.closed == old(registry.closed)
        invariant Moved(pre, Books(), moves[i..])
      {
        ghost var mid := Books();
        var x := moves[i].entry.extent;
        FirstMoveOwned(pre, mid, moves[i..]);
        registry.Release(x.segment, x.offset, x.length);
        MovedLess(pre, mid, Books(), moves[i..]);
        assert moves[i..][1..] == moves[i + 1..];
      }
      UsedWhileMoved(pre, Books(), moves[|moves|..], pool.segmentSize);
      AllGivenBack(pre, Books());
    }

    method Close(target: nat)
      requires Sound() && target in registry.ids && target !in registry.closed
      modifies registry`closed
      ensures Sound() && registry.closed == old(registry.closed) + {target} && SameOwners(old(Books()), Books())
      ensures Mem() == old(Mem())
    {
      hide Volume, Coalesced, FreeAt, Distinct, Owns, OwnsAll, Intact, Mem;
      ghost var b := Books();
      ClosedSameOwners(b, registry.closed + {target});
      registry.closed := registry.closed + {target};
      assert Books() == b.(closed := registry.closed);
      SameMemory();
    }

    method Reopen(target: nat)
      requires Valid()
      modifies registry`closed
      ensures Valid() && registry.closed == old(registry.closed) - {target} && SameOwners(old(Books()), Books())
      ensures Mem() == old(Mem())
    {
      hide Volume, Coalesced, FreeAt, Distinct, Owns, Mem;
      ClosedSameOwners(Books(), registry.closed - {target});
      registry.closed := registry.closed - {target};
      SameMemory();
    }

    /** Close `target` and copy its entries out, or leave everything as it was. */
    method EmptyOut(target: nat, keys: seq<Key>) returns (plan: Plan)
      requires Sound() && target in registry.ids && target !in registry.closed
      requires keys != [] && Lists(keys, Residents(entries, target))
      requires forall k :: k in keys ==> k in entries && entries[k].Occupies()
      modifies this`minted, pool, registry, Sabs()
      ensures Valid() && registry.ids == old(registry.ids) && pool.segments == old(pool.segments)
      ensures OwnedKept(old(Books()), old(Mem()), Mem())
      ensures plan.Planned? ==>
        && plan.target == target
        && registry.closed == old(registry.closed) + {target}
        && minted == old(minted) + |plan.moves|
        && Relocated(old(Books()), Books(), Mem(), entries, plan, old(minted))
      ensures plan.NoPlan? ==>
        SameOwners(old(Books()), Books()) && registry.closed == old(registry.closed) && minted == old(minted)
      ensures plan.NoPlan? ==> CannotEmpty(old(Books()), entries, target, pool.segmentSize)
    {
      hide Volume, Coalesced, FreeAt, Distinct, Owns, WellKept, Moved, OwnedKept, AllIntact, Mem, Intact, OwnsAll, SameOwners, Lists, Residents, Copies, Exhausted, SegmentRegistry.Valid;
      ghost var pre, before := Books(), Mem();
      Close(target);
      ghost var shut := Books();
      assert shut == pre.(closed := pre.closed + {target});
      var ok, moves := CopyAll(keys);
      KeptBefore(pre, pre.closed + {target}, before, Mem());
      if !ok {
        ghost var back := Books();
        Reopen(target);
        OwnersTwice(pre, shut, back);
        OwnersTwice(pre, back, Books());
        return NoPlan;
      }
      SeenBefore(pre, shut.closed, Books(), moves);
      KeysOfCopies(entries, keys, moves, minted);
      label copied:
      minted := minted + |moves|;
      SameMemory@copied();
      plan := Planned(target, moves);
    }

    /** Empty out `target`, if anything published lives there. */
    method Vacate(target: nat) returns (plan: Plan)
      requires Sound() && target in registry.ids && target !in registry.closed && target > 0
      modifies this`minted, pool, registry, Sabs()
      ensures Valid() && registry.ids == old(registry.ids) && pool.segments == old(pool.segments)
      ensures OwnedKept(old(Books()), old(Mem()), Mem())
      ensures plan.Planned? ==>
        && plan.target == target
        && registry.closed == old(registry.closed) + {target}
        && minted == old(minted) + |plan.moves|
        && Relocated(old(Books()), Books(), Mem(), entries, plan, old(minted))
      ensures plan.NoPlan? ==>
        SameOwners(old(Books()), Books()) && registry.closed == old(registry.closed) && minted == old(minted)
      ensures plan.NoPlan? ==> CannotEmpty(old(Books()), entries, target, pool.segmentSize)
    {
      hide Volume, Coalesced, FreeAt, Distinct, Owns, WellKept, OwnedKept, Mem, Intact, OwnsAll, SameOwners, Lists, Residents, Relocated, CannotEmpty;
      NothingChanged(Books(), Mem());
      var keys := ResidentKeys(target);
      ResidentsOccupy(entries, keys, target);
      if keys == [] {
        return NoPlan;
      }
      plan := EmptyOut(target, keys);
    }

    /**
     * Either a plan that covers all residents of one open segment of least utilisation, each with
     * an owned and intact duplicate elsewhere, that segment being closed now; or no plan, with
     * owners, index and closed set untouched. The pool has the same segments in both cases.
     */
    method Compact(threshold: real) returns (plan: Plan)
      requires Sound()
      modifies this`minted, pool, registry, Sabs()
      ensures Valid() && registry.ids == old(registry.ids) && pool.segments == old(pool.segments)
      ensures OwnedKept(old(Books()), old(Mem()), Mem())
      ensures plan.Planned? ==>
        && plan.target > 0 && pool.segmentSize > 0
        && Target(old(Books()), pool.segmentSize, threshold, plan.target)
        && registry.closed == old(registry.closed) + {plan.target}
        && minted == old(minted) + |plan.moves|
        && Relocated(old(Books()), Books(), Mem(), entries, plan, old(minted))
      ensures plan.NoPlan? ==>
        SameOwners(old(Books()), Books()) && registry.closed == old(registry.closed) && minted == old(minted)
      ensures plan.NoPlan? ==> NothingToMove(old(Books()), entries, pool.segmentSize, threshold)
    {
      hide Volume, Coalesced, FreeAt, Distinct, Owns, WellKept, OwnedKept, Target, Mem, Intact, OwnsAll, SameOwners, Lists, Residents, Relocated, CannotEmpty, NothingToMove;
      NothingChanged(Books(), Mem());
      NoTarget(Books(), entries, pool.segmentSize, threshold);
      if threshold == 0.0 {
        return NoPlan;
      }
      var found, target := LeastUtilised(threshold);
      if !found {
        return NoPlan;
      }
      NoWayForTarget(Books(), entries, pool.segmentSize, threshold, target);
      plan := Vacate(target);
    }

    lemma ReadsBytes(e: Entry)
      requires pool.Valid() && e.Shared? && e.WellFormed() && Intact(Mem(), e) && e.extent.segment in pool.segments
      requires e.extent.offset + e.extent.length <= pool.segmentSize
      ensures pool.segments[e.extent.segment][e.extent.offset..e.extent.offset + e.extent.length] == e.bytes
    {
      var sab := pool.segments[e.extent.segment];
      forall i | 0 <= i < e.extent.length ensures sab[e.extent.offset + i] == e.bytes[i] {
        assert Mem()[Addr(e.extent.segment, e.extent.offset + i)] == e.bytes[i];
      }
    }

    /** As segments are added, the bytes of the others are what they were. */
    twostate lemma MemoryGrew()
      requires PoolGrew(old(pool.segments), pool.segments)
      requires forall id :: id in old(pool.segments) ==> unchanged(old(pool.segments[id]))
      ensures forall a :: a in old(Mem()) ==> a in Mem() && Mem()[a] == old(Mem())[a]
    {
    }

    twostate lemma SameMemory()
      requires pool.segments == old(pool.segments)
      requires forall id :: id in old(pool.segments) ==> unchanged(old(pool.segments[id]))
      ensures Mem() == old(Mem())
    {
    }

    /** No address leaves the pool. */
    twostate lemma MemoryKeys()
      requires PoolGrew(old(pool.segments), pool.segments)
      ensures old(Mem()).Keys <= Mem().Keys
    {
    }

    lemma NoMemory()
      requires pool.segments == map[]
      ensures Mem() == map[]
    {
    }

    lemma ExtentInMemory(x: Extent)
      requires x.segment in pool.segments && x.offset + x.length <= pool.segments[x.segment].Length
      ensures forall a :: Covers(x, a) ==> a in Mem()
    {
    }
  }
}
