/** The segment pool and the extent bookkeeping of its registered segments. */
module Registry {
  import opened Layout
  import opened Extents

  ghost predicate Distinct(s: seq<nat>) {
    forall i, j :: 0 <= i < j < |s| ==> s[i] != s[j]
  }

  /** The registered segments in registration order, with their free lists and tails. */
  datatype Books = Books(ids: seq<nat>, free: map<nat, seq<Span>>, tail: map<nat, nat>, closed: set<nat>)

  ghost predicate WellKept(b: Books, size: nat) {
    && Distinct(b.ids)
    && (forall s :: s in b.tail <==> s in b.ids)
    && (forall s :: s in b.free <==> s in b.ids)
    && (forall s :: s in b.closed ==> s in b.ids)
    && (forall s :: s in b.ids ==> 0 < b.tail[s] <= size && Coalesced(b.free[s], b.tail[s]))
  }

  /** A byte is owned when it lies in the used prefix of its segment and in no free extent. */
  ghost predicate Owns(b: Books, a: Addr) {
    && a.segment in b.tail && a.segment in b.free
    && a.offset < b.tail[a.segment]
    && !FreeAt(b.free[a.segment], a.offset)
  }

  ghost predicate Gained(pre: Books, post: Books, x: Extent) {
    && (forall a :: Covers(x, a) ==> !Owns(pre, a))
    && (forall a :: Owns(post, a) <==> Owns(pre, a) || Covers(x, a))
  }

  ghost predicate Lost(pre: Books, post: Books, x: Extent) {
    forall a :: Owns(post, a) <==> Owns(pre, a) && !Covers(x, a)
  }

  predicate Open(b: Books, s: nat) {
    s in b.ids && s !in b.closed
  }

  /** Free extent `i` of open segment `s` can take `size` bytes. */
  predicate FitsAt(b: Books, s: nat, i: int, size: nat) {
    Open(b, s) && s in b.free && 0 <= i < |b.free[s]| && b.free[s][i].length >= size
  }

  /** Span `i` of `s` is a shortest free extent that fits in any open segment. */
  ghost predicate BestFit(b: Books, s: nat, i: int, size: nat) {
    && FitsAt(b, s, i, size)
    && forall t, j :: FitsAt(b, t, j, size) ==> b.free[s][i].length <= b.free[t][j].length
  }

  ghost predicate NoExtentFits(b: Books, size: nat) {
    forall s, i :: !FitsAt(b, s, i, size)
  }

  ghost predicate NoTailFits(b: Books, size: nat, segmentSize: nat)
    requires forall s :: s in b.tail <==> s in b.ids
  {
    forall s :: Open(b, s) ==> b.tail[s] + size > segmentSize
  }

  datatype Allocation = InvalidSize | Full | At(segment: nat, offset: nat)

  /** All that an allocation depends on: the books, the empty segments, and how many segments there are. */
  datatype Room = Room(books: Books, empty: seq<nat>, segments: nat, segmentSize: nat, limit: nat)

  /** No open extent and no open tail takes `size` bytes, and there is no segment to open; or none could. */
  ghost predicate CannotHold(room: Room, size: nat) {
    || size > room.segmentSize
    || (&& (forall s :: s in room.books.tail <==> s in room.books.ids)
        && NoExtentFits(room.books, size)
        && NoTailFits(room.books, size, room.segmentSize)
        && room.empty == [] && Volume(room.segments + 1, room.segmentSize) > room.limit)
  }

  /** Extent `x` is the start of a shortest free extent that takes it. */
  ghost predicate FromExtent(pre: Room, post: Room, x: Extent) {
    exists i :: BestFit(pre.books, x.segment, i, x.length)
      && x.offset == pre.books.free[x.segment][i].offset
      && post == pre.(books := pre.books.(free := pre.books.free[x.segment := Taken(pre.books.free[x.segment], i, x.length)]))
  }

  /** No free extent takes `x`, and it begins at the tail of the first open segment that does. */
  ghost predicate FromTail(pre: Room, post: Room, x: Extent) {
    && NoExtentFits(pre.books, x.length)
    && Open(pre.books, x.segment) && x.segment in pre.books.tail && x.offset == pre.books.tail[x.segment]
    && FirstOpenTail(pre.books, x.segment, x.length, pre.segmentSize)
    && post == pre.(books := pre.books.(tail := pre.books.tail[x.segment := x.offset + x.length]))
  }

  ghost predicate FirstOpenTail(b: Books, s: nat, size: nat, segmentSize: nat) {
    exists p :: 0 <= p < |b.ids| && b.ids[p] == s
      && forall q :: 0 <= q < p && Open(b, b.ids[q]) && b.ids[q] in b.tail ==> b.tail[b.ids[q]] + size > segmentSize
  }

  /** The first `size` bytes of the oldest empty segment, or else of a new one within the limit, are taken. */
  ghost predicate Opened(pre: Room, post: Room, s: nat, size: nat) {
    && s !in pre.books.ids
    && post.books == Books(pre.books.ids + [s], pre.books.free[s := []], pre.books.tail[s := size], pre.books.closed)
    && post.segmentSize == pre.segmentSize && post.limit == pre.limit
    && (if pre.empty != [] then s == pre.empty[0] && post.empty == pre.empty[1..] && post.segments == pre.segments
        else post.empty == [] && post.segments == pre.segments + 1 && Volume(post.segments, pre.segmentSize) <= pre.limit)
  }

  /** Nothing open takes `x`, and it begins a segment opened for it. */
  ghost predicate FromSegment(pre: Room, post: Room, x: Extent) {
    && NoExtentFits(pre.books, x.length)
    && (forall s :: s in pre.books.tail <==> s in pre.books.ids) && NoTailFits(pre.books, x.length, pre.segmentSize)
    && x.offset == 0 && Opened(pre, post, x.segment, x.length)
  }

  /** One allocation: extent `x` was handed out, and the room is what that leaves of it. */
  ghost predicate Took(pre: Room, post: Room, x: Extent) {
    && 0 < x.length && x.offset + x.length <= pre.segmentSize
    && (FromExtent(pre, post, x) || FromTail(pre, post, x) || FromSegment(pre, post, x))
  }

  lemma TookExtent(room: Room, s: nat, i: int, size: nat)
    requires BestFit(room.books, s, i, size) && size > 0 && room.books.free[s][i].offset + size <= room.segmentSize
    ensures var f := room.books.free[s];
      Took(room, room.(books := room.books.(free := room.books.free[s := Taken(f, i, size)])), Extent(s, f[i].offset, size))
  {
    hide BestFit, Taken;
  }

  lemma TookTail(room: Room, s: nat, size: nat)
    requires NoExtentFits(room.books, size) && FirstOpenTail(room.books, s, size, room.segmentSize) && Open(room.books, s)
    requires size > 0 && s in room.books.tail && room.books.tail[s] + size <= room.segmentSize
    ensures var at := room.books.tail[s];
      Took(room, room.(books := room.books.(tail := room.books.tail[s := at + size])), Extent(s, at, size))
  {
    hide NoExtentFits, FirstOpenTail;
  }

  lemma TookSegment(pre: Room, post: Room, s: nat, size: nat)
    requires (forall s :: s in pre.books.tail <==> s in pre.books.ids)
    requires NoExtentFits(pre.books, size) && NoTailFits(pre.books, size, pre.segmentSize)
    requires 0 < size <= pre.segmentSize && Opened(pre, post, s, size)
    ensures Took(pre, post, Extent(s, 0, size))
  {
    hide NoExtentFits, NoTailFits, Opened;
  }

  lemma HasNone(room: Room, size: nat)
    requires (forall s :: s in room.books.tail <==> s in room.books.ids)
    requires NoExtentFits(room.books, size) && NoTailFits(room.books, size, room.segmentSize)
    requires room.empty == [] && Volume(room.segments + 1, room.segmentSize) > room.limit
    ensures CannotHold(room, size)
  {
    hide NoExtentFits, NoTailFits, Volume;
  }

  lemma TooLong(room: Room, size: nat)
    ensures size > room.segmentSize ==> CannotHold(room, size)
  {
  }

  /** What was handed out could be held. */
  lemma TookHeld(pre: Room, post: Room, x: Extent)
    requires Took(pre, post, x)
    ensures !CannotHold(pre, x.length)
  {
    hide Taken, Volume;
  }

  /** The bytes of `n` segments. */
  function Volume(n: nat, size: nat): nat {
    n * size
  }

  class Pool {
    const limit: nat
    const segmentSize: nat
    var segments: map<nat, array<byte>>
    var emptySegmentIds: seq<nat>  // fully freed segments, oldest first
    var totalUsed: nat
    var nextSegmentId: nat

    ghost predicate Valid()
      reads this
    {
      && 0 < segmentSize
      && 1 <= nextSegmentId
      && totalUsed == Volume(|segments|, segmentSize) <= limit
      && Distinct(emptySegmentIds)
      && (forall i :: 0 <= i < |emptySegmentIds| ==> emptySegmentIds[i] in segments)
      && (forall id :: id in segments ==> 1 <= id < nextSegmentId && segments[id].Length == segmentSize)
      && (forall i, j :: i in segments && j in segments && i != j ==> segments[i] != segments[j])
    }

    constructor (limit: nat, segmentSize: nat)
      requires 0 < segmentSize
      ensures Valid() && this.limit == limit && this.segmentSize == segmentSize
      ensures segments == map[] && emptySegmentIds == []
    {
      this.limit, this.segmentSize := limit, segmentSize;
      segments, emptySegmentIds, totalUsed, nextSegmentId := map[], [], 0, 1;
    }

    /** The oldest empty segment, else a new one within the limit, else none. */
    method CreateSegment() returns (ok: bool, id: nat)
      requires Valid()
      modifies this
      ensures Valid()
      ensures ok <==> old(emptySegmentIds) != [] || old(totalUsed) + segmentSize <= limit
      ensures !ok ==> segments == old(segments) && emptySegmentIds == old(emptySegmentIds)
      ensures ok <==> old(emptySegmentIds) != [] || Volume(|old(segments)| + 1, segmentSize) <= limit
      ensures |segments| == |old(segments)| + if ok && old(emptySegmentIds) == [] then 1 else 0
      ensures ok && old(emptySegmentIds) != [] ==>
        id == old(emptySegmentIds)[0] && emptySegmentIds == old(emptySegmentIds)[1..] && segments == old(segments)
      ensures ok && old(emptySegmentIds) == [] ==>
        id == old(nextSegmentId) && nextSegmentId == id + 1 && id !in old(segments) && id in segments && fresh(segments[id]) && segments == old(segments)[id := segments[id]] && emptySegmentIds == []
      ensures ok ==> id in segments && (id in old(segments) ==> id in old(emptySegmentIds))
      ensures ok ==> forall s :: s in emptySegmentIds <==> s in old(emptySegmentIds) && s != id
      ensures PoolGrew(old(segments), segments)
      ensures forall s :: s in segments && s !in old(segments) ==> fresh(segments[s])
    {
      assert Volume(|segments| + 1, segmentSize) == Volume(|segments|, segmentSize) + segmentSize;
      if emptySegmentIds != [] {
        ok, id := true, emptySegmentIds[0];
        assert emptySegmentIds == [id] + emptySegmentIds[1..];
        emptySegmentIds := emptySegmentIds[1..];
        return;
      }
      if totalUsed + segmentSize > limit {
        return false, 0;
      }
      ok, id := true, nextSegmentId;
      nextSegmentId := nextSegmentId + 1;
      var sab := new byte[segmentSize](_ => 0);
      hide Volume;
      segments := segments[id := sab];
      totalUsed := totalUsed + segmentSize;
    }

    /** Keep a fully freed segment for reuse. */
    method FreeSegment(id: nat)
      requires Valid() && id !in emptySegmentIds
      modifies this
      ensures Valid() && segments == old(segments)
      ensures emptySegmentIds == if id in segments then old(emptySegmentIds) + [id] else old(emptySegmentIds)
    {
      if id in segments {
        emptySegmentIds := emptySegmentIds + [id];
      }
    }
  }

  class SegmentRegistry {
    const pool: Pool
    var ids: seq<nat>
    var free: map<nat, seq<Span>>
    var tail: map<nat, nat>
    var closed: set<nat>  // being emptied by compaction: no new allocation lands there

    ghost function View(): Books
      reads this
    {
      Books(ids, free, tail, closed)
    }

    ghost function Space(): Room
      reads this, pool
    {
      Room(View(), pool.emptySegmentIds, |pool.segments|, pool.segmentSize, pool.limit)
    }

    /** Registered and empty segments partition the pool. */
    ghost predicate Valid()
      reads this, pool
    {
      && pool.Valid()
      && WellKept(View(), pool.segmentSize)
      && (forall id :: id in pool.segments <==> id in ids || id in pool.emptySegmentIds)
      && (forall id :: id in ids ==> id !in pool.emptySegmentIds)
    }

    constructor (pool: Pool)
      requires pool.Valid() && pool.segments == map[]
      ensures Valid() && this.pool == pool && View() == Books([], map[], map[], {})
    {
      this.pool := pool;
      ids, free, tail, closed := [], map[], map[], {};
    }

    /** The shortest free extent of an open segment that takes `size` bytes. */
    method BestExtent(size: nat) returns (found: bool, segment: nat, index: nat)
      requires Valid()
      ensures found ==> BestFit(View(), segment, index, size)
      ensures !found ==> NoExtentFits(View(), size)
    {
      Kept(View(), pool.segmentSize);
      hide WellKept, Pool.Valid, SegmentRegistry.Valid;
      found, segment, index := false, 0, 0;
      for p := 0 to |ids|
        invariant found ==> FitsAt(View(), segment, index, size)
        invariant forall q, j :: 0 <= q < p && FitsAt(View(), ids[q], j, size) ==>
          found && free[segment][index].length <= free[ids[q]][j].length
      {
        var s := ids[p];
        if s in closed {
          continue;
        }
        var extents := free[s];
        for i := 0 to |extents|
          invariant found ==> FitsAt(View(), segment, index, size)
          invariant forall q, j :: 0 <= q < p && FitsAt(View(), ids[q], j, size) ==>
            found && free[segment][index].length <= free[ids[q]][j].length
          invariant forall j :: 0 <= j < i && FitsAt(View(), s, j, size) ==>
            found && free[segment][index].length <= extents[j].length
        {
          if extents[i].length < size {
            continue;
          }
          if !found || extents[i].length < free[segment][index].length {
            found, segment, index := true, s, i;
          }
        }
      }
    }

    /** The first open segment whose unused rest takes `size` bytes. */
    method FirstTail(size: nat) returns (found: bool, segment: nat)
      requires Valid()
      ensures found ==> Open(View(), segment) && tail[segment] + size <= pool.segmentSize
      ensures found ==> FirstOpenTail(View(), segment, size, pool.segmentSize)
      ensures !found ==> NoTailFits(View(), size, pool.segmentSize)
    {
      found, segment := false, 0;
      for p := 0 to |ids|
        invariant forall q :: 0 <= q < p && Open(View(), ids[q]) ==> tail[ids[q]] + size > pool.segmentSize
      {
        if ids[p] in closed {
          continue;
        }
        if tail[ids[p]] + size <= pool.segmentSize {
          return true, ids[p];
        }
      }
    }

    /** Register a segment whose first `size` bytes are taken. */
    method Register(id: nat, size: nat)
      requires WellKept(View(), pool.segmentSize) && id !in ids && 0 < size <= pool.segmentSize
      modifies this
      ensures WellKept(View(), pool.segmentSize) && ids == old(ids) + [id] && closed == old(closed)
      ensures free == old(free)[id := []] && tail == old(tail)[id := size]
      ensures Gained(old(View()), View(), Extent(id, 0, size))
    {
      hide Gained, Coalesced;
      StartSegment(View(), pool.segmentSize, id, size);
      hide WellKept;
      ids := ids + [id];
      free := free[id := []];
      tail := tail[id := size];
    }

    /** The first `size` bytes of an empty or new segment. */
    method Grow(size: nat) returns (r: Allocation)
      requires Valid() && 0 < size <= pool.segmentSize
      requires NoExtentFits(View(), size) && NoTailFits(View(), size, pool.segmentSize)
      modifies this, pool
      ensures Valid() && closed == old(closed) && (r.At? || r.Full?)
      ensures r.Full? <==> old(pool.emptySegmentIds) == [] && old(pool.totalUsed) + pool.segmentSize > pool.limit
      ensures r.Full? ==> View() == old(View()) && pool.segments == old(pool.segments) && pool.emptySegmentIds == old(pool.emptySegmentIds)
      ensures r.Full? ==> CannotHold(old(Space()), size)
      ensures r.At? ==> HandedOut(old(View()), View(), r, size, pool.segmentSize) && r.segment in pool.segments
      ensures r.At? ==> Took(old(Space()), Space(), Extent(r.segment, r.offset, size))
      ensures PoolGrew(old(pool.segments), pool.segments)
      ensures forall id :: id in pool.segments && id !in old(pool.segments) ==> fresh(pool.segments[id])
    {
      Kept(View(), pool.segmentSize);
      hide Volume, Gained, Owns, Coalesced, FreeAt, PoolGrew, WellKept, Distinct, Pool.Valid, HandedOut, NoExtentFits, NoTailFits, Took, CannotHold;
      ghost var room := Space();
      var ok, id := pool.CreateSegment();
      r := Full;
      if ok {
        r := Start(id, size);
        TookSegment(room, Space(), id, size);
      } else {
        HasNone(room, size);
      }
    }

    /** Open a segment of the pool that is neither registered nor waiting, and take its first bytes. */
    method Start(id: nat, size: nat) returns (r: Allocation)
      requires pool.Valid() && WellKept(View(), pool.segmentSize) && 0 < size <= pool.segmentSize
      requires id in pool.segments && id !in ids && id !in closed && id !in pool.emptySegmentIds
      requires forall s :: s in pool.segments <==> s in ids || s in pool.emptySegmentIds || s == id
      requires forall s :: s in ids ==> s !in pool.emptySegmentIds
      modifies this
      ensures Valid() && closed == old(closed) && r == At(id, 0)
      ensures View() == Books(old(ids) + [id], old(free)[id := []], old(tail)[id := size], closed)
      ensures HandedOut(old(View()), View(), r, size, pool.segmentSize)
    {
      hide Volume, Gained, Owns, Coalesced, FreeAt, WellKept, Distinct, Pool.Valid;
      Register(id, size);
      r := At(id, 0);
    }

    method TakeBest(size: nat, s: nat, i: nat) returns (r: Allocation)
      requires Valid() && size > 0 && BestFit(View(), s, i, size)
      modifies this
      ensures Valid() && ids == old(ids) && tail == old(tail) && closed == old(closed)
      ensures Took(old(Space()), Space(), Extent(s, old(free)[s][i].offset, size))
      ensures r.At? && HandedOut(old(View()), View(), r, size, pool.segmentSize)
      ensures r.segment == s && r.offset == old(free)[s][i].offset && s in pool.segments
    {
      hide Volume, Gained, Owns, Coalesced, FreeAt, Distinct;
      TakeExtent(View(), pool.segmentSize, s, i, size);
      TookExtent(Space(), s, i, size);
      r := At(s, free[s][i].offset);
      hide WellKept;
      free := free[s := Taken(free[s], i, size)];
    }

    method TakeTail(size: nat, s: nat) returns (r: Allocation)
      requires Valid() && size > 0 && Open(View(), s) && tail[s] + size <= pool.segmentSize
      requires NoExtentFits(View(), size) && FirstOpenTail(View(), s, size, pool.segmentSize)
      modifies this`tail
      ensures Valid() && ids == old(ids) && free == old(free) && closed == old(closed)
      ensures Took(old(Space()), Space(), Extent(s, old(tail)[s], size))
      ensures r.At? && HandedOut(old(View()), View(), r, size, pool.segmentSize)
      ensures r.segment == s && r.offset == old(tail)[s]
    {
      hide Volume, Gained, Owns, Coalesced, FreeAt, Distinct, WellKept, Pool.Valid, HandedOut, NoExtentFits, FirstOpenTail, Took;
      TailTaken(View(), pool.segmentSize, s, size);
      GrowTail(View(), pool.segmentSize, s, size);
      TookTail(Space(), s, size);
      r := At(s, tail[s]);
      tail := tail[s := tail[s] + size];
    }

    /**
     * Three sources in this order: `BestExtent`, `FirstTail`, `Grow`; the last only with `noGrow`
     * unset. What it hands out had no owner and has one now; a refusal says that none of them fits.
     */
    method Allocate(size: nat, noGrow: bool) returns (r: Allocation)
      requires Valid()
      modifies this, pool
      ensures Valid() && closed == old(closed)
      ensures r.InvalidSize? <==> size == 0
      ensures !r.At? ==> View() == old(View()) && pool.segments == old(pool.segments) && pool.emptySegmentIds == old(pool.emptySegmentIds)
      ensures r.Full? && size <= pool.segmentSize ==>
        && NoExtentFits(old(View()), size) && NoTailFits(old(View()), size, pool.segmentSize)
        && (noGrow || (old(pool.emptySegmentIds) == [] && old(pool.totalUsed) + pool.segmentSize > pool.limit))
      ensures !noGrow ==> (r.Full? <==> size > 0 && CannotHold(old(Space()), size))
      ensures r.At? ==> Took(old(Space()), Space(), Extent(r.segment, r.offset, size))
      ensures r.At? ==> HandedOut(old(View()), View(), r, size, pool.segmentSize) && r.segment in pool.segments
      ensures noGrow ==> ids == old(ids) && pool.segments == old(pool.segments) && pool.emptySegmentIds == old(pool.emptySegmentIds)
      ensures PoolGrew(old(pool.segments), pool.segments)
      ensures forall id :: id in pool.segments && id !in old(pool.segments) ==> fresh(pool.segments[id])
    {
      hide Volume, HandedOut, Coalesced, FreeAt, Distinct, Took, CannotHold, WellKept, Pool.Valid, NoExtentFits, NoTailFits;
      if size == 0 {
        return InvalidSize;
      }
      ghost var room := Space();
      TooLong(room, size);
      if size > pool.segmentSize {
        return Full;
      }
      r := Fit(size, noGrow);
      if r.At? {
        TookHeld(room, Space(), Extent(r.segment, r.offset, size));
      }
    }

    /** A size that a segment can take, from an extent, a tail or, unless `noGrow`, another segment. */
    method Fit(size: nat, noGrow: bool) returns (r: Allocation)
      requires Valid() && 0 < size <= pool.segmentSize
      modifies this, pool
      ensures Valid() && closed == old(closed) && !r.InvalidSize?
      ensures r.Full? ==> View() == old(View()) && pool.segments == old(pool.segments) && pool.emptySegmentIds == old(pool.emptySegmentIds)
      ensures r.Full? ==>
        && NoExtentFits(old(View()), size) && NoTailFits(old(View()), size, pool.segmentSize)
        && (noGrow || (old(pool.emptySegmentIds) == [] && old(pool.totalUsed) + pool.segmentSize > pool.limit))
      ensures r.Full? && !noGrow ==> CannotHold(old(Space()), size)
      ensures r.At? ==> Took(old(Space()), Space(), Extent(r.segment, r.offset, size))
      ensures r.At? ==> HandedOut(old(View()), View(), r, size, pool.segmentSize) && r.segment in pool.segments
      ensures noGrow ==> ids == old(ids) && pool.segments == old(pool.segments) && pool.emptySegmentIds == old(pool.emptySegmentIds)
      ensures PoolGrew(old(pool.segments), pool.segments)
      ensures forall id :: id in pool.segments && id !in old(pool.segments) ==> fresh(pool.segments[id])
    {
      hide Volume, HandedOut, Coalesced, FreeAt, Distinct, Took, CannotHold, FirstOpenTail, NoExtentFits, NoTailFits, BestFit;
      var found, s, i := BestExtent(size);
      if found {
        r := TakeBest(size, s, i);
        return;
      }
      found, s := FirstTail(size);
      if found {
        r := TakeTail(size, s);
        return;
      }
      if noGrow {
        return Full;
      }
      r := Grow(size);
    }

    /** Join the span at `index` with the neighbours it touches. */
    static method MergeSiblings(extents: seq<Span>, index: nat, ghost tail: nat) returns (merged: seq<Span>)
      requires index < |extents| && Sorted(extents, tail, index)
      ensures Coalesced(merged, tail)
      ensures forall b :: FreeAt(merged, b) <==> FreeAt(extents, b)
    {
      hide FreeAt, Merged, Sorted, Coalesced;
      merged := MergeNext(extents, index, tail);
      if index >= 1 && merged[index - 1].End() == merged[index].offset {
        MergedKeeps(merged, tail, index - 1, index);
        merged := Merged(merged, index - 1);
      }
    }

    /** Merge span `index` with the next one if they touch; then only the span before may touch it. */
    static method MergeNext(extents: seq<Span>, index: nat, ghost tail: nat) returns (merged: seq<Span>)
      requires index < |extents| && Sorted(extents, tail, index)
      ensures index < |merged| && Sorted(merged, tail, index) && (index + 1 < |merged| ==> merged[index].End() < merged[index + 1].offset)
      ensures index == 0 || merged[index - 1].End() != merged[index].offset ==> Coalesced(merged, tail)
      ensures forall b :: FreeAt(merged, b) <==> FreeAt(extents, b)
    {
      hide FreeAt, Merged;
      merged := extents;
      if index + 1 < |merged| && merged[index].End() == merged[index + 1].offset {
        MergedKeeps(merged, tail, index, index);
        merged := Merged(merged, index);
        MergedShape(extents, index);
      }
    }

    /** `Lost` for the bytes of the span, or the identity where the segment is unknown. */
    method Release(segment: nat, offset: nat, length: nat)
      requires Valid() && length > 0
      requires segment in ids ==> forall a :: Covers(Extent(segment, offset, length), a) ==> Owns(View(), a)
      modifies this
      ensures Valid() && ids == old(ids) && tail == old(tail) && closed == old(closed)
      ensures segment in ids ==> Lost(old(View()), View(), Extent(segment, offset, length))
      ensures segment !in ids ==> View() == old(View())
    {
      hide Volume, Distinct, Lost, Owns, FreeAt, Sorted;
      if segment !in free {
        return;
      }
      var span := Span(offset, length);
      OwnedSpan(View(), pool.segmentSize, segment, span);
      var merged := Insert(free[segment], span, tail[segment]);
      GiveBack(View(), pool.segmentSize, segment, span, merged);
      hide WellKept;
      free := free[segment := merged];
    }

    /** The free list with `span` in its sorted place, joined with the neighbours it touches. */
    static method Insert(extents: seq<Span>, span: Span, ghost tail: nat) returns (merged: seq<Span>)
      requires Coalesced(extents, tail) && span.length > 0 && span.End() <= tail
      requires forall b :: span.offset <= b < span.End() ==> !FreeAt(extents, b)
      ensures Coalesced(merged, tail)
      ensures forall b :: FreeAt(merged, b) <==> FreeAt(extents, b) || span.offset <= b < span.End()
    {
      hide FreeAt, Inserted;
      var index := 0;
      while index < |extents| && extents[index].offset <= span.offset
        invariant index <= |extents| && forall j :: 0 <= j < index ==> extents[j].offset <= span.offset
      {
        index := index + 1;
      }
      AllAfter(extents, tail, index, span.offset);
      InsertedKeeps(extents, tail, index, span);
      InsertedLength(extents, index, span);
      merged := MergeSiblings(Inserted(extents, index, span), index, tail);
    }

    /** Bytes of the segment that are not free. */
    method Used(segment: nat) returns (used: nat)
      requires Valid()
      ensures used == UsedOf(View(), segment)
    {
      if segment !in tail || tail[segment] == 0 {
        return 0;
      }
      var free', i := 0, 0;
      while i < |free[segment]|
        invariant i <= |free[segment]| && free' + Total(free[segment][i..]) == Total(free[segment])
      {
        free' := free' + free[segment][i].length;
        assert free[segment][i..][1..] == free[segment][i + 1..];
        i := i + 1;
      }
      UsedCountsOwned(free[segment], tail[segment]);
      used := tail[segment] - free';
    }

    /** Take the segment off the books; its bytes are all free. */
    method Unregister(segment: nat)
      requires segment in ids && Distinct(ids) && WellKept(View(), pool.segmentSize)
      modifies this
      ensures ids == Unlisted(old(ids), segment)
      ensures free == old(free) - {segment} && tail == old(tail) - {segment} && closed == old(closed) - {segment}
    {
      ids := Unlisted(ids, segment);
      free := free - {segment};
      tail := tail - {segment};
      closed := closed - {segment};
    }
  }

  /** Nobody owned the extent handed out; it lies in an open segment and is owned now. */
  ghost predicate HandedOut(pre: Books, post: Books, r: Allocation, size: nat, segmentSize: nat)
    requires r.At?
  {
    && r.offset + size <= segmentSize
    && Open(post, r.segment)
    && (post.ids == pre.ids || post.ids == pre.ids + [r.segment])
    && Gained(pre, post, Extent(r.segment, r.offset, size))
  }

  /** Segments are added, never replaced or returned. */
  ghost predicate PoolGrew(before: map<nat, array<byte>>, after: map<nat, array<byte>>) {
    forall id :: id in before ==> id in after && after[id] == before[id]
  }

  // --- What one allocation does to the books ---

  /** Every registered segment has its lists, and only registered ones are closed. */
  lemma Kept(b: Books, size: nat)
    requires WellKept(b, size)
    ensures forall s :: s in b.ids <==> s in b.tail
    ensures forall s :: s in b.ids <==> s in b.free
    ensures forall s :: s in b.closed ==> s in b.ids
  {
    hide Coalesced;
  }

  lemma TakeExtent(b: Books, segmentSize: nat, s: nat, i: nat, size: nat)
    requires WellKept(b, segmentSize) && FitsAt(b, s, i, size) && size > 0
    ensures var after := b.(free := b.free[s := Taken(b.free[s], i, size)]);
      && WellKept(after, segmentSize)
      && Gained(b, after, Extent(s, b.free[s][i].offset, size))
    ensures b.free[s][i].offset + size <= segmentSize
  {
    TakenKeeps(b.free[s], b.tail[s], i, size);
    InsideSpan(b.free[s], b.tail[s], i, size);
    hide FreeAt, Taken, Coalesced, Distinct;
    TakenGained(b, s, Taken(b.free[s], i, size), b.free[s][i].offset, size);
    hide Gained;
  }

  /** The first bytes of a free span are free, and lie below the tail. */
  lemma InsideSpan(f: seq<Span>, tail: nat, i: nat, size: nat)
    requires Coalesced(f, tail) && i < |f| && size <= f[i].length
    ensures f[i].offset + size <= tail
    ensures forall o :: f[i].offset <= o < f[i].offset + size ==> FreeAt(f, o)
  {
  }

  lemma TakenGained(b: Books, s: nat, after: seq<Span>, offset: nat, size: nat)
    requires s in b.free && s in b.tail && offset + size <= b.tail[s]
    requires forall o :: offset <= o < offset + size ==> FreeAt(b.free[s], o)
    requires forall o: int :: FreeAt(after, o) <==> FreeAt(b.free[s], o) && !(offset <= o < offset + size)
    ensures Gained(b, b.(free := b.free[s := after]), Extent(s, offset, size))
  {
    hide FreeAt;
  }

  lemma GrowTail(b: Books, segmentSize: nat, s: nat, size: nat)
    requires WellKept(b, segmentSize) && s in b.ids && b.tail[s] + size <= segmentSize && size > 0
    ensures var after := b.(tail := b.tail[s := b.tail[s] + size]);
      && WellKept(after, segmentSize)
      && Gained(b, after, Extent(s, b.tail[s], size))
  {
  }

  /** The tail of an open segment is handed out. */
  lemma TailTaken(b: Books, segmentSize: nat, s: nat, size: nat)
    requires WellKept(b, segmentSize) && Open(b, s) && b.tail[s] + size <= segmentSize && size > 0
    ensures s in b.tail
    ensures HandedOut(b, b.(tail := b.tail[s := b.tail[s] + size]), At(s, b.tail[s]), size, segmentSize)
  {
    GrowTail(b, segmentSize, s, size);
    hide Gained, WellKept;
  }

  lemma StartSegment(b: Books, segmentSize: nat, id: nat, size: nat)
    requires WellKept(b, segmentSize) && id !in b.ids && 0 < size <= segmentSize
    ensures var after := Books(b.ids + [id], b.free[id := []], b.tail[id := size], b.closed);
      && WellKept(after, segmentSize)
      && Gained(b, after, Extent(id, 0, size))
  {
  }

  // --- What one release does to the books ---

  lemma MergedShape(f: seq<Span>, i: nat)
    requires i + 1 < |f|
    ensures |Merged(f, i)| == |f| - 1 && Merged(f, i)[i] == Span(f[i].offset, f[i].length + f[i + 1].length)
    ensures i + 1 < |Merged(f, i)| ==> Merged(f, i)[i + 1] == f[i + 2]
  {
  }

  lemma InsertedLength(f: seq<Span>, i: nat, s: Span)
    requires i <= |f|
    ensures |Inserted(f, i, s)| == |f| + 1
  {
  }

  lemma AllAfter(f: seq<Span>, tail: nat, index: nat, offset: nat)
    requires Coalesced(f, tail) && index <= |f| && (index < |f| ==> f[index].offset > offset)
    ensures forall j :: index <= j < |f| ==> f[j].offset > offset
  {
  }

  lemma OwnedSpan(b: Books, size: nat, s: nat, span: Span)
    requires WellKept(b, size) && s in b.ids && span.length > 0
    requires forall a :: Covers(Extent(s, span.offset, span.length), a) ==> Owns(b, a)
    ensures span.End() <= b.tail[s]
    ensures forall o :: span.offset <= o < span.End() ==> !FreeAt(b.free[s], o)
  {
    forall o | span.offset <= o < span.End() ensures o < b.tail[s] && !FreeAt(b.free[s], o) {
      assert Covers(Extent(s, span.offset, span.length), Addr(s, o));
    }
    assert Covers(Extent(s, span.offset, span.length), Addr(s, span.End() - 1));
  }

  lemma GiveBack(b: Books, size: nat, s: nat, span: Span, merged: seq<Span>)
    requires WellKept(b, size) && s in b.ids && Coalesced(merged, b.tail[s])
    requires forall o :: FreeAt(merged, o) <==> FreeAt(b.free[s], o) || span.offset <= o < span.End()
    ensures WellKept(b.(free := b.free[s := merged]), size)
    ensures Lost(b, b.(free := b.free[s := merged]), Extent(s, span.offset, span.length))
  {
    hide FreeAt, Sorted;
  }

  /** The bytes `used` reports for a segment. */
  function UsedOf(b: Books, s: nat): int {
    if s in b.tail && s in b.free then b.tail[s] - Total(b.free[s]) else 0
  }

  function Unlisted(ids: seq<nat>, s: nat): seq<nat> {
    if ids == [] then [] else if ids[0] == s then ids[1..] else [ids[0]] + Unlisted(ids[1..], s)
  }

  lemma RestDistinct(ids: seq<nat>)
    requires Distinct(ids) && ids != []
    ensures Distinct(ids[1..]) && ids[0] !in ids[1..]
    ensures forall t :: t in ids <==> t == ids[0] || t in ids[1..]
  {
  }

  lemma {:induction false} UnlistedIds(ids: seq<nat>, s: nat)
    requires Distinct(ids)
    ensures forall t :: t in Unlisted(ids, s) <==> t in ids && t != s
  {
    if ids != [] {
      RestDistinct(ids);
      hide Distinct;
      UnlistedIds(ids[1..], s);
    }
  }

  lemma {:induction false} UnlistedKeeps(ids: seq<nat>, s: nat)
    requires Distinct(ids)
    ensures Distinct(Unlisted(ids, s))
    ensures forall t :: t in Unlisted(ids, s) <==> t in ids && t != s
  {
    UnlistedIds(ids, s);
    if ids != [] {
      RestDistinct(ids);
      UnlistedKeeps(ids[1..], s);
    }
  }

  /** `used` is the number of owned bytes of the segment, so it is 0 exactly when none is owned. */
  lemma UsedIsOwned(b: Books, size: nat, s: nat)
    requires WellKept(b, size)
    ensures s in b.ids ==> UsedOf(b, s) == |OwnedBytes(b.free[s], b.tail[s])| && forall o: nat :: o in OwnedBytes(b.free[s], b.tail[s]) <==> Owns(b, Addr(s, o))
    ensures UsedOf(b, s) == 0 <==> forall o: nat :: !Owns(b, Addr(s, o))
  {
    if s in b.ids {
      UsedCountsOwned(b.free[s], b.tail[s]);
      if UsedOf(b, s) == 0 {
        forall o: nat ensures !Owns(b, Addr(s, o)) {
          assert o !in OwnedBytes(b.free[s], b.tail[s]);
        }
      } else {
        var o :| o in OwnedBytes(b.free[s], b.tail[s]);
        assert Owns(b, Addr(s, o));
      }
    }
  }
}
