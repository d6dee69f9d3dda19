/** Streams that read a leased version chunk by chunk, in whichever thread opened them. */
module Streams {
  import opened Layout
  import opened Ranges
  import opened Registry
  import opened Ownership
  import opened Cache
  import opened ThreadPins
  import opened Protocol
  import opened Invariant
  import opened Safety
  import opened Upkeep
  import opened Commits
  import opened Kernel
  import opened WorkerThread

  type Segments = map<nat, array<byte>>

  /** The segments, which all threads share, hold the bytes of `e`. */
  ghost predicate InPlace(segments: Segments, e: Entry)
    reads set s | s in segments :: segments[s]
  {
    e.Occupies() ==>
      && e.extent.segment in segments && e.extent.offset + e.extent.length <= segments[e.extent.segment].Length
      && segments[e.extent.segment][e.extent.offset..e.extent.offset + e.extent.length] == e.bytes
  }

  /** What the stream hands out: nothing more, or the next chunk. */
  datatype Pushed = End | Chunk(bytes: seq<byte>)

  lemma Slice<T>(s: seq<T>, from: nat, to: nat, i: nat, j: nat)
    requires from <= to <= |s| && i <= j <= to - from
    ensures s[from..to][i..j] == s[from + i..from + j]
  {
    forall k | 0 <= k < j - i ensures s[from..to][i..j][k] == s[from + i..from + j][k] {
      assert s[from..to][i + k] == s[from + i + k];
    }
  }

  class VfsReadStream {
    const version: Entry
    const start: nat
    const end: int
    const highWaterMark: nat
    const borrowed: bool
    const lease: nat            // the handle on the version, in the pins of the thread
    var offset: nat
    var destroyed: bool
    ghost var pushed: seq<seq<byte>>

    /** What was pushed so far is the file from `start` up to `offset`, in chunks within the high-water mark. */
    ghost predicate Valid()
      reads this
    {
      && version.Shared? && version.WellFormed()
      && highWaterMark > 0 && end < |version.bytes| && start <= end + 1
      && start <= offset <= end + 1
      && Concat(pushed) == version.bytes[start..offset]
      && (forall i :: 0 <= i < |pushed| ==> 0 < |pushed[i]| <= highWaterMark)
    }

    constructor (version: Entry, range: (int, int), highWaterMark: nat, borrowed: bool, lease: nat)
      requires version.Shared? && version.WellFormed()
      requires 0 <= range.0 <= range.1 + 1 && range.1 < |version.bytes|
      ensures Valid() && !destroyed && pushed == [] && offset == start == range.0 && end == range.1
      ensures this.version == version && this.borrowed == borrowed && this.lease == lease
      ensures this.highWaterMark == if highWaterMark == 0 then DEFAULT_HIGH_WATER_MARK else highWaterMark
    {
      this.version, this.start, this.end, this.borrowed, this.lease := version, range.0, range.1, borrowed, lease;
      this.highWaterMark := if highWaterMark == 0 then DEFAULT_HIGH_WATER_MARK else highWaterMark;
      offset, destroyed, pushed := range.0, false, [];
    }

    /** Note a chunk that was pushed. */
    method Push(view: seq<byte>, stop: nat)
      requires Valid() && !destroyed && offset <= end && stop == StopOf(offset, end, highWaterMark) && view == version.bytes[offset..stop]
      modifies this`offset, this`pushed
      ensures Valid() && offset == stop && pushed == old(pushed) + [view]
    {
      ConcatMore(pushed, view);
      assert version.bytes[start..offset] + version.bytes[offset..stop] == version.bytes[start..stop];
      pushed := pushed + [view];
      offset := stop;
    }

    /**
     * The next chunk, read from the shared segments whenever the consumer asks for it: the next part
     * of the version the stream opened. At the end everything from `start` to `end` has been pushed.
     */
    method Read(segments: Segments) returns (next: Pushed)
      requires Valid() && !destroyed && InPlace(segments, version)
      modifies this`offset, this`pushed
      ensures Valid()
      ensures next.End? <==> old(offset) == end + 1
      ensures next.End? ==> pushed == old(pushed) && Concat(pushed) == version.bytes[start..end + 1]
      ensures next.Chunk? ==> pushed == old(pushed) + [next.bytes] && old(offset) < offset && next.bytes == version.bytes[old(offset)..offset]
      ensures next.Chunk? ==> offset == end + 1 || offset - old(offset) == highWaterMark
    {
      if offset > end {
        return End;
      }
      hide Concat;
      var x, stop := version.extent, StopOf(offset, end, highWaterMark);
      var view := segments[x.segment][x.offset + offset..x.offset + stop];
      assert version.Occupies();
      Slice(segments[x.segment][..], x.offset, x.offset + x.length, offset, stop);
      Push(view, stop);
      next := Chunk(view);
    }

    /** As long as the lease is not released, the bytes of the version are where they were: in the main thread ... */
    lemma HeldByMain(k: VfsKernel)
      requires Valid() && k.Valid() && k.pins.Holds(lease, version)
      ensures InPlace(k.cache.pool.segments, version)
    {
      hide VfsKernel.Represents, Intact, FilesystemCache.Mem, Concat, PinTable.Leased, Reachable, Coupled, Vacant, FilesystemCache.Valid;
      k.Represented(k.View());
      k.pins.HeldIsPinned(lease);
      if version.Occupies() {
        PinnedInPlace(k, Main, version);
      }
    }

    /** ... and in every worker, whose pins the main kernel knows of only by messages. */
    lemma HeldByWorker(k: VfsKernel, w: WorkerKernel, l: nat)
      requires Valid() && k.Valid() && w.Is(k.View(), l) && w.pins.Holds(lease, version)
      ensures InPlace(k.cache.pool.segments, version)
    {
      hide VfsKernel.View, VfsKernel.Represents, Intact, FilesystemCache.Mem, Concat;
      w.pins.HeldIsPinned(lease);
      if version.Occupies() {
        PinnedInPlace(k, Worker(l), version);
      }
    }

    /** Ended, failed or aborted: a stream of copies gives its pin back, one of borrowed views does not. */
    method Destroy(k: VfsKernel)
      requires Valid() && k.Valid() && Settled(k.View())
      modifies this`destroyed, k, k.pins, k.cache, k.cache.pool, k.cache.registry, k.cache.Sabs()
      ensures Valid() && destroyed && k.Valid() && Settled(k.View())
      ensures borrowed ==> k.View() == old(k.View()) && k.pins.held == old(k.pins.held)
      ensures !borrowed ==> Dropped(k, lease)
    {
      hide VfsKernel.Represents, FilesystemCache.Mem, Settled, Steps, SameContent, PrivateKept, Unpinned, Concat;
      destroyed := true;
      if !borrowed {
        k.Unpin(lease);
      }
    }

    /** The stream counts as destroyed and its handle as released; a second call finds both done. */
    method Release(k: VfsKernel)
      requires Valid() && k.Valid() && Settled(k.View())
      modifies this`destroyed, k, k.pins, k.cache, k.cache.pool, k.cache.registry, k.cache.Sabs()
      ensures Valid() && destroyed && k.Valid() && Settled(k.View()) && Dropped(k, lease)
    {
      hide VfsKernel.Represents, FilesystemCache.Mem, Settled, Steps, SameContent, PrivateKept, Unpinned, Concat;
      destroyed := true;
      k.Unpin(lease);
    }

    /** The same in a worker: its last consumer of a retired version posts one release. */
    method ReleaseInWorker(w: WorkerKernel, ghost s: State, ghost l: nat)
      requires Valid() && w.Is(s, l) && Live(s, l)
      modifies this`destroyed, w`outbox, w.pins
      ensures Valid() && destroyed && w.pins.held == old(w.pins.held) - {lease}
      ensures lease in old(w.pins.held) ==> old(w.pins.held)[lease] in old(w.pins.counts) && w.Is(Unpinned(s, Worker(l), old(w.pins.held)[lease]), l)
      ensures lease !in old(w.pins.held) ==> w.Is(s, l) && w.outbox == old(w.outbox)
    {
      hide Unpinned, Concat, WorkerKernel.Is;
      destroyed := true;
      w.Unpin(lease, s, l);
    }
  }

  /** Since the call this handle is released and every other is as it was; releasing it again changes nothing. */
  twostate predicate Dropped(k: VfsKernel, lease: nat)
    reads k, k.pins, k.cache, k.cache.pool, k.cache.registry, k.cache.Sabs()
  {
    && k.pins.held == old(k.pins.held) - {lease}
    && (lease in old(k.pins.held) ==>
         old(k.pins.held)[lease] in old(k.pins.counts) && k.SettledFrom(Unpinned(old(k.View()), Main, old(k.pins.held)[lease])))
    && (lease !in old(k.pins.held) ==> k.View() == old(k.View()))
  }

  /** Start to read what `key` projects; a range that cannot be read is refused before anything is pinned. */
  method Open(k: VfsKernel, key: Key, start: Arg, end: Arg, highWaterMark: nat, borrowed: bool) returns (st: Option<VfsReadStream>)
    requires k.Valid() && Settled(k.View()) && key in k.files && k.files[key].Shared?
    modifies k.pins
    ensures k.Valid() && Settled(k.View())
    ensures st.None? <==> !InFile(start, end, k.files[key].extent.length)
    ensures st.None? ==> k.View() == old(k.View()) && k.pins.held == old(k.pins.held)
    ensures st.Some? ==> fresh(st.value) && st.value.Valid() && st.value.version == k.files[key] && !st.value.destroyed && st.value.pushed == []
    ensures st.Some? ==> st.value.start == (if start.Integer? then start.value else 0)
    ensures st.Some? ==> st.value.end == (if end.Integer? then end.value else k.files[key].extent.length - 1)
    ensures st.Some? ==> st.value.highWaterMark == (if highWaterMark == 0 then 65536 else highWaterMark) && st.value.borrowed == borrowed
    ensures st.Some? ==> k.pins.Holds(st.value.lease, k.files[key]) && k.pins.held == old(k.pins.held)[st.value.lease := k.files[key]]
    ensures st.Some? ==> k.View() == WithPins(old(k.View()), Main, Acquire(old(k.pins.View()), k.files[key]))
  {
    hide VfsKernel.Represents, FilesystemCache.Mem, Settled, Acquire, Concat, RangeOf, InFile;
    var range := RangeOf(start, end, k.files[key].extent.length);
    RangeAccepted(start, end, k.files[key].extent.length);
    if range.None? {
      return None;
    }
    ProjectedWellFormed(k, key);
    var lease := k.Pin(key);
    label pinned:
    var stream := new VfsReadStream(k.files[key], range.value, highWaterMark, borrowed, lease);
    k.cache.SameMemory@pinned();
    st := Some(stream);
  }

  lemma ProjectedWellFormed(k: VfsKernel, key: Key)
    requires k.Valid() && key in k.files && k.files[key].Shared?
    ensures k.files[key].WellFormed()
  {
    hide Reachable, Coupled, Inv, FilesystemCache.Valid, FilesystemCache.Mem, Intact;
    k.CacheSound();
    ReachableInv(k.View());
    FilesAreIndex(k.View());
  }

  /** A version pinned in some thread is where it was when it was pinned. */
  lemma PinnedInPlace(k: VfsKernel, who: Holder, e: Entry)
    requires k.Valid() && e in PinsOf(k.View(), who).counts && e.Occupies()
    ensures InPlace(k.cache.pool.segments, e)
  {
    hide Reachable, Coupled, Intact, OwnsAll, FilesystemCache.Mem;
    k.ReadableBytesStay(who, e);
    OwnedInside(k.cache.Books(), k.cache.pool.segmentSize, e.extent);
    k.cache.ReadsBytes(e);
  }
}
