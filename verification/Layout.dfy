/** Addresses inside the pooled segments, and the entries that occupy them. */
module Layout {
  newtype byte = x: int | 0 <= x < 256

  datatype Option<T> = None | Some(value: T)

  /** One byte of one segment. */
  datatype Addr = Addr(segment: nat, offset: nat)

  /** A contiguous run of bytes of one segment. */
  datatype Extent = Extent(segment: nat, offset: nat, length: nat)

  predicate Covers(x: Extent, a: Addr) {
    a.segment == x.segment && x.offset <= a.offset < x.offset + x.length
  }

  predicate Disjoint(x: Extent, y: Extent) {
    || x.length == 0
    || y.length == 0
    || x.segment != y.segment
    || x.offset + x.length <= y.offset
    || y.offset + y.length <= x.offset
  }

  /** Disjointness of extents is disjointness of the bytes they cover. */
  lemma DisjointMeansNoSharedByte(x: Extent, y: Extent)
    ensures Disjoint(x, y) <==> forall a :: !(Covers(x, a) && Covers(y, a))
  {
    if !Disjoint(x, y) {
      var a := Addr(x.segment, if x.offset < y.offset then y.offset else x.offset);
      assert Covers(x, a) && Covers(y, a);
    }
  }

  /** The place-qualified key of a published file or companion. */
  datatype Key = Key(place: string, name: string)

  /**
   * A file version. `id` stands for the identity of the entry object; `bytes` records what was
   * written when the version was placed, so that later reads can be compared with it. `origin` is
   * the identity of the source version this one is or was built from, which copies keep.
   */
  datatype Entry =
    | Disk(id: nat, origin: nat, path: string)
    | Shared(id: nat, origin: nat, extent: Extent, bytes: seq<byte>)
  {
    /** Empty entries live in segment 0, which is no segment of the pool. */
    predicate WellFormed() {
      Shared? ==> |bytes| == extent.length && (extent.length == 0 ==> extent.segment == 0)
    }

    /** Only these own bytes of the pool; an empty file is shared but owns nothing. */
    predicate Occupies() {
      Shared? && extent.length > 0
    }
  }

  /** A source version is its own origin; a derivative or a copy names the one it comes from. */
  function OriginOf(origin: Option<nat>, id: nat): nat {
    if origin.Some? then origin.value else id
  }

  type Files = map<Key, Entry>

  type Memory = map<Addr, byte>

  predicate Intact(mem: Memory, e: Entry)
    requires e.Shared? && e.WellFormed()
  {
    forall i :: 0 <= i < |e.bytes| ==>
      var a := Addr(e.extent.segment, e.extent.offset + i);
      a in mem && mem[a] == e.bytes[i]
  }

  lemma IntactAt(mem: Memory, e: Entry, a: Addr)
    requires e.Shared? && e.WellFormed() && Intact(mem, e) && Covers(e.extent, a)
    ensures a in mem && mem[a] == e.bytes[a.offset - e.extent.offset]
  {
    var i := a.offset - e.extent.offset;
    var value := e.bytes[i];
    assert a == Addr(e.extent.segment, e.extent.offset + i);
  }

  /** An entry is intact when every address it covers holds its byte. */
  lemma WrittenIntact(mem: Memory, e: Entry)
    requires e.Shared? && e.WellFormed()
    requires forall a :: Covers(e.extent, a) ==> a in mem && mem[a] == e.bytes[a.offset - e.extent.offset]
    ensures Intact(mem, e)
  {
    forall i | 0 <= i < |e.bytes|
      ensures var a := Addr(e.extent.segment, e.extent.offset + i); a in mem && mem[a] == e.bytes[i]
    {
      assert Covers(e.extent, Addr(e.extent.segment, e.extent.offset + i));
    }
  }

  /** Memory that agrees on the bytes of an entry holds the entry too. */
  lemma IntactMoves(mem: Memory, mem': Memory, e: Entry)
    requires e.Shared? && e.WellFormed() && Intact(mem, e) && mem.Keys <= mem'.Keys
    requires forall a :: Covers(e.extent, a) && a in mem ==> mem'[a] == mem[a]
    ensures Intact(mem', e)
  {
    forall a | Covers(e.extent, a) ensures a in mem' && mem'[a] == e.bytes[a.offset - e.extent.offset] {
      IntactAt(mem, e, a);
    }
    hide Intact;
    WrittenIntact(mem', e);
  }
}
