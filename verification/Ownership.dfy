/** What the registry's books say about who owns which byte, and how each operation changes it. */
module Ownership {
  import opened Layout
  import opened Extents
  import opened Registry

  /** Every byte of the extent is owned. */
  ghost predicate OwnsAll(b: Books, x: Extent) {
    forall a :: Covers(x, a) ==> Owns(b, a)
  }

  ghost predicate OwnsNone(b: Books, x: Extent) {
    forall a :: Covers(x, a) ==> !Owns(b, a)
  }

  /** No open segment can take `size` bytes. */
  ghost predicate Stuck(b: Books, size: nat, segmentSize: nat) {
    && (forall s :: s in b.tail <==> s in b.ids)
    && NoExtentFits(b, size)
    && NoTailFits(b, size, segmentSize)
  }

  /** Memory at bytes owned before is as before. */
  ghost predicate OwnedKept(b: Books, before: Memory, after: Memory) {
    forall a :: a in before && Owns(b, a) ==> a in after && after[a] == before[a]
  }

  /** The bytes `data` are in memory from that offset on, and every other byte is as it was. */
  ghost predicate Written(before: Memory, after: Memory, segment: nat, offset: nat, data: seq<byte>) {
    && after.Keys == before.Keys
    && forall a :: a in after ==>
         after[a] == if Covers(Extent(segment, offset, |data|), a) then data[a.offset - offset] else before[a]
  }

  lemma KeptAll(pre: Books, before: Memory, after: Memory)
    requires forall a :: a in before ==> a in after && after[a] == before[a]
    ensures OwnedKept(pre, before, after)
  {
  }

  /** A write into an extent nobody owned leaves every owned byte alone. */
  lemma OthersKept(pre: Books, post: Books, before: Memory, mid: Memory, after: Memory, x: Extent)
    requires Gained(pre, post, x)
    requires forall a :: a in before ==> a in mid && mid[a] == before[a]
    requires forall a :: a in mid && !Covers(x, a) ==> a in after && after[a] == mid[a]
    ensures OwnedKept(pre, before, after)
  {
    hide Owns;
  }

  /** No segment was registered, closed, opened or filled; some may have left. */
  ghost predicate OnlyFewer(pre: Books, post: Books) {
    && (forall s :: s in post.ids ==> s in pre.ids)
    && (forall s :: s in post.closed ==> s in pre.closed)
    && (forall s :: s in pre.closed && s in post.ids ==> s in post.closed)
    && (forall s :: s in post.tail ==> s in pre.tail && post.tail[s] == pre.tail[s])
  }

  lemma FewerThen(pre: Books, mid: Books, post: Books)
    requires OnlyFewer(pre, mid) && OnlyFewer(mid, post)
    ensures OnlyFewer(pre, post)
  {
  }

  lemma FewerSame(pre: Books, post: Books)
    requires post.ids == pre.ids && post.closed == pre.closed && post.tail == pre.tail
    ensures OnlyFewer(pre, post)
  {
  }

  lemma FewerTwice(pre: Books, mid: Books, s: nat)
    requires mid.ids == pre.ids && mid.closed == pre.closed && mid.tail == pre.tail && Distinct(mid.ids)
    ensures OnlyFewer(pre, Unlist(mid, s))
  {
    UnlistedKeeps(mid.ids, s);
  }

  lemma NothingLost(b: Books, x: Extent)
    requires x.segment !in b.tail
    ensures Lost(b, b, x) && OnlyFewer(b, b)
  {
  }

  lemma UnlistedUse(b: Books, s: nat)
    requires Distinct(b.ids)
    ensures forall t :: t in Unlist(b, s).ids <==> t in b.ids && t != s
    ensures forall t :: t in Unlist(b, s).ids ==> UsedOf(Unlist(b, s), t) == UsedOf(b, t)
  {
    UnlistedKeeps(b.ids, s);
  }

  ghost predicate SameOwners(pre: Books, post: Books) {
    forall a :: Owns(post, a) <==> Owns(pre, a)
  }

  function Unlist(b: Books, s: nat): Books {
    Registry.Books(Unlisted(b.ids, s), b.free - {s}, b.tail - {s}, b.closed - {s})
  }

  lemma UnlistedOwners(b: Books, size: nat, s: nat)
    requires WellKept(b, size) && UsedOf(b, s) == 0
    ensures SameOwners(b, Unlist(b, s)) && WellKept(Unlist(b, s), size)
  {
    UnlistedKeeps(b.ids, s);
    UsedIsOwned(b, size, s);
    forall a ensures Owns(Unlist(b, s), a) <==> Owns(b, a) {
      if a.segment == s {
        assert a == Addr(s, a.offset);
      }
    }
    hide FreeAt, Coalesced, Owns;
  }

  lemma LostTwice(pre: Books, mid: Books, post: Books, x: Extent)
    requires Lost(pre, mid, x) && SameOwners(mid, post)
    ensures Lost(pre, post, x)
  {
    hide Owns;
  }

  /** Only registered segments have owned bytes. */
  lemma OwnersRegistered(b: Books, size: nat, x: Extent)
    requires WellKept(b, size) && x.length > 0
    ensures Distinct(b.ids)
    ensures x.segment in b.ids <==> x.segment in b.tail
    ensures x.segment in b.ids <==> x.segment in b.free
    ensures OwnsAll(b, x) ==> x.segment in b.ids
    ensures OwnsAll(b, x) ==> forall a :: Covers(x, a) ==> Owns(b, a)
  {
    if OwnsAll(b, x) {
      assert Covers(x, Addr(x.segment, x.offset));
      assert Owns(b, Addr(x.segment, x.offset));
    }
  }

  lemma SomeOwned(b: Books, size: nat, s: nat)
    requires WellKept(b, size)
    ensures UsedOf(b, s) > 0 <==> exists o: nat :: Owns(b, Addr(s, o))
  {
    UsedIsOwned(b, size, s);
    assert s in b.ids ==> UsedOf(b, s) >= 0;
    hide Owns;
  }

  /** Releasing an extent changes the use of its own segment only. */
  lemma ReleasedUse(pre: Books, post: Books, x: Extent, size: nat)
    requires WellKept(pre, size) && WellKept(post, size) && Lost(pre, post, x) && post.ids == pre.ids
    requires forall s :: s in pre.ids ==> UsedOf(pre, s) > 0
    ensures forall s :: s in post.ids && s != x.segment ==> UsedOf(post, s) > 0
  {
    hide Owns, WellKept;
    forall s | s in post.ids && s != x.segment ensures UsedOf(post, s) > 0 {
      SomeOwned(post, size, s);
      SomeOwned(pre, size, s);
      var o: nat :| Owns(pre, Addr(s, o));
      assert Owns(post, Addr(s, o));
    }
  }

  lemma StillUsed(pre: Books, post: Books, x: Extent, size: nat)
    requires WellKept(pre, size) && WellKept(post, size) && Gained(pre, post, x) && x.length > 0
    requires forall s :: s in pre.ids ==> UsedOf(pre, s) > 0
    requires forall s :: s in post.ids ==> s in pre.ids || s == x.segment
    ensures forall s :: s in post.ids ==> UsedOf(post, s) > 0
  {
    hide Owns, WellKept;
    forall s | s in post.ids ensures UsedOf(post, s) > 0 {
      SomeOwned(post, size, s);
      SomeOwned(pre, size, s);
      if s in pre.ids {
        var o: nat :| Owns(pre, Addr(s, o));
        assert Owns(post, Addr(s, o));
      } else {
        assert Covers(x, Addr(s, x.offset));
      }
    }
  }

  lemma Registered(b: Books, size: nat)
    requires WellKept(b, size)
    ensures Distinct(b.ids)
    ensures forall s :: s in b.ids ==> s in b.tail && s in b.free && b.tail[s] > 0
  {
  }

  /** Owned bytes lie inside their segment. */
  lemma OwnedInside(b: Books, size: nat, x: Extent)
    requires WellKept(b, size) && x.length > 0 && OwnsAll(b, x)
    ensures x.offset + x.length <= size
  {
    assert Covers(x, Addr(x.segment, x.offset + x.length - 1));
  }
}
