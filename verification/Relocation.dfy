/** Compaction: which segment is emptied, and what copying its entries out or giving up does. */
module Relocation {
  import opened Layout
  import opened Extents
  import opened Registry
  import opened Ownership

  datatype Move = Move(key: Key, entry: Entry)

  datatype Plan = NoPlan | Planned(target: nat, moves: seq<Move>)

  // --- The segment to empty ---

  ghost function OpenSegments(b: Books): set<nat> {
    set s | s in b.ids && s !in b.closed
  }

  function Utilisation(b: Books, s: nat, segmentSize: nat): real
    requires segmentSize > 0
  {
    UsedOf(b, s) as real / segmentSize as real
  }

  /** The least used open segment, below the threshold, with another open one beside it. */
  ghost predicate Target(b: Books, segmentSize: nat, threshold: real, s: nat)
    requires segmentSize > 0
  {
    && threshold != 0.0
    && s in OpenSegments(b)
    && |OpenSegments(b)| >= 2
    && Utilisation(b, s, segmentSize) < threshold
    && forall t :: t in OpenSegments(b) ==> Utilisation(b, s, segmentSize) <= Utilisation(b, t, segmentSize)
  }

  /** The search after `p` segments: `seen` are the open ones, `target` the least used of those below the threshold. */
  ghost predicate Scanned(b: Books, size: nat, threshold: real, p: nat, seen: set<nat>, found: bool, target: nat, least: real)
    requires size > 0
  {
    && p <= |b.ids| && seen == (set q | 0 <= q < p && b.ids[q] !in b.closed :: b.ids[q])
    && (if found then target in seen && Utilisation(b, target, size) == least < threshold else least == threshold)
    && (forall s :: s in seen ==> least <= Utilisation(b, s, size))
  }

  lemma NothingScanned(b: Books, size: nat, threshold: real)
    requires size > 0
    ensures Scanned(b, size, threshold, 0, {}, false, 0, threshold)
  {
    hide Utilisation;
  }

  lemma ScannedClosed(b: Books, size: nat, threshold: real, p: nat, seen: set<nat>, found: bool, target: nat, least: real)
    requires size > 0 && Scanned(b, size, threshold, p, seen, found, target, least) && p < |b.ids| && b.ids[p] in b.closed
    ensures Scanned(b, size, threshold, p + 1, seen, found, target, least)
  {
    hide Utilisation;
  }

  lemma ScannedOpen(b: Books, size: nat, threshold: real, p: nat, seen: set<nat>, found: bool, target: nat, least: real)
    requires size > 0 && Scanned(b, size, threshold, p, seen, found, target, least) && p < |b.ids| && b.ids[p] !in b.closed && Distinct(b.ids)
    ensures b.ids[p] !in seen
    ensures var s := b.ids[p]; var util := Utilisation(b, s, size);
      if util < least then Scanned(b, size, threshold, p + 1, seen + {s}, true, s, util)
      else Scanned(b, size, threshold, p + 1, seen + {s}, found, target, least)
  {
    hide Utilisation;
    assert seen + {b.ids[p]} == set q | 0 <= q < p + 1 && b.ids[q] !in b.closed :: b.ids[q];
  }

  /** After the last segment the one found is the target, if two are open. */
  lemma LeastIsTarget(b: Books, size: nat, threshold: real, seen: set<nat>, found: bool, target: nat, least: real)
    requires size > 0 && threshold != 0.0 && Scanned(b, size, threshold, |b.ids|, seen, found, target, least)
    ensures found && |seen| >= 2 ==> Target(b, size, threshold, target)
    ensures !(found && |seen| >= 2) ==> forall t :: !Target(b, size, threshold, t)
  {
    assert seen == OpenSegments(b);
    hide OpenSegments, Utilisation;
  }

  /** The published entries of a segment. */
  ghost function Residents(entries: Files, s: nat): set<Key> {
    set k | k in entries && entries[k].Shared? && entries[k].extent.segment == s
  }

  ghost predicate Lists(keys: seq<Key>, all: set<Key>) {
    && (forall i, j :: 0 <= i < j < |keys| ==> keys[i] != keys[j])
    && (forall k :: k in keys <==> k in all)
  }

  // --- The moves ---

  /** Move i is a new version of key i with the same bytes elsewhere. */
  ghost predicate Copies(entries: Files, keys: seq<Key>, moves: seq<Move>, first: nat) {
    && |moves| <= |keys|
    && forall i :: 0 <= i < |moves| ==> CopyOf(entries, keys[i], moves[i], first + i)
  }

  ghost predicate CopyOf(entries: Files, key: Key, move: Move, id: nat) {
    && key in entries && entries[key].Shared? && entries[key].WellFormed()
    && move.key == key
    && move.entry.Shared? && move.entry.WellFormed()
    && move.entry.id == id
    && move.entry.bytes == entries[key].bytes && move.entry.origin == entries[key].origin
  }

  /** The copy lies in bytes of an open segment that nobody owned. */
  ghost predicate CopiedOut(pre: Books, post: Books, mem: Memory, entries: Files, key: Key, move: Move, id: nat) {
    && CopyOf(entries, key, move, id)
    && Gained(pre, post, move.entry.extent)
    && Open(post, move.entry.extent.segment)
    && Intact(mem, move.entry)
  }

  lemma CopyMade(pre: Books, post: Books, mem: Memory, entries: Files, key: Key, move: Move, id: nat)
    requires CopiedOut(pre, post, mem, entries, key, move, id)
    ensures CopyOf(entries, key, move, id) && move.entry.Shared? && move.entry.WellFormed()
    ensures Gained(pre, post, move.entry.extent) && Open(post, move.entry.extent.segment) && Intact(mem, move.entry)
  {
    hide Owns, Intact;
  }

  ghost predicate Covered(moves: seq<Move>, a: Addr) {
    exists i :: 0 <= i < |moves| && moves[i].entry.Shared? && Covers(moves[i].entry.extent, a)
  }

  ghost predicate AllIntact(mem: Memory, moves: seq<Move>) {
    forall i :: 0 <= i < |moves| ==> moves[i].entry.Shared? && moves[i].entry.WellFormed() && Intact(mem, moves[i].entry)
  }

  /** Exactly the bytes of the moves were gained, all from nobody, each by one move. */
  ghost predicate Moved(pre: Books, post: Books, moves: seq<Move>) {
    && (forall a :: Owns(post, a) <==> Owns(pre, a) || Covered(moves, a))
    && (forall i :: 0 <= i < |moves| ==>
         moves[i].entry.Shared? && Open(post, moves[i].entry.extent.segment) && OwnsNone(pre, moves[i].entry.extent))
    && (forall i, j :: 0 <= i < j < |moves| ==> Disjoint(moves[i].entry.extent, moves[j].entry.extent))
  }

  function Keys(moves: seq<Move>): seq<Key> {
    seq(|moves|, i requires 0 <= i < |moves| => moves[i].key)
  }

  /** The plan copies every published entry of its target, and nothing else, elsewhere. */
  ghost predicate Relocated(pre: Books, post: Books, mem: Memory, entries: Files, plan: Plan, first: nat)
    requires plan.Planned?
  {
    && plan.moves != []
    && Lists(Keys(plan.moves), Residents(entries, plan.target))
    && Copies(entries, Keys(plan.moves), plan.moves, first)
    && Moved(pre, post, plan.moves)
    && AllIntact(mem, plan.moves)
  }

  /** One allocation that opens no segment: `x` was handed out, and the books are what that leaves of them. */
  ghost predicate TookOpen(pre: Books, post: Books, x: Extent, segmentSize: nat) {
    post.ids == pre.ids && Took(Room(pre, [], 0, segmentSize, 0), Room(post, [], 0, segmentSize, 0), x)
  }

  lemma TookWithin(pre: Room, post: Room, x: Extent)
    requires Took(pre, post, x) && post.books.ids == pre.books.ids
    ensures TookOpen(pre.books, post.books, x, pre.segmentSize)
  {
    hide BestFit, NoExtentFits, NoTailFits, FirstOpenTail, Taken;
    assert FromSegment(pre, post, x) ==> |post.books.ids| == |pre.books.ids| + 1;
  }

  /** The copy of `key` took room as large as the original. */
  ghost predicate CopyTook(pre: Books, post: Books, entries: Files, key: Key, move: Move, segmentSize: nat) {
    && key in entries && entries[key].Shared? && move.entry.Shared?
    && move.entry.extent.length == entries[key].extent.length && TookOpen(pre, post, move.entry.extent, segmentSize)
  }

  /** Extents for the first of `keys` were taken one by one; `books` has what was left before each and after the last. */
  ghost predicate TakenInTurn(books: seq<Books>, entries: Files, keys: seq<Key>, xs: seq<Extent>, segmentSize: nat) {
    && |books| == |xs| + 1 && |xs| <= |keys|
    && forall j :: 0 <= j < |xs| ==>
         && keys[j] in entries && entries[keys[j]].Shared? && xs[j].length == entries[keys[j]].extent.length
         && TookOpen(books[j], books[j + 1], xs[j], segmentSize)
  }

  lemma TakenNext(books: seq<Books>, entries: Files, keys: seq<Key>, xs: seq<Extent>, segmentSize: nat, post: Books, x: Extent)
    requires TakenInTurn(books, entries, keys, xs, segmentSize) && |xs| < |keys|
    requires keys[|xs|] in entries && entries[keys[|xs|]].Shared? && x.length == entries[keys[|xs|]].extent.length
    requires TookOpen(books[|xs|], post, x, segmentSize)
    ensures TakenInTurn(books + [post], entries, keys, xs + [x], segmentSize) && (books + [post])[0] == books[0]
  {
    hide TookOpen;
  }

  lemma NoneTaken(pre: Books, entries: Files, keys: seq<Key>, segmentSize: nat)
    ensures TakenInTurn([pre], entries, keys, [], segmentSize)
  {
  }

  /** Taking extents for `keys` in turn, one comes that no open segment can take. */
  ghost predicate Exhausted(pre: Books, entries: Files, keys: seq<Key>, segmentSize: nat) {
    exists books: seq<Books>, xs :: NoWayOut(pre, entries, keys, books, xs, segmentSize)
  }

  ghost predicate NoWayOut(pre: Books, entries: Files, keys: seq<Key>, books: seq<Books>, xs: seq<Extent>, segmentSize: nat) {
    && TakenInTurn(books, entries, keys, xs, segmentSize) && books[0] == pre && |xs| < |keys|
    && var k := keys[|xs|]; k in entries && entries[k].Shared? && Stuck(books[|xs|], entries[k].extent.length, segmentSize)
  }

  /** Segment `s` holds nothing published, or not everything in it fits elsewhere. */
  ghost predicate CannotEmpty(b: Books, entries: Files, s: nat, segmentSize: nat) {
    || Residents(entries, s) == {}
    || exists keys :: Lists(keys, Residents(entries, s)) && Exhausted(b.(closed := b.closed + {s}), entries, keys, segmentSize)
  }

  /** No segment is worth emptying, or the chosen one cannot be emptied. */
  ghost predicate NothingToMove(b: Books, entries: Files, segmentSize: nat, threshold: real)
    requires segmentSize > 0
  {
    || (forall s :: !Target(b, segmentSize, threshold, s))
    || (exists s :: Target(b, segmentSize, threshold, s) && CannotEmpty(b, entries, s, segmentSize))
  }

  /**
   * A target in terms of bytes: an open segment with another beside it, of whose bytes no more are owned
   * than of any other open one, and less than the threshold allows.
   */
  lemma TargetOwnsLeast(b: Books, segmentSize: nat, threshold: real, s: nat)
    requires WellKept(b, segmentSize) && segmentSize > 0
    ensures Target(b, segmentSize, threshold, s) <==>
      && threshold != 0.0 && Open(b, s) && (exists t :: t != s && Open(b, t))
      && OwnedIn(b, s) as real < threshold * segmentSize as real
      && forall t :: Open(b, t) ==> OwnedIn(b, s) <= OwnedIn(b, t)
  {
    hide WellKept, UsedOf;
    forall t ensures UsedOf(b, t) == OwnedIn(b, t) {
      UsedIsOwnedIn(b, segmentSize, t);
    }
    forall t ensures t in OpenSegments(b) <==> Open(b, t) {
    }
    if Open(b, s) {
      AnotherOpen(OpenSegments(b), s);
    }
    forall t ensures Utilisation(b, s, segmentSize) <= Utilisation(b, t, segmentSize) <==> OwnedIn(b, s) <= OwnedIn(b, t) {
      Scaled(OwnedIn(b, s), OwnedIn(b, t), segmentSize);
    }
    Below(OwnedIn(b, s), segmentSize, threshold);
  }

  /** The owned bytes of a segment, counted. */
  ghost function OwnedIn(b: Books, s: nat): nat {
    if s in b.free && s in b.tail then |OwnedBytes(b.free[s], b.tail[s])| else 0
  }

  lemma UsedIsOwnedIn(b: Books, size: nat, s: nat)
    requires WellKept(b, size)
    ensures UsedOf(b, s) == OwnedIn(b, s)
  {
    UsedIsOwned(b, size, s);
    hide Coalesced, Owns;
  }

  lemma AnotherOpen(open: set<nat>, s: nat)
    requires s in open
    ensures |open| >= 2 <==> exists t :: t != s && t in open
  {
    assert open == {s} + (open - {s});
    if |open| >= 2 {
      assert |open - {s}| >= 1;
      var t :| t in open - {s};
    }
    if t :| t != s && t in open {
      assert {s, t} <= open;
      assert |open - {s, t}| == |open| - 2;
    }
  }

  lemma Scaled(a: nat, b: nat, size: nat)
    requires size > 0
    ensures a as real / size as real <= b as real / size as real <==> a <= b
  {
  }

  lemma Below(a: nat, size: nat, threshold: real)
    requires size > 0
    ensures a as real / size as real < threshold <==> (a as real) < threshold * size as real
  {
  }

  lemma NothingMoved(b: Books, mem: Memory)
    ensures Moved(b, b, []) && AllIntact(mem, [])
  {
  }

  lemma MovedMore(pre: Books, mid: Books, post: Books, moves: seq<Move>, move: Move)
    requires Moved(pre, mid, moves) && move.entry.Shared? && Gained(mid, post, move.entry.extent)
    requires Open(post, move.entry.extent.segment) && mid.ids == post.ids && mid.closed == post.closed
    ensures Moved(pre, post, moves + [move])
  {
    hide Owns;
    var x, after := move.entry.extent, moves + [move];
    assert after[|moves|] == move;
    forall i | 0 <= i < |moves| ensures Disjoint(moves[i].entry.extent, x) {
      assert forall a :: Covers(moves[i].entry.extent, a) ==> Covered(moves, a);
      DisjointMeansNoSharedByte(moves[i].entry.extent, x);
    }
    forall a ensures Covered(after, a) <==> Covered(moves, a) || Covers(x, a) {
      if Covered(moves, a) {
        var i :| 0 <= i < |moves| && moves[i].entry.Shared? && Covers(moves[i].entry.extent, a);
        assert after[i] == moves[i];
      }
    }
    hide Covered, Disjoint;
  }

  lemma CopiesMore(entries: Files, keys: seq<Key>, moves: seq<Move>, first: nat, move: Move)
    requires |moves| < |keys| && Copies(entries, keys, moves, first) && CopyOf(entries, keys[|moves|], move, first + |moves|)
    ensures Copies(entries, keys, moves + [move], first)
  {
    hide CopyOf;
  }

  lemma CopiesOccupy(entries: Files, keys: seq<Key>, moves: seq<Move>, first: nat)
    requires Copies(entries, keys, moves, first)
    requires forall k :: k in keys ==> k in entries && entries[k].Occupies()
    ensures forall i :: 0 <= i < |moves| ==> moves[i].entry.Occupies()
  {
    forall i | 0 <= i < |moves| ensures moves[i].entry.Occupies() {
      assert CopyOf(entries, keys[i], moves[i], first + i) && keys[i] in keys;
    }
  }

  /** Moves that were planned with the target closed, seen from before it was closed. */
  lemma SeenBefore(b: Books, closed: set<nat>, post: Books, moves: seq<Move>)
    requires Moved(b.(closed := closed), post, moves)
    ensures Moved(b, post, moves)
  {
    ClosedSameOwners(b, closed);
    hide Owns, Covered, Disjoint;
  }

  lemma KeptBefore(b: Books, closed: set<nat>, before: Memory, after: Memory)
    requires OwnedKept(b.(closed := closed), before, after)
    ensures OwnedKept(b, before, after)
  {
    ClosedSameOwners(b, closed);
    hide Owns;
  }

  lemma KeysOfCopies(entries: Files, keys: seq<Key>, moves: seq<Move>, first: nat)
    requires Copies(entries, keys, moves, first) && |moves| == |keys|
    ensures Keys(moves) == keys
  {
  }

  lemma AllIntactMore(mem: Memory, moves: seq<Move>, move: Move)
    requires AllIntact(mem, moves) && move.entry.Shared? && move.entry.WellFormed() && Intact(mem, move.entry)
    ensures AllIntact(mem, moves + [move])
  {
    hide Intact;
  }

  /** Giving the first move back leaves the others. */
  lemma MovedLess(pre: Books, mid: Books, post: Books, moves: seq<Move>)
    requires moves != [] && Moved(pre, mid, moves) && Lost(mid, post, moves[0].entry.extent)
    requires mid.ids == post.ids && mid.closed == post.closed
    ensures Moved(pre, post, moves[1..])
  {
    hide Owns;
    var x, rest := moves[0].entry.extent, moves[1..];
    forall a ensures Covered(rest, a) <==> Covered(moves, a) && !Covers(x, a) {
      if Covered(rest, a) {
        var i :| 0 <= i < |rest| && rest[i].entry.Shared? && Covers(rest[i].entry.extent, a);
        assert moves[i + 1] == rest[i];
        DisjointMeansNoSharedByte(x, moves[i + 1].entry.extent);
      }
      if Covered(moves, a) && !Covers(x, a) {
        var i :| 0 <= i < |moves| && moves[i].entry.Shared? && Covers(moves[i].entry.extent, a);
        assert rest[i - 1] == moves[i];
      }
    }
    assert forall a :: Covers(x, a) ==> !Owns(pre, a);
    hide Covered, Disjoint, Covers;
  }

  lemma FirstMoveOwned(pre: Books, mid: Books, moves: seq<Move>)
    requires moves != [] && Moved(pre, mid, moves)
    ensures moves[0].entry.Shared? && moves[0].entry.extent.segment in mid.ids
    ensures forall a :: Covers(moves[0].entry.extent, a) ==> Owns(mid, a)
  {
    hide Owns;
    forall a | Covers(moves[0].entry.extent, a) ensures Owns(mid, a) {
      assert Covered(moves, a);
    }
  }

  lemma AllGivenBack(pre: Books, post: Books)
    requires Moved(pre, post, [])
    ensures SameOwners(pre, post)
  {
    hide Owns;
  }

  /** Copying further entries keeps the ones copied before. */
  lemma IntactKept(b: Books, pre: Books, before: Memory, after: Memory, moves: seq<Move>)
    requires Moved(pre, b, moves) && OwnedKept(b, before, after) && AllIntact(before, moves)
    ensures AllIntact(after, moves)
  {
    hide Owns;
    forall i | 0 <= i < |moves| ensures Intact(after, moves[i].entry) {
      forall a | Covers(moves[i].entry.extent, a)
        ensures a in after && after[a] == moves[i].entry.bytes[a.offset - moves[i].entry.extent.offset]
      {
        assert Covered(moves, a);
        IntactAt(before, moves[i].entry, a);
      }
      WrittenIntact(after, moves[i].entry);
    }
  }

  lemma KeptTwice(pre: Books, mid: Books, moves: seq<Move>, before: Memory, between: Memory, after: Memory)
    requires Moved(pre, mid, moves) && OwnedKept(pre, before, between) && OwnedKept(mid, between, after)
    ensures OwnedKept(pre, before, after)
  {
    hide Owns, Covered;
  }

  /** Where entries are is what a segment owns: copies keep the bytes owned before. */
  lemma StillThere(pre: Books, mid: Books, moves: seq<Move>, before: Memory, after: Memory, e: Entry)
    requires Moved(pre, mid, moves) && OwnedKept(pre, before, after) && e.Shared? && e.WellFormed()
    requires OwnsAll(pre, e.extent) && Intact(before, e)
    ensures OwnsAll(mid, e.extent) && Intact(after, e)
  {
    hide Owns, Covered;
    forall a | Covers(e.extent, a) ensures a in after && after[a] == e.bytes[a.offset - e.extent.offset] {
      IntactAt(before, e, a);
    }
    WrittenIntact(after, e);
  }

  /** Closing or reopening a segment changes no owner. */
  lemma ClosedSameOwners(b: Books, closed: set<nat>)
    ensures SameOwners(b, b.(closed := closed))
    ensures forall x :: OwnsAll(b, x) <==> OwnsAll(b.(closed := closed), x)
  {
  }

  lemma ResidentsOccupy(entries: Files, keys: seq<Key>, s: nat)
    requires Lists(keys, Residents(entries, s)) && s > 0
    requires forall k :: k in entries && entries[k].Shared? ==> entries[k].WellFormed()
    ensures forall k :: k in keys ==> k in entries && entries[k].Occupies()
    ensures keys == [] ==> forall b, segmentSize :: CannotEmpty(b, entries, s, segmentSize)
  {
  }

  lemma NoTarget(b: Books, entries: Files, segmentSize: nat, threshold: real)
    requires segmentSize > 0
    ensures threshold == 0.0 ==> NothingToMove(b, entries, segmentSize, threshold)
    ensures (forall s :: !Target(b, segmentSize, threshold, s)) ==> NothingToMove(b, entries, segmentSize, threshold)
  {
  }

  lemma NoWayForTarget(b: Books, entries: Files, segmentSize: nat, threshold: real, s: nat)
    requires segmentSize > 0 && Target(b, segmentSize, threshold, s)
    ensures s in b.ids && s !in b.closed
    ensures CannotEmpty(b, entries, s, segmentSize) ==> NothingToMove(b, entries, segmentSize, threshold)
  {
    hide CannotEmpty;
  }

  lemma SelfOwners(b: Books)
    ensures SameOwners(b, b)
  {
  }

  lemma NothingChanged(b: Books, mem: Memory)
    ensures SameOwners(b, b) && OwnedKept(b, mem, mem)
  {
  }

  lemma OwnersTwice(pre: Books, mid: Books, post: Books)
    requires SameOwners(pre, mid) && SameOwners(mid, post)
    ensures SameOwners(pre, post)
  {
    hide Owns;
  }

  /** Segments that own at least what they owned are still in use. */
  lemma UsedWhileMoved(pre: Books, post: Books, moves: seq<Move>, size: nat)
    requires WellKept(pre, size) && WellKept(post, size) && Moved(pre, post, moves) && post.ids == pre.ids
    requires forall s :: s in pre.ids ==> UsedOf(pre, s) > 0
    ensures forall s :: s in post.ids ==> UsedOf(post, s) > 0
  {
    hide Owns, WellKept, Covered, Disjoint;
    forall s | s in post.ids ensures UsedOf(post, s) > 0 {
      SomeOwned(post, size, s);
      SomeOwned(pre, size, s);
      var o: nat :| Owns(pre, Addr(s, o));
      assert Owns(post, Addr(s, o));
    }
  }
}
