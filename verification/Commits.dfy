/** How committing an epoch change by change adds up to one commit of the protocol. */
module Commits {
  import opened Layout
  import opened Registry
  import opened Ownership
  import opened Relocation
  import opened Protocol
  import opened Invariant
  import opened Safety
  import opened ThreadPins
  import opened Upkeep
  import opened History

  ghost function Restrict(files: Files, keys: set<Key>): Files {
    map k | k in files && k in keys :: files[k]
  }

  /** The segments the entries of an epoch lie in. */
  ghost function Segments(ch: Changes): set<nat> {
    set k | k in ch && ch[k].Some? && ch[k].value.Shared? :: ch[k].value.extent.segment
  }

  function Lookup(files: Files, key: Key): Option<Entry> {
    if key in files then Some(files[key]) else None
  }

  /** `from` < ids <= `from` + number of ids, each once. */
  ghost predicate NumberedFrom(from: nat, ids: map<Key, nat>) {
    && (forall k :: k in ids ==> from < ids[k] <= from + |ids|)
    && Injective(ids)
  }

  /** What an update will carry: new entries, removed keys, and the id and version of each replaced one. */
  datatype Epoch = Epoch(entries: Files, removals: set<Key>, ids: map<Key, nat>, replaced: Files)

  /** Where the loop over the changes stands once those of `part` are done. */
  ghost predicate PartDone(index: Files, part: Changes, ep: Epoch, now: Files) {
    && ep.entries == Added(part)
    && ep.removals == Removed(index, part)
    && ep.ids.Keys == Replaced(index, part)
    && ep.replaced == Restrict(index, ep.ids.Keys)
    && now == (index + ep.entries) - ep.removals
  }

  lemma NothingDone(index: Files, ch: Changes)
    ensures ch - ch.Keys == map[] && ch - {} == ch
    ensures Segments(map[]) == {}
    ensures PartDone(index, map[], Epoch(map[], {}, map[], map[]), index)
  {
    var none: Changes := map[];
    assert Added(none) == map[] && Removed(index, none) == {} && Replaced(index, none) == {};
    assert Restrict(index, {}) == map[];
    assert (index + map[]) - {} == index;
  }

  lemma OneMoreDone(ch: Changes, rest: set<Key>, key: Key)
    requires key in rest && rest <= ch.Keys
    ensures key !in ch - rest && (ch - rest)[key := ch[key]] == ch - (rest - {key})
  {
  }

  lemma SegmentsMore(part: Changes, key: Key, change: Option<Entry>)
    requires key !in part
    ensures Segments(part[key := change]) == Segments(part) + if change.Some? && change.value.Shared? then {change.value.extent.segment} else {}
  {
    var more := part[key := change];
    forall s ensures s in Segments(more) <==> s in Segments(part) || (change.Some? && change.value.Shared? && s == change.value.extent.segment) {
      if s in Segments(part) {
        var k :| k in part && part[k].Some? && part[k].value.Shared? && part[k].value.extent.segment == s;
        assert more[k] == part[k];
      }
      if change.Some? && change.value.Shared? && s == change.value.extent.segment {
        assert more[key] == change;
      }
    }
  }

  predicate Hit(previous: Option<Entry>) {
    previous.Some? && previous.value.Occupies()
  }

  lemma AddedMore(part: Changes, key: Key, change: Option<Entry>)
    requires key !in part
    ensures Added(part[key := change]) == if change.Some? then Added(part)[key := change.value] else Added(part)
  {
  }

  lemma RemovedMore(index: Files, part: Changes, key: Key, change: Option<Entry>)
    requires key !in part
    ensures Removed(index, part[key := change]) == if change.None? && key in index then Removed(index, part) + {key} else Removed(index, part)
  {
  }

  lemma ReplacedMore(index: Files, part: Changes, key: Key, change: Option<Entry>, ids: map<Key, nat>, id: nat)
    requires key !in part && ids.Keys == Replaced(index, part)
    ensures key !in ids
    ensures var ids' := if Hit(Lookup(index, key)) then ids[key := id] else ids;
      && ids'.Keys == Replaced(index, part[key := change])
      && Restrict(index, ids'.Keys) == if Hit(Lookup(index, key)) then Restrict(index, ids.Keys)[key := index[key]] else Restrict(index, ids.Keys)
  {
  }

  lemma IndexMore(index: Files, part: Changes, key: Key, change: Option<Entry>)
    requires key !in part
    ensures var now := (index + Added(part)) - Removed(index, part);
      && Lookup(now, key) == Lookup(index, key)
      && (index + Added(part[key := change])) - Removed(index, part[key := change]) ==
           if change.Some? then now[key := change.value] else now - {key}
  {
    AddedMore(part, key, change);
    RemovedMore(index, part, key, change);
  }

  ghost function With(index: Files, ep: Epoch, key: Key, change: Option<Entry>, id: nat): Epoch {
    var hit := Hit(Lookup(index, key));
    Epoch(if change.Some? then ep.entries[key := change.value] else ep.entries,
          if change.None? && key in index then ep.removals + {key} else ep.removals,
          if hit then ep.ids[key := id] else ep.ids,
          if hit then ep.replaced[key := index[key]] else ep.replaced)
  }

  /** One more change is done. */
  lemma ChangeDone(index: Files, part: Changes, key: Key, change: Option<Entry>, ep: Epoch, now: Files, id: nat)
    requires PartDone(index, part, ep, now) && key !in part
    ensures Lookup(now, key) == Lookup(index, key) && key !in ep.ids
    ensures PartDone(index, part[key := change], With(index, ep, key, change, id), if change.Some? then now[key := change.value] else now - {key})
  {
    AddedMore(part, key, change);
    RemovedMore(index, part, key, change);
    ReplacedMore(index, part, key, change, ep.ids, id);
    IndexMore(index, part, key, change);
    hide Added, Removed, Replaced, Restrict, Lookup, Hit;
  }

  lemma WithNumbered(from: nat, index: Files, ep: Epoch, key: Key, change: Option<Entry>)
    requires NumberedFrom(from, ep.ids) && key !in ep.ids
    ensures var next := from + |ep.ids|; var ids := With(index, ep, key, change, next + 1).ids;
      NumberedFrom(from, ids) && from + |ids| == if Hit(Lookup(index, key)) then next + 1 else next
  {
    NumberedMore(from, ep.ids, key);
    hide NumberedFrom, Hit, Lookup;
  }

  lemma FewerClosed(closed: set<nat>, part: Changes, key: Key, change: Option<Entry>)
    requires key !in part
    ensures closed - Segments(part[key := change]) ==
      (closed - Segments(part)) - if change.Some? && change.value.Shared? then {change.value.extent.segment} else {}
  {
    SegmentsMore(part, key, change);
    hide Segments;
  }

  lemma NothingNumbered(from: nat)
    ensures NumberedFrom(from, map[])
  {
  }

  lemma NumberedMore(from: nat, ids: map<Key, nat>, key: Key)
    requires NumberedFrom(from, ids) && key !in ids
    ensures NumberedFrom(from, ids[key := from + |ids| + 1]) && |ids[key := from + |ids| + 1]| == |ids| + 1
  {
  }

  // --- The measure of the recursion: segments open once an epoch has reopened those it lands in ---

  ghost function OpenAfter(b: Books, ch: Changes): set<nat> {
    set s | s in b.ids && (s !in b.closed || s in Segments(ch))
  }

  lemma PuttingOpens(pre: Books, post: Books, ch: Changes)
    requires post.ids == pre.ids && post.closed == pre.closed - Segments(ch)
    ensures OpenSegments(post) == OpenAfter(pre, ch)
  {
    hide Segments;
  }

  // --- All that is freed at once ---

  /** The records that nothing holds any more. */
  ghost function Sweepable(s: State): set<nat> {
    set r | r in s.retired && Releasable(s, r)
  }

  /** `s` without those records and without their versions. */
  ghost function Cleared(s: State): State {
    s.(retired := s.retired - Sweepable(s), holders := s.holders - Sweepable(s),
       ledger := s.ledger - set r | r in Sweepable(s) :: s.retired[r].entry.id)
  }

  /** Whichever of them is freed first, the same is freed in the end. */
  lemma ClearedMore(s: State, id: nat)
    requires Releasable(s, id)
    ensures Cleared(AfterFree(s, id)) == Cleared(s) && id in Sweepable(s)
  {
    var t := AfterFree(s, id);
    forall r ensures r in Sweepable(t) <==> r in Sweepable(s) && r != id {
      SweptOne(s, id, r);
    }
    assert Sweepable(s) == Sweepable(t) + {id};
    hide Releasable, Sweepable;
    ClearedIds(s, t, id);
  }

  lemma SweptOne(s: State, id: nat, r: nat)
    requires Releasable(s, id)
    ensures r in Sweepable(AfterFree(s, id)) <==> r in Sweepable(s) && r != id
  {
  }

  lemma ClearedIds(s: State, t: State, id: nat)
    requires id in s.retired && t == AfterFree(s, id) && Sweepable(s) == Sweepable(t) + {id} && id !in Sweepable(t)
    requires Sweepable(t) <= t.retired.Keys
    ensures Sweepable(s) <= s.retired.Keys && Cleared(t) == Cleared(s)
  {
    hide Sweepable;
    var less, all := set r | r in Sweepable(t) :: t.retired[r].entry.id, set r | r in Sweepable(s) :: s.retired[r].entry.id;
    assert all == less + {s.retired[id].entry.id};
    assert s.ledger - all == t.ledger - less;
    assert s.retired - Sweepable(s) == t.retired - Sweepable(t);
    assert s.holders - Sweepable(s) == t.holders - Sweepable(t);
  }

  lemma NothingOff(ledger: map<nat, Slot>, retired: map<nat, Record>, done: set<nat>)
    requires done <= retired.Keys
    ensures done == {} ==> ledger - (set r | r in done :: retired[r].entry.id) == ledger
  {
  }

  lemma ClearedNothing(s: State)
    requires forall r :: !Releasable(s, r)
    ensures Sweepable(s) == {} && Cleared(s) == s
  {
    hide Releasable;
    assert Sweepable(s) == {};
    NothingOff(s.ledger, s.retired, Sweepable(s));
  }

  /**
   * What the frees in between leave of the books `pre` when `ledger` has the entries that remain:
   * their bytes are owned and no others, and the segments that still own any are as they were.
   */
  ghost predicate Swept(pre: Books, post: Books, segmentSize: nat, ledger: map<nat, Slot>) {
    && WellKept(post, segmentSize) && OnlyFewer(pre, post) && Coupled(ledger, post)
    && forall s :: s in post.ids ==> UsedOf(post, s) > 0
  }

  lemma FreeingOpensNothing(pre: Books, post: Books)
    requires OnlyFewer(pre, post)
    ensures OpenSegments(post) <= OpenSegments(pre)
  {
  }

  lemma Smaller(a: set<nat>, b: set<nat>)
    requires a <= b
    ensures |a| <= |b|
  {
    assert b == a + (b - a);
  }

  // --- Nothing published lies in a closed segment ---

  ghost predicate Vacant(entries: Files, closed: set<nat>) {
    forall k :: k in entries && entries[k].Occupies() ==> entries[k].extent.segment !in closed
  }

  /** The same, but for keys that are about to change. */
  ghost predicate VacantBut(entries: Files, closed: set<nat>, keys: set<Key>) {
    forall k :: k in entries && k !in keys && entries[k].Occupies() ==> entries[k].extent.segment !in closed
  }

  lemma VacantAnyway(entries: Files, closed: set<nat>, keys: set<Key>)
    requires Vacant(entries, closed)
    ensures VacantBut(entries, closed, keys)
  {
  }

  lemma FewerVacant(entries: Files, pre: Books, post: Books)
    requires Vacant(entries, pre.closed) && OnlyFewer(pre, post)
    ensures Vacant(entries, post.closed)
  {
  }

  /** An epoch reopens every segment it lands in. */
  lemma PutVacant(index: Files, ch: Changes, all: Epoch, now: Files, closed: set<nat>)
    requires VacantBut(index, closed, ch.Keys) && PartDone(index, ch, all, now)
    ensures Vacant(now, closed - Segments(ch))
  {
    forall k | k in now && now[k].Occupies() ensures now[k].extent.segment !in closed - Segments(ch) {
      if k in ch {
        assert ch[k] == Some(now[k]);
      }
    }
  }

  /** A plan moves everything published out of the segment it closes. */
  lemma {:induction false} PlanVacant(entries: Files, closed: set<nat>, target: nat, moves: seq<Move>)
    requires Vacant(entries, closed) && Lists(Keys(moves), Residents(entries, target))
    ensures VacantBut(entries, closed + {target}, ChangesOf(moves).Keys)
  {
    DistinctMoves(moves, Residents(entries, target));
    ChangesOfMoves(moves);
    hide ChangesOf;
    forall k | k in Residents(entries, target) ensures k in ChangesOf(moves) {
      assert k in Keys(moves);
      var i :| 0 <= i < |moves| && Keys(moves)[i] == k;
      assert moves[i].key == k;
    }
  }

  lemma PlanLists(pre: Books, post: Books, mem: Memory, s: State, plan: Plan)
    requires plan.Planned? && Relocated(pre, post, mem, s.index, plan, s.minted)
    ensures Lists(Keys(plan.moves), Residents(s.index, plan.target))
  {
  }

  lemma SameOpen(pre: Books, post: Books)
    requires post.ids == pre.ids && post.closed == pre.closed
    ensures OpenSegments(post) == OpenSegments(pre)
  {
  }

  /** A published entry lies in an open segment. */
  lemma PublishedOpen(index: Files, b: Books, size: nat, k: Key)
    requires k in index && index[k].Occupies() && Vacant(index, b.closed) && WellKept(b, size) && OwnsAll(b, index[k].extent)
    ensures index[k].extent.segment in OpenSegments(b)
  {
    OwnersRegistered(b, size, index[k].extent);
  }

  // --- The epoch of a relocation ---

  ghost function ChangesOf(moves: seq<Move>): Changes {
    if moves == [] then map[]
    else var last := moves[|moves| - 1]; ChangesOf(moves[..|moves| - 1])[last.key := Some(last.entry)]
  }

  lemma ChangesOfNone(moves: seq<Move>)
    ensures ChangesOf(moves[..0]) == map[]
  {
  }

  lemma ChangesOfMore(moves: seq<Move>, i: nat)
    requires i < |moves|
    ensures ChangesOf(moves[..i + 1]) == ChangesOf(moves[..i])[moves[i].key := Some(moves[i].entry)]
  {
    assert moves[..i + 1][..i] == moves[..i];
  }

  lemma {:induction false} ChangesOfMoves(moves: seq<Move>)
    requires forall i, j :: 0 <= i < j < |moves| ==> moves[i].key != moves[j].key
    ensures forall i :: 0 <= i < |moves| ==> moves[i].key in ChangesOf(moves) && ChangesOf(moves)[moves[i].key] == Some(moves[i].entry)
    ensures forall k :: k in ChangesOf(moves) ==> exists i :: 0 <= i < |moves| && moves[i].key == k
  {
    if moves != [] {
      ChangesOfMoves(moves[..|moves| - 1]);
      assert forall i :: 0 <= i < |moves| - 1 ==> moves[..|moves| - 1][i] == moves[i];
    }
  }

  lemma DistinctMoves(moves: seq<Move>, all: set<Key>)
    requires Lists(Keys(moves), all)
    ensures forall i, j :: 0 <= i < j < |moves| ==> moves[i].key != moves[j].key
  {
    assert forall i :: 0 <= i < |moves| ==> Keys(moves)[i] == moves[i].key;
  }

  /** The copies can be published: each is private and goes under one key. */
  lemma {:induction false} RelocationPublishable(s: State, moves: seq<Move>, mem: Memory)
    requires forall i :: i in s.ledger ==> i < s.minted
    requires forall i :: 0 <= i < |moves| ==> moves[i].entry.id == s.minted + i
    requires forall i, j :: 0 <= i < j < |moves| ==> moves[i].key != moves[j].key
    ensures Publishable(AfterPlaces(s, moves, mem), ChangesOf(moves))
  {
    AdoptedSlots(s.ledger, moves, s.minted);
    ChangesOfMoves(moves);
    hide Adopted, ChangesOf, Publishable;
    PublishableMoves(AfterPlaces(s, moves, mem), moves, s.minted, ChangesOf(moves));
  }

  lemma PublishableMoves(t: State, moves: seq<Move>, first: nat, ch: Changes)
    requires forall i :: 0 <= i < |moves| ==> moves[i].entry.id == first + i
    requires forall i :: 0 <= i < |moves| ==> moves[i].entry.id in t.ledger && t.ledger[moves[i].entry.id] == Slot(moves[i].entry, Private)
    requires forall i :: 0 <= i < |moves| ==> moves[i].key in ch && ch[moves[i].key] == Some(moves[i].entry)
    requires forall k :: k in ch ==> exists i :: 0 <= i < |moves| && moves[i].key == k
    ensures Publishable(t, ch)
  {
    forall k | k in ch ensures ch[k].Some? && ch[k].value.id in t.ledger && t.ledger[ch[k].value.id] == Slot(ch[k].value, Private) {
      var i :| 0 <= i < |moves| && moves[i].key == k;
      assert t.ledger[moves[i].entry.id] == Slot(moves[i].entry, Private);
    }
    forall j, k | j in ch && k in ch && j != k ensures ch[j].value.id != ch[k].value.id {
      var i :| 0 <= i < |moves| && moves[i].key == j;
      var h :| 0 <= h < |moves| && moves[h].key == k;
      assert ch[j] == Some(moves[i].entry) && ch[k] == Some(moves[h].entry);
    }
  }

  /** A private entry published by a relocation is one of its copies. */
  lemma RelocationKeepsOthers(ledger: map<nat, Slot>, after: map<nat, Slot>, moves: seq<Move>, first: nat)
    requires forall i :: i in ledger ==> i < first && ledger[i].entry.id == i
    requires forall i :: 0 <= i < |moves| ==> moves[i].entry.id == first + i
    requires forall i, j :: 0 <= i < j < |moves| ==> moves[i].key != moves[j].key
    requires PrivateKept(Adopted(ledger, moves), after, ChangesOf(moves))
    ensures PrivateKept(ledger, after, map[])
  {
    AdoptedSlots(ledger, moves, first);
    ChangesOfMoves(moves);
    hide Adopted, ChangesOf;
    forall i | i in ledger ensures !PublishedBy(ChangesOf(moves), ledger[i].entry) {
    }
  }

  lemma CopiesByKey(entries: Files, moves: seq<Move>, first: nat)
    requires Copies(entries, Keys(moves), moves, first)
    ensures forall i :: 0 <= i < |moves| ==> CopyOf(entries, moves[i].key, moves[i], first + i)
  {
    assert forall i :: 0 <= i < |moves| ==> Keys(moves)[i] == moves[i].key;
  }

  lemma {:induction false} RelocationSameContent(entries: Files, moves: seq<Move>, first: nat)
    requires Copies(entries, Keys(moves), moves, first)
    requires forall i, j :: 0 <= i < j < |moves| ==> moves[i].key != moves[j].key
    ensures SameContent(entries, (entries + Added(ChangesOf(moves))) - Removed(entries, ChangesOf(moves)))
  {
    CopiesByKey(entries, moves, first);
    ChangesOfMoves(moves);
    hide ChangesOf, Copies;
    CopiedContent(entries, moves, first, ChangesOf(moves));
  }

  /** The epoch of a relocation is one a compaction may publish. */
  lemma {:induction false} RelocationRelocates(entries: Files, moves: seq<Move>, first: nat)
    requires Copies(entries, Keys(moves), moves, first)
    requires forall i, j :: 0 <= i < j < |moves| ==> moves[i].key != moves[j].key
    ensures Relocates(entries, ChangesOf(moves))
  {
    CopiesByKey(entries, moves, first);
    ChangesOfMoves(moves);
    hide ChangesOf, Copies;
    forall k | k in ChangesOf(moves) ensures k in entries && ChangesOf(moves)[k].Some? && SameBytes(entries[k], ChangesOf(moves)[k].value) {
      var i :| 0 <= i < |moves| && moves[i].key == k;
      assert CopyOf(entries, moves[i].key, moves[i], first + i);
    }
  }

  lemma CopiedContent(entries: Files, moves: seq<Move>, first: nat, ch: Changes)
    requires forall i :: 0 <= i < |moves| ==> CopyOf(entries, moves[i].key, moves[i], first + i)
    requires forall i :: 0 <= i < |moves| ==> moves[i].key in ch && ch[moves[i].key] == Some(moves[i].entry)
    requires forall k :: k in ch ==> exists i :: 0 <= i < |moves| && moves[i].key == k
    ensures SameContent(entries, (entries + Added(ch)) - Removed(entries, ch))
  {
    forall k | k in ch ensures k in entries && ch[k].Some? && SameBytes(entries[k], ch[k].value) {
      var i :| 0 <= i < |moves| && moves[i].key == k;
      assert CopyOf(entries, moves[i].key, moves[i], first + i);
    }
    assert Removed(entries, ch) == {};
  }

  /** Each nested compaction leaves strictly fewer open segments to the next. */
  lemma RelocationShrinks(pre: Books, post: Books, size: nat, threshold: real, target: nat, moves: seq<Move>)
    requires size > 0 && Target(pre, size, threshold, target) && Moved(pre, post, moves)
    requires post.ids == pre.ids && post.closed == pre.closed + {target}
    requires forall i, j :: 0 <= i < j < |moves| ==> moves[i].key != moves[j].key
    ensures OpenAfter(post, ChangesOf(moves)) == OpenSegments(pre) - {target}
    ensures |OpenAfter(post, ChangesOf(moves))| < |OpenSegments(pre)|
  {
    ChangesOfMoves(moves);
    hide ChangesOf, Owns;
    forall s | s in Segments(ChangesOf(moves)) ensures s in post.ids && s !in post.closed {
      var k :| k in ChangesOf(moves) && ChangesOf(moves)[k].Some? && ChangesOf(moves)[k].value.Shared? && ChangesOf(moves)[k].value.extent.segment == s;
      var i :| 0 <= i < |moves| && moves[i].key == k;
      assert Open(post, moves[i].entry.extent.segment);
    }
    hide Segments;
    assert OpenAfter(post, ChangesOf(moves)) == OpenSegments(pre) - {target};
  }

  lemma PlanShrinks(pre: Books, post: Books, mem: Memory, s: State, size: nat, threshold: real, plan: Plan)
    requires plan.Planned? && size > 0 && Target(pre, size, threshold, plan.target)
    requires post.ids == pre.ids && post.closed == pre.closed + {plan.target}
    requires Relocated(pre, post, mem, s.index, plan, s.minted)
    ensures OpenAfter(post, ChangesOf(plan.moves)) == OpenSegments(pre) - {plan.target}
    ensures |OpenAfter(post, ChangesOf(plan.moves))| < |OpenSegments(pre)|
  {
    DistinctMoves(plan.moves, Residents(s.index, plan.target));
    RelocationShrinks(pre, post, size, threshold, plan.target, plan.moves);
  }

  /** What a plan leaves behind: its target is the one segment the epoch does not open again. */
  lemma PlanReady(pre: Books, post: Books, mem: Memory, s: State, size: nat, threshold: real, plan: Plan)
    requires plan.Planned? && size > 0 && Target(pre, size, threshold, plan.target) && Vacant(s.index, pre.closed)
    requires post.ids == pre.ids && post.closed == pre.closed + {plan.target}
    requires Relocated(pre, post, mem, s.index, plan, s.minted)
    ensures OpenAfter(post, ChangesOf(plan.moves)) == OpenSegments(pre) - {plan.target}
    ensures |OpenAfter(post, ChangesOf(plan.moves))| < |OpenSegments(pre)|
    ensures VacantBut(s.index, post.closed, ChangesOf(plan.moves).Keys)
  {
    PlanShrinks(pre, post, mem, s, size, threshold, plan);
    PlanLists(pre, post, mem, s, plan);
    PlanVacant(s.index, pre.closed, plan.target, plan.moves);
  }

  // --- One relocation, from the plan to its commit ---

  lemma RelocationReady(s: State, b: Books, b': Books, mem: Memory, plan: Plan)
    requires Inv(s) && Coupled(s.ledger, b) && plan.Planned? && plan.target > 0
    requires Relocated(b, b', mem, s.index, plan, s.minted) && KeepsOwned(s, mem)
    ensures ReadyMoves(s, plan.moves, mem)
    ensures forall i, j :: 0 <= i < j < |plan.moves| ==> plan.moves[i].key != plan.moves[j].key
  {
    var moves := plan.moves;
    DistinctMoves(moves, Residents(s.index, plan.target));
    CopiesByKey(s.index, moves, s.minted);
    hide Inv, Coupled, Owns, Intact, Disjoint, KeepsOwned, Covered, Copies;
    forall i | 0 <= i < |moves|
      ensures moves[i].entry.id == s.minted + i && moves[i].entry.Occupies() && moves[i].entry.WellFormed()
      ensures Protocol.Fits(s, moves[i].entry.extent)
    {
      assert CopyOf(s.index, moves[i].key, moves[i], s.minted + i);
      assert Keys(moves)[i] == moves[i].key && moves[i].key in Keys(moves);
      IndexSlots(s, moves[i].key);
      FreshFits(s, b, moves[i].entry.extent);
    }
  }

  lemma CompactFailed(s: State, b: Books, b': Books, mem: Memory)
    requires Reachable(s) && Coupled(s.ledger, b) && Settled(s) && SameOwners(b, b') && KeepsOwned(s, mem)
    ensures var t := s.(mem := mem); Reachable(t) && Steps(s, t) && Coupled(t.ledger, b') && Settled(t)
  {
    hide Reachable, Steps, Path, Run, Coupled, SameOwners, KeepsOwned;
    CoupledSame(s.ledger, b, b');
    ScratchKeepsSettled(s, mem);
    hide Settled;
    assert Enabled(s, Scratch(mem)) && Next(s, Scratch(mem)) == s.(mem := mem);
    hide Next, Enabled;
    StepsOne(s, Scratch(mem));
    ReachableNext(s, Scratch(mem));
  }

  lemma ScratchKeepsSettled(s: State, mem: Memory)
    requires Settled(s)
    ensures Settled(s.(mem := mem))
  {
    forall r | r in s.retired ensures !Releasable(s.(mem := mem), r) {
      assert !Releasable(s, r);
    }
  }

  lemma PlacesKeepSettled(s: State, moves: seq<Move>, mem: Memory)
    requires Settled(s)
    ensures Settled(AfterPlaces(s, moves, mem))
  {
    forall r | r in s.retired ensures !Releasable(AfterPlaces(s, moves, mem), r) {
      assert !Releasable(s, r);
    }
  }

  lemma CompactPlanned(s: State, b: Books, b': Books, mem: Memory, plan: Plan)
    requires Reachable(s) && Coupled(s.ledger, b) && Settled(s) && KeepsOwned(s, mem)
    requires plan.Planned? && plan.target > 0 && Relocated(b, b', mem, s.index, plan, s.minted)
    ensures var t := AfterPlaces(s, plan.moves, mem);
      && Reachable(t) && Steps(s, t) && Coupled(t.ledger, b') && Settled(t)
      && Publishable(t, ChangesOf(plan.moves))
    ensures Copies(s.index, Keys(plan.moves), plan.moves, s.minted) && Moved(b, b', plan.moves)
    ensures forall i, j :: 0 <= i < j < |plan.moves| ==> plan.moves[i].key != plan.moves[j].key
  {
    hide Inv, Reachable, Steps, Path, Run, Coupled, Settled, KeepsOwned, Publishable, ReadyMoves, AfterPlaces, Covered, Owns, Enabled, Next;
    ReachableInv(s);
    LedgerApart(s);
    RelocationReady(s, b, b', mem, plan);
    MoveIds(s, plan.moves, mem);
    PlaceAll(s, plan.moves, mem);
    ReachableSteps(s, AfterPlaces(s, plan.moves, mem));
    AdoptedCoupled(s, b, b', mem, plan.moves);
    PlacesKeepSettled(s, plan.moves, mem);
    RelocationPublishable(s, plan.moves, mem);
  }

  lemma MoveIds(s: State, moves: seq<Move>, mem: Memory)
    requires ReadyMoves(s, moves, mem)
    ensures forall i :: 0 <= i < |moves| ==> moves[i].entry.id == s.minted + i
  {
  }

  lemma AdoptedCoupled(s: State, b: Books, b': Books, mem: Memory, moves: seq<Move>)
    requires Coupled(s.ledger, b) && Moved(b, b', moves) && forall i :: i in s.ledger ==> i < s.minted
    requires forall i :: 0 <= i < |moves| ==> moves[i].entry.id == s.minted + i
    ensures Coupled(AfterPlaces(s, moves, mem).ledger, b')
  {
    hide Coupled, Moved, Adopted;
    CoupledMoved(s.ledger, b, b', moves, s.minted);
  }

  /** The commit of a relocation is invisible. */
  lemma {:induction false} CompactDone(s: State, mem: Memory, moves: seq<Move>, ids: map<Key, nat>, u: State)
    requires Inv(s) && Copies(s.index, Keys(moves), moves, s.minted)
    requires forall i, j :: 0 <= i < j < |moves| ==> moves[i].key != moves[j].key
    requires forall i :: 0 <= i < |moves| ==> moves[i].entry.id == s.minted + i
    requires var t := AfterPlaces(s, moves, mem); var ch := ChangesOf(moves);
      && Steps(s, t) && Numbered(t, ch, ids) && Publishable(t, ch)
      && Steps(Commit(t, ch, ids), u)
      && SameContent(Commit(t, ch, ids).index, u.index)
      && PrivateKept(Commit(t, ch, ids).ledger, u.ledger, map[])
    ensures Steps(s, u) && SameContent(s.index, u.index) && PrivateKept(s.ledger, u.ledger, map[])
  {
    hide Inv, Steps, Path, Run, SameContent, PrivateKept, Publishable, Numbered, Copies, ChangesOf, Adopted, Commit, Enabled, Next;
    var t, ch := AfterPlaces(s, moves, mem), ChangesOf(moves);
    var c := Commit(t, ch, ids);
    LedgerApart(s);
    CommitFacts(t, ch, ids);
    RelocationRelocates(s.index, moves, s.minted);
    StepRelocation(t, ch, ids);
    StepsThen(s, t, c);
    StepsThen(s, c, u);
    RelocationSameContent(s.index, moves, s.minted);
    SameContentThen(s.index, c.index, u.index);
    PrivateKeptThen(t.ledger, c.ledger, u.ledger, ch);
    RelocationKeepsOthers(s.ledger, u.ledger, moves, s.minted);
  }

  /** A commit that only moves entries is one internal event. */
  lemma StepRelocation(t: State, ch: Changes, ids: map<Key, nat>)
    requires Numbered(t, ch, ids) && Publishable(t, ch) && Relocates(t.index, ch)
    ensures Steps(t, Commit(t, ch, ids))
  {
    hide Steps, Path, Run, Publishable, Numbered, Commit, Relocates;
    assert Next(t, Flush(ch, ids, None)) == Commit(t, ch, ids);
    StepsOne(t, Flush(ch, ids, None));
  }

  /** The index and the private entries after a commit. */
  lemma CommitFacts(t: State, ch: Changes, ids: map<Key, nat>)
    requires Numbered(t, ch, ids)
    ensures Commit(t, ch, ids).index == (t.index + Added(ch)) - Removed(t.index, ch)
    ensures PrivateKept(t.ledger, Commit(t, ch, ids).ledger, ch)
  {
    RelabelKeepsPrivate(t.ledger, ch, ids);
    hide Relabel, PrivateKept, Numbered, Bind;
    if Vacuous(t.index, ch) {
      assert (t.index + Added(ch)) - Removed(t.index, ch) == t.index;
      PrivateKeptSame(t.ledger, ch);
    }
  }

  lemma PrivateKeptSame(ledger: map<nat, Slot>, ch: Changes)
    ensures PrivateKept(ledger, ledger, ch)
  {
  }

  // --- One epoch ---

  /** An epoch that changes nothing leaves the state alone. */
  lemma NothingToTell(s: State, ch: Changes, ep: Epoch, now: Files)
    requires PartDone(s.index, ch, ep, now) && ep.entries == map[] && ep.removals == {}
    ensures Vacuous(s.index, ch) && now == s.index && Segments(ch) == {}
    ensures ep.ids == map[] && Numbered(s, ch, map[]) && Commit(s, ch, map[]) == s
  {
    forall k | k in ch ensures ch[k].None? && k !in s.index {
      assert ch[k].Some? ==> k in Added(ch);
      assert ch[k].None? && k in s.index ==> k in Removed(s.index, ch);
    }
    assert Replaced(s.index, ch) == {};
    hide Relabel, Bind;
  }

  lemma EpochNumbered(s: State, ch: Changes, ep: Epoch, now: Files)
    requires PartDone(s.index, ch, ep, now) && NumberedFrom(s.nextRetire, ep.ids)
    requires !(ep.entries == map[] && ep.removals == {})
    ensures Numbered(s, ch, ep.ids) && !Vacuous(s.index, ch) && Injective(ep.ids)
    ensures Update(|s.log| + 1, ep.entries, ep.removals, ep.ids) == UpdateOf(s, ch, ep.ids)
    ensures now == Protocol.Apply(s.index, UpdateOf(s, ch, ep.ids))
  {
    hide Added, Removed, Replaced, Injective, Restrict;
  }

  lemma EpochRecords(index: Files, ch: Changes, ep: Epoch, now: Files, u: nat)
    requires PartDone(index, ch, ep, now) && Injective(ep.ids)
    ensures ep.ids.Keys <= index.Keys && ep.ids.Keys <= ep.replaced.Keys
    ensures RecordsOf(ep.ids, ep.replaced, u) == NewRecords(index, ep.ids, u)
  {
    hide Added, Removed;
    assert ep.replaced.Keys == ep.ids.Keys;
    hide PartDone, Replaced;
  }

  function RecordsOf(ids: map<Key, nat>, replaced: Files, u: nat): map<nat, Record>
    requires ids.Keys <= replaced.Keys && Injective(ids)
  {
    map k | k in ids :: ids[k] := Record(k, replaced[k], u)
  }

  /** The state once every thread has been told about an epoch, before `#track`. */
  ghost function Told(s: State, ch: Changes, ep: Epoch, now: Files, u: Update): State
    requires ep.ids.Keys <= ep.replaced.Keys && Injective(ep.ids)
  {
    s.(index := now, files := Protocol.Apply(s.files, u), pins := Bind(s.files, s.pins, u),
       retired := s.retired + RecordsOf(ep.ids, ep.replaced, u.id),
       holders := s.holders + HeldByMain(ep.ids, RetainedIds(s.files, s.pins, u)),
       nextRetire := s.nextRetire + |ep.ids|,
       peers := Post(s.peers, u), ledger := Relabel(s.ledger, ch, ep.ids), log := s.log + [u], hist := s.hist + [now])
  }

  /** What an update replaces is retired, and this thread has applied it. */
  ghost function AfterRetire(s: State, ep: Epoch, u: Update): State
    requires ep.ids.Keys <= ep.replaced.Keys && Injective(ep.ids)
  {
    s.(files := Protocol.Apply(s.files, u), pins := Bind(s.files, s.pins, u),
       retired := s.retired + RecordsOf(ep.ids, ep.replaced, u.id),
       holders := s.holders + HeldByMain(ep.ids, RetainedIds(s.files, s.pins, u)))
  }

  ghost function AfterPost(s: State, ch: Changes, ids: map<Key, nat>, u: Update): State {
    s.(peers := Post(s.peers, u), ledger := Relabel(s.ledger, ch, ids), log := s.log + [u], hist := s.hist + [s.index])
  }

  lemma RetireThenPost(s: State, ch: Changes, ep: Epoch, now: Files, u: Update)
    requires ep.ids.Keys <= ep.replaced.Keys && Injective(ep.ids)
    ensures var v := s.(index := now, nextRetire := s.nextRetire + |ep.ids|);
      AfterPost(AfterRetire(v, ep, u), ch, ep.ids, u) == Told(s, ch, ep, now, u)
  {
    hide Protocol.Apply, Bind, RecordsOf, HeldByMain, RetainedIds, Post, Relabel, Injective;
  }

  lemma EpochShape(s: State, ch: Changes, ep: Epoch, now: Files)
    requires PartDone(s.index, ch, ep, now) && NumberedFrom(s.nextRetire, ep.ids)
    ensures ep.ids.Keys <= ep.replaced.Keys && Injective(ep.ids)
  {
  }

  lemma ToldIsCommit(s: State, ch: Changes, ep: Epoch, now: Files, u: Update)
    requires PartDone(s.index, ch, ep, now) && NumberedFrom(s.nextRetire, ep.ids)
    requires !(ep.entries == map[] && ep.removals == {})
    requires u == Update(|s.log| + 1, ep.entries, ep.removals, ep.ids)
    ensures ep.ids.Keys <= ep.replaced.Keys && Injective(ep.ids)
    ensures Numbered(s, ch, ep.ids) && !Vacuous(s.index, ch)
    ensures var t := Told(s, ch, ep, now, u);
      t.(acks := TrackedAcks(t.acks, t.peers.Keys, u.id, ep.ids.Values)) == Commit(s, ch, ep.ids)
  {
    EpochNumbered(s, ch, ep, now);
    EpochRecords(s.index, ch, ep, now, u.id);
    NewRecordsUpdate(s.index, ep.ids, u.id);
    var added, held, ledger := NewRecords(s.index, ep.ids, u.id), HeldByMain(ep.ids, RetainedIds(s.files, s.pins, u)), Relabel(s.ledger, ch, ep.ids);
    hide PartDone, NumberedFrom, RecordsOf, NewRecords, HeldByMain, Bind, RetainedIds, Relabel, Injective, Numbered, Vacuous, Replaced, TrackedAcks, Apply, Committed, Told;
    assert Commit(s, ch, ep.ids) == Committed(s, u, added, held, ledger);
    hide Commit;
    ToldIsCommitted(s, ch, ep, now, u);
  }

  lemma ToldIsCommitted(s: State, ch: Changes, ep: Epoch, now: Files, u: Update)
    requires ep.ids.Keys <= ep.replaced.Keys && Injective(ep.ids) && u.retired == ep.ids && now == Protocol.Apply(s.index, u)
    ensures var added := RecordsOf(ep.ids, ep.replaced, u.id); var t := Told(s, ch, ep, now, u);
      t.(acks := TrackedAcks(t.acks, t.peers.Keys, u.id, added.Keys)) ==
      Committed(s, u, added, HeldByMain(ep.ids, RetainedIds(s.files, s.pins, u)), Relabel(s.ledger, ch, ep.ids))
  {
    hide RecordsOf, HeldByMain, Bind, RetainedIds, Relabel, Injective, TrackedAcks, Apply;
    assert Post(s.peers, u).Keys == s.peers.Keys;
  }

  lemma CommitRepresents(s: State, b: Books, b': Books, ch: Changes, ids: map<Key, nat>)
    requires Reachable(s) && Coupled(s.ledger, b) && SameOwners(b, b') && Numbered(s, ch, ids) && Publishable(s, ch) && !Vacuous(s.index, ch)
    ensures var t := Commit(s, ch, ids); Reachable(t) && Coupled(t.ledger, b') && |t.log| == |s.log| + 1 && t.ledger == Relabel(s.ledger, ch, ids)
  {
    hide Inv, Reachable, Run, Coupled, SameOwners, Numbered, Publishable, Relabel, Bind, Post;
    ReachableInv(s);
    RelabelOwners(s, b, ch, ids);
    assert Enabled(s, Flush(ch, ids, None)) && Next(s, Flush(ch, ids, None)) == Commit(s, ch, ids);
    hide Enabled, Next;
    ReachableNext(s, Flush(ch, ids, None));
    CoupledSame(Relabel(s.ledger, ch, ids), b, b');
  }

  /** The main thread projects each version under one key. */
  lemma SeparateInMain(s: State, u: Update)
    requires Inv(s)
    ensures SeparateVersions(s.files, s.pins, u)
  {
    UniqueOwners(s);
    hide LedgerInv, RoleInv, RecordInv, AckInv, HeldForAcks, HoldersInv, VisibleInv, MainPinInv, PinnedInv, HoldInv, PeerInv;
  }

  /** Fresh retireIds have no record yet. */
  lemma FreshRecords(s: State, ids: map<Key, nat>)
    requires Inv(s) && NumberedFrom(s.nextRetire, ids)
    ensures forall k :: k in ids ==> ids[k] !in s.retired && ids[k] !in s.holders
  {
    hide LogInv, LedgerInv, RoleInv, AckInv, HeldForAcks, HoldersInv, VisibleInv, MainPinInv, PinnedInv, HoldInv, PeerInv;
    forall r | r in s.retired ensures r <= s.nextRetire {
      assert LoggedRecord(s.retired[r], r, s.log);
    }
  }

  /** Holding the retained ones among new records with no holder. */
  lemma HeldNew(holders: map<nat, set<Holder>>, ids: map<Key, nat>, retained: set<nat>)
    requires Injective(ids) && retained <= ids.Values && forall k :: k in ids ==> ids[k] !in holders
    ensures Hold(holders + NoHolders(ids.Values), retained, Main) == holders + HeldByMain(ids, retained)
  {
    HeldByMainIs(ids, retained);
    forall r | r in ids.Values ensures r !in holders {
      var k :| k in ids && ids[k] == r;
    }
    hide HeldByMain, Injective, Hold, NoHolders;
    HeldAmong(holders, ids.Values, retained);
  }

  lemma HeldAmong(holders: map<nat, set<Holder>>, added: set<nat>, retained: set<nat>)
    requires retained <= added && forall r :: r in added ==> r !in holders
    ensures Hold(holders + NoHolders(added), retained, Main) == holders + map r | r in added :: if r in retained then {Main} else {}
  {
    var none: set<Holder> := {};
    assert none + {Main} == {Main};
  }

  lemma RetainedAmong(files: Files, pins: Pins, u: Update)
    ensures RetainedIds(files, pins, u) <= u.retired.Values
  {
  }

  lemma HeldByMainIs(ids: map<Key, nat>, retained: set<nat>)
    requires Injective(ids)
    ensures HeldByMain(ids, retained) == map r | r in ids.Values :: if r in retained then {Main} else {}
  {
    var held := HeldByMain(ids, retained);
    forall r | r in ids.Values ensures r in held && held[r] == if r in retained then {Main} else {} {
      var k :| k in ids && ids[k] == r;
    }
  }

  function NoHolders(ids: set<nat>): map<nat, set<Holder>> {
    map r | r in ids :: {}
  }

  // --- What a commit leaves to be settled ---

  lemma CommitReleasable(s: State, ch: Changes, ids: map<Key, nat>, r: nat)
    requires Inv(s) && Settled(s) && Numbered(s, ch, ids) && !Vacuous(s.index, ch)
    requires Releasable(Commit(s, ch, ids), r)
    ensures r in NewRecords(s.index, ids, |s.log| + 1).Keys
  {
    hide Inv, Bind, Relabel, Post;
    if r in s.retired {
      assert !Releasable(s, r);
      OldRecord(s, r);
    }
  }

  lemma CommitSettles(s: State, ch: Changes, ids: map<Key, nat>)
    requires Inv(s) && Settled(s) && Numbered(s, ch, ids) && !Vacuous(s.index, ch)
    ensures forall r :: Releasable(Commit(s, ch, ids), r) ==> r in ids.Values
    ensures forall r :: r in ids.Values && r in Commit(s, ch, ids).retired ==> Commit(s, ch, ids).retired[r].updateId == |s.log| + 1
  {
    hide Inv, Settled, Vacuous, Releasable;
    NewRecordsUpdate(s.index, ids, |s.log| + 1);
    forall r | Releasable(Commit(s, ch, ids), r) ensures r in ids.Values {
      CommitReleasable(s, ch, ids, r);
    }
    CommitRetired(s, ch, ids);
  }

  lemma CommitRetired(s: State, ch: Changes, ids: map<Key, nat>)
    requires Numbered(s, ch, ids) && !Vacuous(s.index, ch)
    ensures Commit(s, ch, ids).retired == s.retired + NewRecords(s.index, ids, |s.log| + 1)
  {
    hide Relabel, Bind, Post, NewRecords, Vacuous;
  }

  lemma OldRecord(s: State, r: nat)
    requires Inv(s) && r in s.retired
    ensures r in s.holders && r <= s.nextRetire && s.retired[r].updateId <= |s.log|
  {
    hide LogInv, LedgerInv, RoleInv, AckInv, HeldForAcks, HoldersInv, VisibleInv, MainPinInv, PinnedInv, HoldInv, PeerInv;
    assert LoggedRecord(s.retired[r], r, s.log);
  }

  /** Every record a commit adds belongs to its update. */
  lemma NewRecordsUpdate(index: Files, ids: map<Key, nat>, u: nat)
    requires ids.Keys <= index.Keys && Injective(ids)
    ensures forall r :: r in NewRecords(index, ids, u) ==> NewRecords(index, ids, u)[r].updateId == u
    ensures NewRecords(index, ids, u).Keys == ids.Values
  {
  }

  // --- What a message or an exit leaves to be settled ---

  /** Only the last acknowledgement of an update lets its records go. */
  lemma AckReleases(s: State, l: nat, r: nat)
    requires Inv(s) && Settled(s) && l in s.peers && s.peers[l].outbox != [] && s.peers[l].outbox[0].Ack?
    requires Releasable(Served(s, l), r)
    ensures var u := s.peers[l].outbox[0].updateId; u in s.acks && s.acks[u].links == {l} && r in s.acks[u].retired
  {
    hide LogInv, LedgerInv, RoleInv, RecordInv, HeldForAcks, HoldersInv, VisibleInv, MainPinInv, PinnedInv, HoldInv, PeerInv, AckLinks;
    assert !Releasable(s, r);
  }

  lemma ReleaseReleases(s: State, l: nat, r: nat)
    requires Settled(s) && l in s.peers && s.peers[l].outbox != [] && s.peers[l].outbox[0].Release?
    requires Releasable(Served(s, l), r)
    ensures r == s.peers[l].outbox[0].retireId && r in s.retired && r in s.holders && Worker(l) in s.holders[r]
  {
    assert !Releasable(s, r);
  }

  lemma MutateReleases(s: State, l: nat)
    requires Settled(s) && l in s.peers && s.peers[l].outbox != [] && s.peers[l].outbox[0].Mutate?
    ensures Settled(Served(s, l))
  {
    forall r | r in s.retired ensures !Releasable(Served(s, l), r) {
      assert !Releasable(s, r);
    }
  }

  lemma UnpinReleases(s: State, e: Entry, r: nat)
    requires Settled(s) && e in s.pins.counts && Releasable(Unpinned(s, Main, e), r)
    ensures Freed(s.pins, e) == Some(r) && r in s.retired && r in s.holders && Main in s.holders[r]
  {
    UnpinnedMain(s, e);
    hide Unpinned, Freed, Protocol.Drop;
    assert !Releasable(s, r);
  }

  lemma ExitReleases(s: State, l: nat, r: nat)
    requires Inv(s) && Settled(s) && Releasable(AfterExit(s, l), r)
    ensures r in s.retired && r in s.holders
    ensures Worker(l) in s.holders[r] || exists u :: u in s.acks && s.acks[u].links == {l} && r in s.acks[u].retired
  {
    hide LogInv, LedgerInv, RoleInv, RecordInv, HeldForAcks, HoldersInv, VisibleInv, MainPinInv, PinnedInv, HoldInv, PeerInv, AckLinks;
    assert !Releasable(s, r);
    var u := s.retired[r].updateId;
    if s.holders[r] == {} {
      assert s.acks[u].links == {l} && r in s.acks[u].retired;
    }
  }

  /** An event that leaves records, holders and acknowledgements alone releases nothing. */
  lemma StaysSettled(s: State, t: State)
    requires Settled(s) && t.retired == s.retired && t.holders == s.holders && t.acks == s.acks
    ensures Settled(t)
  {
    forall r | r in t.retired ensures !Releasable(t, r) {
      assert !Releasable(s, r);
    }
  }

  /** An event that leaves the ledger alone leads from one represented state to the next. */
  lemma EventRepresents(s: State, ev: Event, b: Books)
    requires Reachable(s) && Enabled(s, ev) && Coupled(s.ledger, b) && Next(s, ev).ledger == s.ledger
    ensures Reachable(Next(s, ev)) && Coupled(Next(s, ev).ledger, b)
  {
    hide Reachable, Run, Enabled, Next, Coupled;
    ReachableNext(s, ev);
  }

  lemma ExitRepresents(s: State, l: nat, b: Books)
    requires Reachable(s) && Coupled(s.ledger, b) && l in s.peers && !s.peers[l].alive
    ensures Reachable(AfterExit(s, l)) && Coupled(AfterExit(s, l).ledger, b)
  {
    hide Reachable, Run, Coupled;
    assert Enabled(s, Exit(l)) && Next(s, Exit(l)) == AfterExit(s, l);
    EventRepresents(s, Exit(l), b);
  }

  lemma ServeKeepsLedger(s: State, l: nat)
    requires l in s.peers && s.peers[l].outbox != []
    ensures Served(s, l).ledger == s.ledger && Served(s, l).log == s.log
  {
    hide Hold, Acked, Served, Popped;
    PoppedThenServed(s, l);
  }

  lemma ServeIsEvent(s: State, l: nat)
    requires l in s.peers && s.peers[l].outbox != []
    ensures Enabled(s, Serve(l)) && Next(s, Serve(l)) == Served(s, l)
  {
    hide Served;
  }

  lemma ServeRepresents(s: State, l: nat, b: Books)
    requires Reachable(s) && Coupled(s.ledger, b) && l in s.peers && s.peers[l].outbox != []
    ensures Reachable(Served(s, l)) && Coupled(Served(s, l).ledger, b) && Served(s, l).log == s.log
  {
    hide Reachable, Run, Coupled, Served, Enabled, Next;
    ServeKeepsLedger(s, l);
    ServeIsEvent(s, l);
    EventRepresents(s, Serve(l), b);
  }

  lemma AnswerRepresents(s: State, q: Req, b: Books)
    requires Reachable(s) && Coupled(s.ledger, b) && q in s.calls.serving
    ensures Reachable(Answered(s, q)) && Coupled(Answered(s, q).ledger, b) && Answered(s, q).log == s.log
  {
    hide Reachable, Run, Coupled;
    assert Enabled(s, Answer(q)) && Next(s, Answer(q)) == Answered(s, q);
    hide Enabled, Next;
    EventRepresents(s, Answer(q), b);
  }

  // --- Which request an epoch belongs to ---

  lemma CommitIgnoresCalls(s: State, ch: Changes, ids: map<Key, nat>, calls: Calls)
    requires Numbered(s, ch, ids)
    ensures var t := s.(calls := calls); Numbered(t, ch, ids) && Commit(t, ch, ids) == Commit(s, ch, ids).(calls := calls)
    ensures Commit(s, ch, ids).calls == s.calls
  {
    hide Vacuous, Bind, Relabel, NewRecords, HeldByMain, TrackedAcks, Post, RetainedIds, Apply, Injective, Added, Removed, Protocol.Committed;
    if !Vacuous(s.index, ch) {
      var u := UpdateOf(s, ch, ids);
      CommittedIgnoresCalls(s, u, NewRecords(s.index, ids, u.id), HeldByMain(ids, RetainedIds(s.files, s.pins, u)), Relabel(s.ledger, ch, ids), calls);
    }
  }

  lemma CommittedIgnoresCalls(s: State, u: Update, added: map<nat, Record>, held: map<nat, set<Holder>>, ledger: map<nat, Slot>, calls: Calls)
    ensures Protocol.Committed(s.(calls := calls), u, added, held, ledger) == Protocol.Committed(s, u, added, held, ledger).(calls := calls)
    ensures Protocol.Committed(s, u, added, held, ledger).calls == s.calls
  {
    hide Bind, TrackedAcks, Post, Apply;
  }

  lemma PublishableIgnoresCalls(s: State, ch: Changes, calls: Calls)
    requires Publishable(s, ch)
    ensures Publishable(s.(calls := calls), ch)
  {
  }

  lemma PlaceIgnoresCalls(s: State, e: Entry, mem: Memory, calls: Calls)
    requires Placeable(s, e, mem)
    ensures Placeable(s.(calls := calls), e, mem)
  {
  }

  lemma ScratchIgnoresCalls(s: State, mem: Memory, calls: Calls)
    requires KeepsOwned(s, mem)
    ensures KeepsOwned(s.(calls := calls), mem)
  {
  }

  lemma NoOwner(calls: Calls)
    ensures MayCommit(calls, None)
  {
  }

  /** What the kernel does while it settles has nothing to do with requests. */
  lemma InternalCalls(s: State, ev: Event, calls: Calls)
    requires Internal(s, ev) && Enabled(s, ev)
    ensures var t := s.(calls := calls); Internal(t, ev) && Enabled(t, ev) && Next(t, ev) == Next(s, ev).(calls := calls)
    ensures Next(s, ev).calls == s.calls
  {
    hide Fits, KeepsOwned, Placeable, Relocates, Commit, Numbered, Publishable, MayCommit;
    match ev
    case Flush(ch, ids, owner) =>
      CommitIgnoresCalls(s, ch, ids, calls);
      PublishableIgnoresCalls(s, ch, calls);
      NoOwner(calls);
    case Place(e, mem) => PlaceIgnoresCalls(s, e, mem, calls);
    case Scratch(mem) => ScratchIgnoresCalls(s, mem, calls);
    case Free(id) =>
  }

  lemma {:induction false} PathCalls(s: State, t: State, states: seq<State>, events: seq<Event>, calls: Calls)
    requires Path(s, t, states, events)
    ensures Steps(s.(calls := calls), t.(calls := calls))
    ensures t.calls == s.calls
    decreases |events|
  {
    hide Enabled, Next, Internal;
    if |events| == 0 {
      StepsSame(s.(calls := calls));
    } else {
      var n := |events| - 1;
      assert Path(s, states[n], states[..n + 1], events[..n]);
      PathCalls(s, states[n], states[..n + 1], events[..n], calls);
      InternalCalls(states[n], events[n], calls);
      hide Path, Run;
      StepsOne(states[n].(calls := calls), events[n]);
      StepsThen(s.(calls := calls), states[n].(calls := calls), t.(calls := calls));
    }
  }

  /** An epoch committed for a request differs from the same epoch without one in its credit only. */
  lemma CreditedCommit(s: State, ch: Changes, ids: map<Key, nat>, q: Req, u: State)
    requires Reachable(s) && Numbered(s, ch, ids) && Publishable(s, ch) && q in s.calls.serving && q !in s.calls.credit
    requires Steps(Commit(s, ch, ids), u) && Settled(u)
    ensures var c := Credited(s, Commit(s, ch, ids), Some(q)); var t := u.(calls := c.calls);
      && c == Commit(s, ch, ids).(calls := c.calls) && c.calls.serving == s.calls.serving
      && u.calls == s.calls
      && c.calls.credit == (if Vacuous(s.index, ch) then s.calls.credit else s.calls.credit[q := |s.log| + 1])
      && Reachable(t) && Settled(t) && Steps(c, t)
  {
    var d := Commit(s, ch, ids);
    var c := Credited(s, d, Some(q));
    CommitCalls(s, ch, ids);
    hide Reachable, Run, Path, Numbered, Publishable, Commit, Vacuous, Settled, Enabled, Next;
    CreditOnly(s, d, q);
    hide Credited;
    CreditIsEvent(s, ch, ids, q);
    StepsIgnoreCalls(d, u, c.calls);
    hide Steps;
    ReachableNext(s, Flush(ch, ids, Some(q)));
    ReachableSteps(c, u.(calls := c.calls));
    StaysSettled(u, u.(calls := c.calls));
  }

  lemma CreditOnly(s: State, d: State, q: Req)
    requires d.calls == s.calls
    ensures var c := Credited(s, d, Some(q));
      && c == d.(calls := c.calls) && c.calls.serving == s.calls.serving
      && c.calls.credit == (if |d.log| > |s.log| then s.calls.credit[q := |d.log|] else s.calls.credit)
  {
    CreditIs(s, d, Some(q));
  }

  lemma NoCredit(s: State, d: State)
    ensures Credited(s, d, None) == d
  {
  }

  lemma CreditIsEvent(s: State, ch: Changes, ids: map<Key, nat>, q: Req)
    requires Numbered(s, ch, ids) && Publishable(s, ch) && q in s.calls.serving && q !in s.calls.credit
    ensures Enabled(s, Flush(ch, ids, Some(q)))
    ensures Next(s, Flush(ch, ids, Some(q))) == Credited(s, Commit(s, ch, ids), Some(q))
  {
    hide Numbered, Publishable, Commit, Credited;
  }

  lemma StepsIgnoreCalls(s: State, t: State, calls: Calls)
    requires Steps(s, t)
    ensures Steps(s.(calls := calls), t.(calls := calls)) && t.calls == s.calls
  {
    hide Path;
    var states: seq<State>, events: seq<Event> :| Path(s, t, states, events);
    PathCalls(s, t, states, events, calls);
  }

  lemma RecordsHeld(s: State)
    requires Inv(s)
    ensures s.holders.Keys == s.retired.Keys
  {
    hide LogInv, LedgerInv, RoleInv, RecordInv, AckInv, HeldForAcks, HoldersInv, VisibleInv, MainPinInv, PinnedInv, HoldInv, PeerInv;
  }

  lemma NothingReleasable(t: State)
    requires Settled(t)
    ensures forall r :: !Releasable(t, r)
  {
  }

  lemma LinkRepresents(s: State, b: Books)
    requires Reachable(s) && Coupled(s.ledger, b)
    ensures Reachable(AfterLink(s)) && Coupled(AfterLink(s).ledger, b)
  {
    hide Reachable, Run, Coupled;
    assert Enabled(s, NewLink) && Next(s, NewLink) == AfterLink(s);
    EventRepresents(s, NewLink, b);
  }

  lemma PinRepresents(s: State, key: Key, b: Books)
    requires Reachable(s) && Coupled(s.ledger, b) && key in s.files
    ensures var t := WithPins(s, Main, Acquire(s.pins, s.files[key])); Reachable(t) && Coupled(t.ledger, b)
  {
    hide Reachable, Run, Coupled, Acquire;
    assert Enabled(s, Pin(Main, key)) && Next(s, Pin(Main, key)) == WithPins(s, Main, Acquire(s.pins, s.files[key]));
    EventRepresents(s, Pin(Main, key), b);
  }

  lemma UnpinRepresents(s: State, e: Entry, b: Books)
    requires Reachable(s) && Coupled(s.ledger, b) && e in s.pins.counts
    ensures var t := Unpinned(s, Main, e); Reachable(t) && Coupled(t.ledger, b) && t.log == s.log
  {
    UnpinKeepsLedger(s, e);
    hide Reachable, Run, Coupled, Unpinned;
    assert Enabled(s, Unpin(Main, e)) && Next(s, Unpin(Main, e)) == Unpinned(s, Main, e);
    hide Enabled, Next;
    EventRepresents(s, Unpin(Main, e), b);
  }

  /** The main thread drops its own hold at once. */
  lemma UnpinnedMain(s: State, e: Entry)
    requires e in s.pins.counts
    ensures var freed := Freed(s.pins, e);
      Unpinned(s, Main, e) == s.(pins := Protocol.Drop(s.pins, e),
        holders := if freed.Some? && freed.value in s.holders then s.holders[freed.value := s.holders[freed.value] - {Main}] else s.holders)
  {
    hide Protocol.Drop, Freed;
  }

  lemma UnpinKeepsLedger(s: State, e: Entry)
    requires e in s.pins.counts
    ensures Unpinned(s, Main, e).ledger == s.ledger && Unpinned(s, Main, e).log == s.log
  {
    hide Protocol.Drop, Freed, WithPeer, Send;
    assert WithPins(s, Main, Protocol.Drop(s.pins, e)).ledger == s.ledger;
    assert WithPins(s, Main, Protocol.Drop(s.pins, e)).log == s.log;
    hide WithPins;
  }

  /** What can happen in a worker thread. */
  predicate Remote(ev: Event) {
    || ev.Attach? || ev.Receive? || ev.Request? || ev.Die?
    || ((ev.Pin? || ev.Unpin?) && ev.who.Worker?)
  }

  lemma OnePeerMoves(s: State, t: State, l: nat, p: Peer)
    requires t == s.(peers := t.peers)
    ensures WithPeer(t, l, p) == s.(peers := WithPeer(t, l, p).peers)
  {
  }

  lemma UnpinMovesPeers(s: State, l: nat, e: Entry)
    requires Running(s, Worker(l)) && e in PinsOf(s, Worker(l)).counts
    ensures Unpinned(s, Worker(l), e) == s.(peers := Unpinned(s, Worker(l), e).peers)
  {
    var q := s.peers[l].(pins := Protocol.Drop(s.peers[l].pins, e));
    var t := WithPeer(s, l, q);
    OnePeerMoves(s, s, l, q);
    var freed := Freed(s.peers[l].pins, e);
    if freed.Some? {
      OnePeerMoves(s, t, l, Send(t.peers[l], Release(freed.value)));
    }
    assert WithPins(s, Worker(l), q.pins) == t;
    hide Protocol.Drop, Freed, Send, WithPeer, WithPins;
  }

  lemma RemoteMovesPeers(s: State, ev: Event)
    requires Remote(ev) && Enabled(s, ev)
    ensures Next(s, ev) == s.(peers := Next(s, ev).peers)
  {
    hide Unpinned, Received, Acquire, Send, Queue;
    if ev.Unpin? {
      UnpinMovesPeers(s, ev.who.link, ev.version);
    }
  }

  lemma RemoteRepresents(s: State, ev: Event, b: Books)
    requires Reachable(s) && Coupled(s.ledger, b) && Remote(ev) && Enabled(s, ev)
    ensures Next(s, ev) == s.(peers := Next(s, ev).peers)
    ensures Reachable(Next(s, ev)) && Coupled(Next(s, ev).ledger, b)
  {
    hide Reachable, Run, Coupled, Enabled, Next;
    RemoteMovesPeers(s, ev);
    EventRepresents(s, ev, b);
  }

  // --- Private entries ---

  predicate IsPrivate(ledger: map<nat, Slot>, e: Entry) {
    e.id in ledger && ledger[e.id] == Slot(e, Private)
  }

  /** A new private entry, with or without bytes of its own. */
  ghost function AfterAllocate(s: State, e: Entry, mem: Memory): State {
    if e.Occupies() then AfterPlace(s, e, mem) else AfterMint(s, e)
  }

  lemma AllocateRepresents(s: State, b: Books, b': Books, e: Entry, mem: Memory)
    requires Reachable(s) && Coupled(s.ledger, b) && Settled(s) && e.id == s.minted && e.WellFormed()
    requires OwnedKept(b, s.mem, mem) && s.mem.Keys <= mem.Keys
    requires if e.Occupies() then Gained(b, b', e.extent) && Intact(mem, e) else b' == b
    ensures var t := AfterAllocate(s, e, mem); Reachable(t) && Coupled(t.ledger, b') && Settled(t) && t.log == s.log && IsPrivate(t.ledger, e)
  {
    hide Reachable, Run, Coupled, Settled, Inv, OwnedKept, Intact, Owns, Releasable;
    ReachableInv(s);
    LedgerApart(s);
    StaysSettled(s, AfterAllocate(s, e, mem));
    if e.Occupies() {
      FreshFits(s, b, e.extent);
      OwnedBytesKept(s, b, mem);
      CoupledGain(s.ledger, b, b', e.id, Slot(e, Private));
      hide KeepsOwned, Protocol.Fits;
      assert Enabled(s, Place(e, mem)) && Next(s, Place(e, mem)) == AfterPlace(s, e, mem);
      hide Enabled, Next;
      ReachableNext(s, Place(e, mem));
    } else {
      CoupledMint(s.ledger, b, e.id, Slot(e, Private));
      assert Enabled(s, Mint(e)) && Next(s, Mint(e)) == AfterMint(s, e);
      hide Enabled, Next;
      ReachableNext(s, Mint(e));
    }
  }

  lemma DiscardRepresents(s: State, b: Books, b': Books, e: Entry)
    requires Reachable(s) && Coupled(s.ledger, b) && Settled(s) && IsPrivate(s.ledger, e)
    requires if e.Occupies() then Lost(b, b', e.extent) else b' == b
    ensures var t := AfterAbandon(s, e.id); Reachable(t) && Coupled(t.ledger, b') && Settled(t) && t.log == s.log
  {
    hide Reachable, Run, Coupled, Settled, Inv, Lost, Owns, Releasable, Apart;
    ReachableInv(s);
    LedgerApart(s);
    SelfOwners(b);
    StaysSettled(s, AfterAbandon(s, e.id));
    CoupledLose(s.ledger, b, b', e.id);
    assert Enabled(s, Abandon(e.id)) && Next(s, Abandon(e.id)) == AfterAbandon(s, e.id);
    hide Enabled, Next;
    ReachableNext(s, Abandon(e.id));
  }

  lemma PrivateOwned(s: State, b: Books, e: Entry)
    requires Coupled(s.ledger, b) && IsPrivate(s.ledger, e)
    ensures e.Occupies() ==> OwnsAll(b, e.extent)
  {
    hide Coupled, OwnsAll;
    if e.Occupies() {
      EntryOwned(s.ledger, b, e.id);
    }
  }

  /** What `ch` had staged under `key` is given up. */
  ghost function AfterSupersede(s: State, ch: Changes, key: Key): State {
    if key in ch && ch[key].Some? then AfterAbandon(s, ch[key].value.id) else s
  }

  /** Staging a private entry, or a removal, over what was staged before. */
  lemma StageKeepsPublishable(s: State, ch: Changes, key: Key, change: Option<Entry>)
    requires Publishable(s, ch)
    requires change.Some? ==> IsPrivate(s.ledger, change.value) && !PublishedBy(ch, change.value)
    ensures Publishable(AfterSupersede(s, ch, key), ch[key := change])
  {
    if change.Some? {
      forall k | k in ch && ch[k].Some? ensures ch[k].value.id != change.value.id {
        assert s.ledger[ch[k].value.id] == Slot(ch[k].value, Private);
      }
    }
  }

  /** What an attempt made, staged over `ch` in order, and the stale companions it drops. */
  ghost function Overlay(ch: Changes, made: seq<(Key, Entry)>): Changes {
    if made == [] then ch
    else var last := made[|made| - 1]; Overlay(ch, made[..|made| - 1])[last.0 := Some(last.1)]
  }

  ghost function Dropping(ch: Changes, dropped: seq<Key>): Changes {
    if dropped == [] then ch else Dropping(ch, dropped[..|dropped| - 1])[dropped[|dropped| - 1] := None]
  }

  lemma OverlayMore(ch: Changes, made: seq<(Key, Entry)>, i: nat)
    requires i < |made|
    ensures Overlay(ch, made[..0]) == ch
    ensures Overlay(ch, made[..i + 1]) == Overlay(ch, made[..i])[made[i].0 := Some(made[i].1)]
  {
    assert made[..i + 1][..i] == made[..i];
  }

  lemma DroppingMore(ch: Changes, dropped: seq<Key>, i: nat)
    requires i < |dropped|
    ensures Dropping(ch, dropped[..0]) == ch
    ensures Dropping(ch, dropped[..i + 1]) == Dropping(ch, dropped[..i])[dropped[i] := None]
  {
    assert dropped[..i + 1][..i] == dropped[..i];
  }

  /** The entries of an attempt are private, each listed once, and none is staged yet. */
  ghost predicate Unstaged(ledger: map<nat, Slot>, ch: Changes, made: seq<(Key, Entry)>) {
    && (forall i :: 0 <= i < |made| ==> IsPrivate(ledger, made[i].1) && !PublishedBy(ch, made[i].1))
    && (forall i, j :: 0 <= i < j < |made| ==> made[i].1.id != made[j].1.id)
  }

  /** Staging the first entry of an attempt leaves the others private and unstaged. */
  lemma UnstagedLess(s: State, ch: Changes, made: seq<(Key, Entry)>)
    requires made != [] && Unstaged(s.ledger, ch, made) && Publishable(s, ch)
    ensures Unstaged(AfterSupersede(s, ch, made[0].0).ledger, ch[made[0].0 := Some(made[0].1)], made[1..])
  {
    var key, rest := made[0].0, made[1..];
    var t := AfterSupersede(s, ch, key);
    assert key in ch && ch[key].Some? ==> s.ledger[ch[key].value.id] == Slot(ch[key].value, Private);
    forall i | 0 <= i < |rest|
      ensures IsPrivate(t.ledger, rest[i].1) && !PublishedBy(ch[key := Some(made[0].1)], rest[i].1)
    {
      assert rest[i] == made[i + 1];
      assert key in ch ==> ch[key] != Some(rest[i].1);
    }
  }

  ghost function Ids(made: seq<(Key, Entry)>): set<nat> {
    set i | 0 <= i < |made| :: made[i].1.id
  }

  /** Discarding the first entry of an attempt leaves the others private. */
  lemma DiscardedLess(ledger: map<nat, Slot>, made: seq<(Key, Entry)>)
    requires made != [] && Unstaged(ledger, map[], made)
    ensures Unstaged(ledger - {made[0].1.id}, map[], made[1..])
    ensures Ids(made) == {made[0].1.id} + Ids(made[1..])
  {
    assert forall i :: 0 <= i < |made[1..]| ==> made[1..][i] == made[i + 1];
    forall x ensures x in Ids(made) <==> x == made[0].1.id || x in Ids(made[1..]) {
      if x in Ids(made) {
        var i :| 0 <= i < |made| && made[i].1.id == x;
        assert i > 0 ==> made[1..][i - 1].1.id == x;
      }
    }
  }

  lemma OverlayNone(ch: Changes, made: seq<(Key, Entry)>)
    ensures Overlay(ch, made[..0]) == ch && made[0..] == made
  {
  }

  lemma DroppingNone(ch: Changes, dropped: seq<Key>)
    ensures Dropping(ch, dropped[..0]) == ch
  {
  }

  lemma FirstUnstaged(ledger: map<nat, Slot>, ch: Changes, made: seq<(Key, Entry)>)
    requires made != [] && Unstaged(ledger, ch, made)
    ensures IsPrivate(ledger, made[0].1) && !PublishedBy(ch, made[0].1)
  {
    hide PublishedBy;
  }

  lemma IdsSplit(made: seq<(Key, Entry)>)
    ensures Ids(made[..0]) == {} && made[0..] == made
  {
  }

  lemma IdsMore(made: seq<(Key, Entry)>, i: nat)
    requires i < |made|
    ensures Ids(made[..i + 1]) == Ids(made[..i]) + {made[i].1.id}
  {
    var less, more := made[..i], made[..i + 1];
    assert more == less + [made[i]];
    forall x ensures x in Ids(more) <==> x in Ids(less) || x == made[i].1.id {
      if x in Ids(less) {
        var j :| 0 <= j < |less| && less[j].1.id == x;
        assert more[j].1.id == x;
      }
      if x == made[i].1.id {
        assert more[i].1.id == x;
      }
    }
  }

  // --- Reading a file into its extent ---

  lemma ReserveRepresents(s: State, b: Books, b': Books, x: Extent, mem: Memory)
    requires Reachable(s) && Coupled(s.ledger, b) && Settled(s) && x.length > 0 && Gained(b, b', x) && Extends(s, x, mem)
    ensures var t := AfterReserve(s, x, mem); Reachable(t) && Coupled(t.ledger, b') && Settled(t) && Filling(t, s.minted)
  {
    hide Reachable, Run, Coupled, Settled, Inv, Owns, Releasable, Extends;
    ReachableInv(s);
    LedgerApart(s);
    StaysSettled(s, AfterReserve(s, x, mem));
    FreshFits(s, b, x);
    CoupledGain(s.ledger, b, b', s.minted, Slot(Shared(s.minted, s.minted, x, []), Reserved));
    hide Protocol.Fits, Gained;
    assert Enabled(s, Reserve(x, mem)) && Next(s, Reserve(x, mem)) == AfterReserve(s, x, mem);
    hide Enabled, Next;
    ReachableNext(s, Reserve(x, mem));
  }

  lemma WrittenWithin(s: State, id: nat, x: Extent, at: nat, data: seq<byte>, mem: Memory)
    requires Filling(s, id) && s.ledger[id].entry.extent == x && at + |data| <= x.length
    requires Written(s.mem, mem, x.segment, x.offset + at, data)
    ensures WritesWithin(s, id, mem)
  {
  }

  lemma FillRepresents(s: State, b: Books, id: nat, mem: Memory)
    requires Reachable(s) && Coupled(s.ledger, b) && Settled(s) && Filling(s, id) && WritesWithin(s, id, mem)
    ensures var t := s.(mem := mem); Reachable(t) && Coupled(t.ledger, b) && Settled(t)
  {
    hide Reachable, Run, Coupled, Settled, WritesWithin;
    ScratchKeepsSettled(s, mem);
    assert Enabled(s, Fill(id, mem)) && Next(s, Fill(id, mem)) == s.(mem := mem);
    hide Enabled, Next;
    ReachableNext(s, Fill(id, mem));
  }

  lemma CompleteRepresents(s: State, b: Books, id: nat, bytes: seq<byte>)
    requires Reachable(s) && Coupled(s.ledger, b) && Settled(s) && Filling(s, id) && Completes(s, id, bytes)
    ensures var t := AfterComplete(s, id, bytes); Reachable(t) && Coupled(t.ledger, b) && Settled(t) && t.log == s.log
  {
    hide Reachable, Run, Coupled, Settled, Completes, Releasable, HasOwner, Owns;
    StaysSettled(s, AfterComplete(s, id, bytes));
    SameExtentCoupled(s.ledger, b, id, AfterComplete(s, id, bytes).ledger[id]);
    assert Enabled(s, Complete(id, bytes)) && Next(s, Complete(id, bytes)) == AfterComplete(s, id, bytes);
    hide Enabled, Next;
    ReachableNext(s, Complete(id, bytes));
  }

  lemma SameExtentCoupled(ledger: map<nat, Slot>, b: Books, id: nat, slot: Slot)
    requires Coupled(ledger, b) && id in ledger && ledger[id].entry.Shared? && slot.entry.Shared? && slot.entry.extent == ledger[id].entry.extent
    ensures Coupled(ledger[id := slot], b)
  {
    hide Owns;
    forall a ensures HasOwner(ledger[id := slot], a) <==> HasOwner(ledger, a) {
      if HasOwner(ledger, a) {
        var i :| i in ledger && ledger[i].entry.Shared? && Covers(ledger[i].entry.extent, a);
        assert i in ledger[id := slot] && ledger[id := slot][i].entry.extent == ledger[i].entry.extent;
      }
      if HasOwner(ledger[id := slot], a) {
        var i :| i in ledger[id := slot] && ledger[id := slot][i].entry.Shared? && Covers(ledger[id := slot][i].entry.extent, a);
        assert i in ledger && ledger[i].entry.extent == ledger[id := slot][i].entry.extent;
      }
    }
    hide HasOwner;
  }

  lemma AbandonRepresents(s: State, b: Books, b': Books, id: nat)
    requires Reachable(s) && Coupled(s.ledger, b) && Settled(s) && Filling(s, id) && s.ledger[id].entry.Occupies()
    requires Lost(b, b', s.ledger[id].entry.extent)
    ensures var t := AfterAbandon(s, id); Reachable(t) && Coupled(t.ledger, b') && Settled(t) && t.log == s.log
  {
    hide Reachable, Run, Coupled, Settled, Inv, Lost, Owns, Releasable, Apart;
    ReachableInv(s);
    LedgerApart(s);
    StaysSettled(s, AfterAbandon(s, id));
    CoupledLose(s.ledger, b, b', id);
    assert Enabled(s, Abandon(id)) && Next(s, Abandon(id)) == AfterAbandon(s, id);
    hide Enabled, Next;
    ReachableNext(s, Abandon(id));
  }
}
