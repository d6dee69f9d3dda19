/**
 * Runs of the main kernel's own events, and how the bytes the cache considers owned follow the
 * entries the protocol accounts for.
 */
module Upkeep {
  import opened Layout
  import opened Registry
  import opened Ownership
  import opened Relocation
  import opened Protocol
  import opened Invariant
  import opened Safety

  // --- Runs ---

  /** What settling and compaction do on their own. */
  ghost predicate Internal(s: State, ev: Event) {
    || ev.Free? || ev.Place? || ev.Scratch?
    || (ev.Flush? && ev.owner.None? && Relocates(s.index, ev.changes))
  }

  /** The epoch only replaces published versions by copies of theirs. */
  ghost predicate Relocates(index: Files, ch: Changes) {
    forall k :: k in ch ==> k in index && ch[k].Some? && SameBytes(index[k], ch[k].value)
  }

  /** A version and one of its copies. */
  predicate SameBytes(e: Entry, f: Entry) {
    e == f || (e.Shared? && f.Shared? && e.bytes == f.bytes && e.origin == f.origin)
  }

  ghost predicate Path(s: State, t: State, states: seq<State>, events: seq<Event>) {
    && Run(states, events)
    && states[0] == s && states[|events|] == t
    && forall i :: 0 <= i < |events| ==> Internal(states[i], events[i])
  }

  ghost predicate Steps(s: State, t: State) {
    exists states, events :: Path(s, t, states, events)
  }

  lemma StepsSame(s: State)
    ensures Steps(s, s)
  {
    assert Path(s, s, [s], []);
  }

  lemma StepsOne(s: State, ev: Event)
    requires Enabled(s, ev) && Internal(s, ev)
    ensures Steps(s, Next(s, ev))
  {
    hide Next, Enabled;
    assert Path(s, Next(s, ev), [s, Next(s, ev)], [ev]);
  }

  lemma StepsThen(s: State, t: State, u: State)
    requires Steps(s, t) && Steps(t, u)
    ensures Steps(s, u)
  {
    hide Next, Enabled;
    var states, events :| Path(s, t, states, events);
    var states', events' :| Path(t, u, states', events');
    Concatenated(states, events, states', events');
    assert Path(s, u, states + states'[1..], events + events');
  }

  lemma Concatenated(states: seq<State>, events: seq<Event>, states': seq<State>, events': seq<Event>)
    requires Run(states, events) && Run(states', events') && states[|events|] == states'[0]
    ensures Run(states + states'[1..], events + events')
    ensures (states + states'[1..])[|events + events'|] == states'[|events'|]
  {
    hide Next, Enabled;
    var all, evs := states + states'[1..], events + events';
    forall i | 0 <= i < |evs| ensures Enabled(all[i], evs[i]) && all[i + 1] == Next(all[i], evs[i]) {
      if i < |events| {
        assert all[i] == states[i] && all[i + 1] == states[i + 1] && evs[i] == events[i];
      } else {
        var j := i - |events|;
        assert all[i] == states'[j] && all[i + 1] == states'[j + 1] && evs[i] == events'[j];
      }
    }
  }

  lemma InitialReachable()
    ensures Reachable(Initial)
  {
    var states, events: seq<Event> := [Initial], [];
    assert Run(states, events) && states[0] == Initial && states[|events|] == Initial;
  }

  lemma ReachableNext(s: State, ev: Event)
    requires Reachable(s) && Enabled(s, ev)
    ensures Reachable(Next(s, ev))
  {
    hide Next, Enabled;
    var states, events :| Run(states, events) && states[0] == Initial && states[|events|] == s;
    Concatenated(states, events, [s, Next(s, ev)], [ev]);
    assert Run(states + [s, Next(s, ev)][1..], events + [ev]);
    assert (states + [s, Next(s, ev)][1..])[0] == Initial;
  }

  lemma ReachableSteps(s: State, t: State)
    requires Reachable(s) && Steps(s, t)
    ensures Reachable(t)
  {
    hide Next, Enabled;
    var states, events :| Run(states, events) && states[0] == Initial && states[|events|] == s;
    var states', events' :| Path(s, t, states', events');
    Concatenated(states, events, states', events');
    assert (states + states'[1..])[0] == Initial;
  }

  // --- What a thread can tell apart ---

  /** The same keys with the same content, perhaps in other versions. */
  ghost predicate SameContent(a: Files, b: Files) {
    a.Keys == b.Keys && forall k :: k in a ==> SameBytes(a[k], b[k])
  }

  lemma SameContentAlways(a: Files)
    ensures SameContent(a, a)
  {
  }

  lemma SameContentThen(a: Files, b: Files, c: Files)
    requires SameContent(a, b) && SameContent(b, c)
    ensures SameContent(a, c)
  {
  }

  // --- Bytes the cache considers owned are those of the entries in the ledger ---

  ghost predicate HasOwner(ledger: map<nat, Slot>, a: Addr) {
    exists i :: i in ledger && ledger[i].entry.Shared? && Covers(ledger[i].entry.extent, a)
  }

  ghost predicate Coupled(ledger: map<nat, Slot>, b: Books) {
    forall a :: Owns(b, a) <==> HasOwner(ledger, a)
  }

  lemma NothingOwned()
    ensures Coupled(map[], Registry.Books([], map[], map[], {}))
  {
  }

  lemma CoupledSame(ledger: map<nat, Slot>, b: Books, b': Books)
    requires Coupled(ledger, b) && SameOwners(b, b')
    ensures Coupled(ledger, b')
  {
    hide Owns, HasOwner;
  }

  lemma CoupledGain(ledger: map<nat, Slot>, b: Books, b': Books, i: nat, slot: Slot)
    requires Coupled(ledger, b) && i !in ledger && slot.entry.Shared? && Gained(b, b', slot.entry.extent)
    ensures Coupled(ledger[i := slot], b')
  {
    hide Owns, Covers;
    forall a ensures HasOwner(ledger[i := slot], a) <==> HasOwner(ledger, a) || Covers(slot.entry.extent, a) {
      if HasOwner(ledger, a) {
        var j :| j in ledger && ledger[j].entry.Shared? && Covers(ledger[j].entry.extent, a);
        assert ledger[i := slot][j] == ledger[j];
      }
      assert ledger[i := slot][i] == slot;
    }
    hide HasOwner;
  }

  /** An entry without bytes of its own owns nothing. */
  lemma CoupledMint(ledger: map<nat, Slot>, b: Books, i: nat, slot: Slot)
    requires Coupled(ledger, b) && i !in ledger && !slot.entry.Occupies()
    ensures Coupled(ledger[i := slot], b)
  {
    hide Owns;
    forall a ensures HasOwner(ledger[i := slot], a) <==> HasOwner(ledger, a) {
      if HasOwner(ledger, a) {
        var j :| j in ledger && ledger[j].entry.Shared? && Covers(ledger[j].entry.extent, a);
        assert ledger[i := slot][j] == ledger[j];
      }
    }
    hide HasOwner;
  }

  ghost predicate Apart(ledger: map<nat, Slot>) {
    forall i, j :: i in ledger && j in ledger && i != j && ledger[i].entry.Shared? && ledger[j].entry.Shared? ==>
      Disjoint(ledger[i].entry.extent, ledger[j].entry.extent)
  }

  lemma CoupledLose(ledger: map<nat, Slot>, b: Books, b': Books, i: nat)
    requires Coupled(ledger, b) && i in ledger && Apart(ledger)
    requires if ledger[i].entry.Occupies() then Lost(b, b', ledger[i].entry.extent) else SameOwners(b, b')
    ensures Coupled(ledger - {i}, b')
  {
    hide Owns;
    var e := ledger[i].entry;
    forall a ensures HasOwner(ledger - {i}, a) <==> HasOwner(ledger, a) && !(e.Occupies() && Covers(e.extent, a)) {
      if HasOwner(ledger - {i}, a) {
        var j :| j in ledger - {i} && ledger[j].entry.Shared? && Covers(ledger[j].entry.extent, a);
        assert e.Occupies() ==> Disjoint(ledger[j].entry.extent, e.extent);
      }
      if HasOwner(ledger, a) && !(e.Occupies() && Covers(e.extent, a)) {
        var j :| j in ledger && ledger[j].entry.Shared? && Covers(ledger[j].entry.extent, a);
        assert j in ledger - {i} && (ledger - {i})[j] == ledger[j];
      }
    }
    hide HasOwner, Covers, Disjoint;
  }

  /** What an entry in the ledger covers is owned. */
  lemma EntryOwned(ledger: map<nat, Slot>, b: Books, i: nat)
    requires Coupled(ledger, b) && i in ledger && ledger[i].entry.Shared?
    ensures OwnsAll(b, ledger[i].entry.extent)
  {
    hide Owns;
    forall a | Covers(ledger[i].entry.extent, a) ensures Owns(b, a) {
      assert HasOwner(ledger, a);
    }
  }

  /** An extent nobody owned overlaps no entry. */
  lemma FreshFits(s: State, b: Books, x: Extent)
    requires Coupled(s.ledger, b) && OwnsNone(b, x) && x.length > 0
    ensures Fits(s, x)
  {
    forall i | i in s.ledger && s.ledger[i].entry.Shared? ensures Disjoint(s.ledger[i].entry.extent, x) {
      EntryOwned(s.ledger, b, i);
      DisjointMeansNoSharedByte(s.ledger[i].entry.extent, x);
    }
  }

  lemma OwnedBytesKept(s: State, b: Books, mem: Memory)
    requires Coupled(s.ledger, b) && OwnedKept(b, s.mem, mem) && s.mem.Keys <= mem.Keys
    ensures KeepsOwned(s, mem)
  {
    hide Owns;
    forall i, a | i in s.ledger && s.ledger[i].entry.Shared? && Covers(s.ledger[i].entry.extent, a) && a in s.mem
      ensures mem[a] == s.mem[a]
    {
      assert HasOwner(s.ledger, a);
    }
  }

  // --- What the invariant says about the ledger ---

  lemma LedgerApart(s: State)
    requires Inv(s)
    ensures Apart(s.ledger) && s.minted !in s.ledger
    ensures forall i :: i in s.ledger ==> i < s.minted && s.ledger[i].entry.id == i
  {
    hide LogInv, RoleInv, RecordInv, AckInv, HeldForAcks, HoldersInv, VisibleInv, MainPinInv, PinnedInv, HoldInv, PeerInv, Intact, Disjoint, Covers;
  }

  /** Every published entry is in the ledger, well formed and intact. */
  lemma IndexSlots(s: State, k: Key)
    requires Inv(s) && k in s.index
    ensures s.index[k].id in s.ledger && s.ledger[s.index[k].id] == Slot(s.index[k], Published(k))
    ensures s.index[k].WellFormed() && (s.index[k].Shared? ==> Intact(s.mem, s.index[k]))
  {
    hide LogInv, RecordInv, AckInv, HeldForAcks, HoldersInv, VisibleInv, MainPinInv, PinnedInv, HoldInv, PeerInv, Intact, Disjoint, Covers, SlotRoles, RecordRoles;
  }

  /** A commit changes who owns an entry, not what is owned. */
  lemma RelabelOwners(s: State, b: Books, ch: Changes, ids: map<Key, nat>)
    requires Numbered(s, ch, ids) && Coupled(s.ledger, b) && Inv(s)
    ensures Coupled(Relabel(s.ledger, ch, ids), b)
  {
    var after := Relabel(s.ledger, ch, ids);
    RelabelEntries(s.ledger, ch, ids);
    forall i | i in s.ledger && s.ledger[i].entry.Occupies() ensures i in after {
      DroppedIsEmpty(s, ch, ids, i);
    }
    hide Inv, Owns, Relabel, Numbered;
    forall a ensures HasOwner(after, a) <==> HasOwner(s.ledger, a) {
      if HasOwner(s.ledger, a) {
        var i :| i in s.ledger && s.ledger[i].entry.Shared? && Covers(s.ledger[i].entry.extent, a);
        assert i in after && after[i].entry == s.ledger[i].entry;
      }
      if HasOwner(after, a) {
        var i :| i in after && after[i].entry.Shared? && Covers(after[i].entry.extent, a);
        assert i in s.ledger && after[i].entry == s.ledger[i].entry;
      }
    }
    hide HasOwner;
  }

  lemma RelabelEntries(ledger: map<nat, Slot>, ch: Changes, ids: map<Key, nat>)
    ensures forall i :: i in Relabel(ledger, ch, ids) ==> i in ledger && Relabel(ledger, ch, ids)[i].entry == ledger[i].entry
  {
  }

  /** An entry that leaves the ledger at a commit owned nothing. */
  lemma DroppedIsEmpty(s: State, ch: Changes, ids: map<Key, nat>, i: nat)
    requires Numbered(s, ch, ids) && i in s.ledger && s.ledger[i].entry.Occupies() && Inv(s)
    ensures i in Relabel(s.ledger, ch, ids)
  {
    hide LogInv, LedgerInv, RecordInv, AckInv, HeldForAcks, HoldersInv, VisibleInv, MainPinInv, PinnedInv, HoldInv, PeerInv;
  }

  /** Private entries outside the epoch stay as they are. */
  ghost predicate PrivateKept(before: map<nat, Slot>, after: map<nat, Slot>, ch: Changes) {
    forall i :: i in before && (before[i].role.Private? || before[i].role.Reserved?) && !PublishedBy(ch, before[i].entry) ==>
      i in after && after[i] == before[i]
  }

  ghost predicate PublishedBy(ch: Changes, e: Entry) {
    exists k :: k in ch && ch[k] == Some(e)
  }

  lemma PrivateKeptAlways(ledger: map<nat, Slot>)
    ensures PrivateKept(ledger, ledger, map[])
  {
  }

  lemma PrivateKeptThen(a: map<nat, Slot>, b: map<nat, Slot>, c: map<nat, Slot>, ch: Changes)
    requires PrivateKept(a, b, ch) && PrivateKept(b, c, map[])
    ensures PrivateKept(a, c, ch)
  {
    forall i | i in a && (a[i].role.Private? || a[i].role.Reserved?) && !PublishedBy(ch, a[i].entry) ensures i in c && c[i] == a[i] {
      assert !PublishedBy(map[], b[i].entry);
    }
  }

  lemma RelabelKeepsPrivate(ledger: map<nat, Slot>, ch: Changes, ids: map<Key, nat>)
    ensures PrivateKept(ledger, Relabel(ledger, ch, ids), ch)
  {
  }

  // --- Freeing one record ---

  lemma FreeStep(s: State, id: nat, b: Books, b': Books)
    requires id in s.retired && s.retired[id].entry.Occupies()
    requires Reachable(s) && Coupled(s.ledger, b) && Releasable(s, id) && Lost(b, b', s.retired[id].entry.extent)
    ensures Reachable(AfterFree(s, id)) && Steps(s, AfterFree(s, id))
    ensures Coupled(AfterFree(s, id).ledger, b')
    ensures PrivateKept(s.ledger, AfterFree(s, id).ledger, map[])
  {
    hide Inv, Reachable, Steps, Lost, Coupled, Apart, Releasable;
    ReachableInv(s);
    RecordSlot(s, id);
    LedgerApart(s);
    assert Enabled(s, Free(id)) && Next(s, Free(id)) == AfterFree(s, id);
    hide Next, Enabled;
    StepsOne(s, Free(id));
    ReachableNext(s, Free(id));
    CoupledLose(s.ledger, b, b', s.retired[id].entry.id);
  }

  lemma RecordOwned(s: State, id: nat, b: Books)
    requires Reachable(s) && Coupled(s.ledger, b) && id in s.retired
    ensures s.retired[id].entry.Occupies() && OwnsAll(b, s.retired[id].entry.extent)
  {
    hide Inv, Reachable, Coupled, OwnsAll;
    ReachableInv(s);
    RecordSlot(s, id);
    RecordOccupies(s, id);
    EntryOwned(s.ledger, b, s.retired[id].entry.id);
  }

  lemma RecordOccupies(s: State, id: nat)
    requires Inv(s) && id in s.retired
    ensures s.retired[id].entry.Occupies() && id in s.holders
  {
    hide LogInv, LedgerInv, RecordInv, AckInv, HeldForAcks, HoldersInv, VisibleInv, MainPinInv, PinnedInv, HoldInv, PeerInv, IndexRoles, SlotRoles;
  }

  lemma RecordHeld(s: State, id: nat)
    requires Reachable(s) && id in s.retired
    ensures id in s.holders
  {
    hide Inv, Reachable;
    ReachableInv(s);
    RecordOccupies(s, id);
  }

  lemma FreeReleasable(s: State, id: nat, r: nat)
    requires id in s.retired && Releasable(AfterFree(s, id), r)
    ensures Releasable(s, r) && r != id
  {
  }

  // --- Adopting the copies of a relocation ---

  ghost function Adopted(ledger: map<nat, Slot>, moves: seq<Move>): map<nat, Slot> {
    if moves == [] then ledger
    else var last := moves[|moves| - 1].entry; Adopted(ledger, moves[..|moves| - 1])[last.id := Slot(last, Private)]
  }

  lemma {:induction false} AdoptedSlots(ledger: map<nat, Slot>, moves: seq<Move>, first: nat)
    requires forall i :: 0 <= i < |moves| ==> moves[i].entry.id == first + i
    ensures forall j :: j in ledger && j < first ==> j in Adopted(ledger, moves) && Adopted(ledger, moves)[j] == ledger[j]
    ensures forall i :: 0 <= i < |moves| ==>
      moves[i].entry.id in Adopted(ledger, moves) && Adopted(ledger, moves)[moves[i].entry.id] == Slot(moves[i].entry, Private)
    ensures forall j :: j in Adopted(ledger, moves) ==> j in ledger || first <= j < first + |moves|
  {
    if moves == [] {
      assert Adopted(ledger, moves) == ledger;
    } else {
      var less, last := moves[..|moves| - 1], moves[|moves| - 1].entry;
      AdoptedSlots(ledger, less, first);
      assert Adopted(ledger, moves) == Adopted(ledger, less)[last.id := Slot(last, Private)];
      assert forall i :: 0 <= i < |less| ==> less[i] == moves[i];
    }
  }

  ghost function AfterPlaces(s: State, moves: seq<Move>, mem: Memory): State {
    s.(minted := s.minted + |moves|, ledger := Adopted(s.ledger, moves), mem := mem)
  }

  /** The copies are ready, each in bytes nobody owned. */
  ghost predicate ReadyMoves(s: State, moves: seq<Move>, mem: Memory) {
    && (forall i :: 0 <= i < |moves| ==>
         && moves[i].entry.id == s.minted + i && moves[i].entry.Occupies() && moves[i].entry.WellFormed()
         && Intact(mem, moves[i].entry) && Protocol.Fits(s, moves[i].entry.extent))
    && (forall i, j :: 0 <= i < j < |moves| ==> Disjoint(moves[i].entry.extent, moves[j].entry.extent))
    && KeepsOwned(s, mem)
  }

  lemma {:induction false} PlaceAll(s: State, moves: seq<Move>, mem: Memory)
    requires ReadyMoves(s, moves, mem) && forall i :: i in s.ledger ==> i < s.minted
    ensures Steps(s, AfterPlaces(s, moves, mem))
  {
    hide Steps, Intact, Disjoint, KeepsOwned, Next, Enabled, Placeable;
    if moves == [] {
      StepScratch(s, mem);
    } else {
      hide Adopted;
      var less, last := moves[..|moves| - 1], moves[|moves| - 1].entry;
      var t := AfterPlaces(s, less, mem);
      PlaceAll(s, less, mem);
      PlaceLast(s, moves, mem);
      StepPlace(t, last, mem);
      AdoptLast(s, moves, mem);
      StepsThen(s, t, AfterPlaces(s, moves, mem));
    }
  }

  /** Placing the last copy after the others. */
  lemma AdoptLast(s: State, moves: seq<Move>, mem: Memory)
    requires moves != [] && ReadyMoves(s, moves, mem)
    ensures AfterPlace(AfterPlaces(s, moves[..|moves| - 1], mem), moves[|moves| - 1].entry, mem) == AfterPlaces(s, moves, mem)
  {
    hide Intact, Disjoint, KeepsOwned;
  }

  lemma StepScratch(s: State, mem: Memory)
    requires KeepsOwned(s, mem)
    ensures Steps(s, s.(mem := mem))
  {
    hide Steps, KeepsOwned;
    assert Next(s, Scratch(mem)) == s.(mem := mem);
    StepsOne(s, Scratch(mem));
  }

  lemma StepPlace(s: State, e: Entry, mem: Memory)
    requires Placeable(s, e, mem)
    ensures Steps(s, AfterPlace(s, e, mem))
  {
    hide Steps, Placeable;
    assert Next(s, Place(e, mem)) == AfterPlace(s, e, mem);
    StepsOne(s, Place(e, mem));
  }

  lemma PlaceLast(s: State, moves: seq<Move>, mem: Memory)
    requires moves != [] && ReadyMoves(s, moves, mem) && forall i :: i in s.ledger ==> i < s.minted
    ensures Placeable(AfterPlaces(s, moves[..|moves| - 1], mem), moves[|moves| - 1].entry, mem)
  {
    var less, last := moves[..|moves| - 1], moves[|moves| - 1].entry;
    var t := AfterPlaces(s, less, mem);
    AdoptedSlots(s.ledger, less, s.minted);
    hide Adopted;
    forall i | i in t.ledger && t.ledger[i].entry.Shared? ensures Disjoint(t.ledger[i].entry.extent, last.extent) {
      if i >= s.minted {
        assert less[i - s.minted].entry.id == i && t.ledger[i] == Slot(moves[i - s.minted].entry, Private);
      }
    }
    hide Disjoint, Intact, ReadyMoves;
  }

  lemma CoupledMoved(ledger: map<nat, Slot>, b: Books, b': Books, moves: seq<Move>, first: nat)
    requires Coupled(ledger, b) && Moved(b, b', moves) && forall i :: i in ledger ==> i < first
    requires forall i :: 0 <= i < |moves| ==> moves[i].entry.id == first + i
    ensures Coupled(Adopted(ledger, moves), b')
  {
    AdoptedSlots(ledger, moves, first);
    var after := Adopted(ledger, moves);
    hide Owns, Adopted, Covers, Disjoint;
    forall a ensures HasOwner(after, a) <==> HasOwner(ledger, a) || Covered(moves, a) {
      if HasOwner(ledger, a) {
        var j :| j in ledger && ledger[j].entry.Shared? && Covers(ledger[j].entry.extent, a);
        assert after[j] == ledger[j];
      }
      if Covered(moves, a) {
        var i :| 0 <= i < |moves| && moves[i].entry.Shared? && Covers(moves[i].entry.extent, a);
        assert after[moves[i].entry.id] == Slot(moves[i].entry, Private);
      }
      if HasOwner(after, a) {
        var j :| j in after && after[j].entry.Shared? && Covers(after[j].entry.extent, a);
        if j >= first {
          assert moves[j - first].entry.id == j && after[j] == Slot(moves[j - first].entry, Private);
        }
      }
    }
    hide HasOwner, Covered;
  }

  // --- Whose byte it is ---

  ghost predicate OfPublished(s: State, a: Addr) {
    exists k :: k in s.index && s.index[k].Shared? && Covers(s.index[k].extent, a)
  }

  ghost predicate OfRetired(s: State, a: Addr) {
    exists r :: r in s.retired && s.retired[r].entry.Shared? && Covers(s.retired[r].entry.extent, a)
  }

  ghost predicate OfInFlight(s: State, a: Addr) {
    exists i :: InFlight(s, i) && s.ledger[i].entry.Shared? && Covers(s.ledger[i].entry.extent, a)
  }

  lemma OwnersAre(s: State, b: Books, a: Addr)
    requires Inv(s) && Coupled(s.ledger, b)
    ensures Owns(b, a) <==> OfPublished(s, a) || OfRetired(s, a) || OfInFlight(s, a)
  {
    hide LogInv, LedgerInv, RecordInv, AckInv, HeldForAcks, HoldersInv, VisibleInv, MainPinInv, PinnedInv, HoldInv, PeerInv, Owns, Covers;
    if HasOwner(s.ledger, a) {
      var i :| i in s.ledger && s.ledger[i].entry.Shared? && Covers(s.ledger[i].entry.extent, a);
      match s.ledger[i].role
      case Published(k) => assert s.index[k] == s.ledger[i].entry;
      case Retired(r) => assert s.retired[r].entry == s.ledger[i].entry;
      case _ => assert InFlight(s, i);
    }
    if OfPublished(s, a) {
      var k :| k in s.index && s.index[k].Shared? && Covers(s.index[k].extent, a);
      assert s.ledger[s.index[k].id].entry == s.index[k];
    }
    if OfRetired(s, a) {
      var r :| r in s.retired && s.retired[r].entry.Shared? && Covers(s.retired[r].entry.extent, a);
      assert s.ledger[s.retired[r].entry.id].entry == s.retired[r].entry;
    }
    if OfInFlight(s, a) {
      var i :| InFlight(s, i) && s.ledger[i].entry.Shared? && Covers(s.ledger[i].entry.extent, a);
      assert i in s.ledger;
    }
  }
}
