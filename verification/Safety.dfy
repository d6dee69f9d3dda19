/** What holds in every reachable state of the retirement protocol. */
module Safety {
  import opened Layout
  import opened Protocol
  import opened Invariant
  import opened Consumers
  import opened Retirement
  import opened FlushProof

  lemma StepKeepsInv(s: State, ev: Event)
    requires Inv(s) && Enabled(s, ev)
    ensures Inv(Next(s, ev))
  {
    hide Inv, Commit, Received, Unpinned, Served, Acquire, WithPeer, WithPins, AfterMint, AfterAbandon, AfterLink, AfterExit, AfterComplete, AfterFree,
      AfterReserve, AfterPlace, Placeable, KeepsOwned, Extends, Fits, WritesWithin, Completes, Numbered, Publishable, Releasable;
    match ev
    case Reserve(x, mem) => ReserveKeepsInv(s, x, mem);
    case Place(e, mem) => PlaceKeepsInv(s, e, mem);
    case Fill(id, mem) => FillKeepsInv(s, id, mem);
    case Complete(id, bytes) => CompleteKeepsInv(s, id, bytes);
    case Mint(e) => MintKeepsInv(s, e);
    case Abandon(id) => AbandonKeepsInv(s, id);
    case Scratch(mem) => ScratchKeepsInv(s, mem);
    case Flush(ch, ids, owner) =>
      FlushKeepsInv(s, ch, ids);
      CreditKeepsInv(s, Commit(s, ch, ids), owner);
    case Free(id) => FreeKeepsInv(s, id);
    case NewLink => NewLinkKeepsInv(s);
    case Attach(l) => FlagsKeepInv(s, l, true, true);
    case Receive(l) => ReceiveKeepsInv(s, l);
    case Pin(who, k) => PinKeepsInv(s, who, k);
    case Unpin(who, e) => UnpinKeepsInv(s, who, e);
    case Request(l, r) => RequestKeepsInv(s, l, r);
    case Serve(l) => ServeKeepsInv(s, l);
    case Answer(q) => AnswerKeepsInv(s, q);
    case Die(l) => FlagsKeepInv(s, l, false, s.peers[l].attached);
    case Exit(l) => ExitKeepsInv(s, l);
  }

  lemma CreditKeepsInv(s: State, t: State, owner: Option<Req>)
    requires Inv(t)
    ensures Inv(Credited(s, t, owner))
  {
    if owner.Some? && |t.log| > |s.log| {
      var calls := t.calls.(credit := t.calls.credit[owner.value := |t.log|]);
      assert CreditInv(calls, |t.log|) by {
        hide LogInv, LedgerInv, RoleInv, RecordInv, AckInv, HeldForAcks, HoldersInv, VisibleInv, MainPinInv, PinnedInv, HoldInv, PeerInv;
      }
      hide Inv;
      CallsKeepInv(t, calls);
    }
  }

  /** `states` is a run from `states[0]` in which event `events[i]` leads to state i + 1. */
  ghost predicate Run(states: seq<State>, events: seq<Event>) {
    && |states| == |events| + 1
    && forall i :: 0 <= i < |events| ==> Enabled(states[i], events[i]) && states[i + 1] == Next(states[i], events[i])
  }

  lemma {:induction false} RunKeepsInv(states: seq<State>, events: seq<Event>, n: nat)
    requires Run(states, events) && Inv(states[0]) && n < |states|
    ensures Inv(states[n])
  {
    hide Inv, Next, Enabled;
    if n > 0 {
      RunKeepsInv(states, events, n - 1);
      StepKeepsInv(states[n - 1], events[n - 1]);
    }
  }

  ghost predicate Reachable(s: State) {
    exists states, events :: Run(states, events) && states[0] == Initial && states[|events|] == s
  }

  lemma ReachableInv(s: State)
    requires Reachable(s)
    ensures Inv(s)
  {
    hide Inv, Next, Enabled;
    var states, events :| Run(states, events) && states[0] == Initial && states[|events|] == s;
    InitialInv();
    RunKeepsInv(states, events, |events|);
  }

  // --- No use after free ---

  /** A thread can read a version it projects or one a stream or lease of its own pins. */
  ghost predicate Readable(s: State, who: Holder, e: Entry) {
    e in FilesOf(s, who).Values || e in PinsOf(s, who).counts
  }

  /** The extent of `e` is allocated to `e` alone and holds the bytes written when it was placed. */
  ghost predicate Safe(s: State, e: Entry) {
    && e.id in s.ledger && s.ledger[e.id].entry == e
    && (s.ledger[e.id].role.Published? || s.ledger[e.id].role.Retired?)
    && e.WellFormed() && e.Shared? && Intact(s.mem, e)
    && forall i :: i in s.ledger && i != e.id && s.ledger[i].entry.Shared? ==> Disjoint(s.ledger[i].entry.extent, e.extent)
  }

  /**
   * In every reachable state, whatever any thread can still read is intact, and no other live
   * extent, least of all one being filled, overlaps it.
   */
  lemma NoUseAfterFree(s: State, who: Holder, e: Entry)
    requires Reachable(s) && Readable(s, who, e) && e.Occupies()
    ensures Safe(s, e)
  {
    hide Inv;
    ReachableInv(s);
    ReadableTracked(s, who, e);
    TrackedSafe(s, e);
  }

  lemma ReadableTracked(s: State, who: Holder, e: Entry)
    requires Inv(s) && Readable(s, who, e) && e.Occupies()
    ensures e.id in s.ledger && s.ledger[e.id].entry == e && (s.ledger[e.id].role.Published? || s.ledger[e.id].role.Retired?)
  {
    hide LedgerInv, RecordInv, AckInv, HeldForAcks, HoldersInv, SlotRoles, PinnedInv, InboxInv, OutboxInv, Ordered, Retaining, Releasing;
    match who
    case Main =>
      if e in s.pins.bound {
        assert s.retired[s.pins.bound[e]].entry == e;
      } else {
        ProjectedOrBound(s.files, s.pins, e);
        var k :| k in s.files && s.files[k] == e;
        assert s.index[k] == e;
      }
    case Worker(l) =>
      if e in s.peers[l].pins.bound {
        assert s.retired[s.peers[l].pins.bound[e]].entry == e;
      } else {
        ProjectedOrBound(s.peers[l].files, s.peers[l].pins, e);
        var k :| k in s.peers[l].files && s.peers[l].files[k] == e;
        assert s.hist[s.peers[l].applied][k] == e;
        assert Tracked(e, s.peers[l].applied, s.ledger, s.retired);
      }
  }

  lemma ProjectedOrBound(files: Files, pins: Pins, e: Entry)
    requires PinnedInv(files, pins) && e.Occupies() && (e in files.Values || e in pins.counts) && e !in pins.bound
    ensures exists k :: k in files && files[k] == e
  {
  }

  lemma TrackedSafe(s: State, e: Entry)
    requires Inv(s) && e.Occupies()
    requires e.id in s.ledger && s.ledger[e.id].entry == e && (s.ledger[e.id].role.Published? || s.ledger[e.id].role.Retired?)
    ensures Safe(s, e)
  {
    hide LogInv, RoleInv, RecordInv, AckInv, HeldForAcks, HoldersInv, VisibleInv, MainPinInv, PinnedInv, HoldInv, PeerInv;
  }

  /** No event writes to a byte some thread can still read. */
  lemma WritesMissReadableBytes(s: State, ev: Event, who: Holder, e: Entry, a: Addr)
    requires Reachable(s) && Enabled(s, ev) && Readable(s, who, e) && e.Occupies() && Covers(e.extent, a)
    ensures a in s.mem && a in Next(s, ev).mem && Next(s, ev).mem[a] == s.mem[a]
  {
    hide Inv, Next, Reachable, Intact;
    NoUseAfterFree(s, who, e);
    IntactAt(s.mem, e, a);
    match ev
    case Fill(id, mem) => DisjointMeansNoSharedByte(s.ledger[id].entry.extent, e.extent);
      FillWrites(s, id, mem);
    case Reserve(x, mem) => ReserveWrites(s, x, mem);
    case Place(p, mem) => PlaceWrites(s, p, mem, e.id, a);
    case Scratch(mem) => ScratchWrites(s, mem, e.id, a);
    case _ => OthersWriteNothing(s, ev);
  }

  lemma FillWrites(s: State, id: nat, mem: Memory)
    requires Enabled(s, Fill(id, mem))
    ensures Next(s, Fill(id, mem)).mem == mem
  {
  }

  lemma ReserveWrites(s: State, x: Extent, mem: Memory)
    requires Enabled(s, Reserve(x, mem))
    ensures forall a :: a in s.mem ==> a in Next(s, Reserve(x, mem)).mem && Next(s, Reserve(x, mem)).mem[a] == s.mem[a]
  {
  }

  lemma PlaceWrites(s: State, e: Entry, mem: Memory, i: nat, a: Addr)
    requires Enabled(s, Place(e, mem)) && i in s.ledger && s.ledger[i].entry.Shared? && Covers(s.ledger[i].entry.extent, a) && a in s.mem
    ensures a in Next(s, Place(e, mem)).mem && Next(s, Place(e, mem)).mem[a] == s.mem[a]
  {
  }

  lemma ScratchWrites(s: State, mem: Memory, i: nat, a: Addr)
    requires Enabled(s, Scratch(mem)) && i in s.ledger && s.ledger[i].entry.Shared? && Covers(s.ledger[i].entry.extent, a) && a in s.mem
    ensures a in Next(s, Scratch(mem)).mem && Next(s, Scratch(mem)).mem[a] == s.mem[a]
  {
  }

  lemma OthersWriteNothing(s: State, ev: Event)
    requires Enabled(s, ev) && !ev.Fill? && !ev.Reserve? && !ev.Place? && !ev.Scratch?
    ensures Next(s, ev).mem == s.mem
  {
    hide Commit, Unpinned, Served, Received, Acquire, WithPeer, WithPins, AfterMint, AfterAbandon, AfterLink, AfterExit, AfterComplete, AfterFree,
      Fits, WritesWithin, Completes, Numbered, Publishable, Releasable;
  }

  /** Whatever the thread reads of a pinned version, and whenever, is what the version holds. */
  lemma PinnedReadIsStable(s: State, who: Holder, e: Entry, a: Addr)
    requires Reachable(s) && e in PinsOf(s, who).counts && e.Occupies() && Covers(e.extent, a)
    ensures e.WellFormed() && a in s.mem && s.mem[a] == e.bytes[a.offset - e.extent.offset]
  {
    hide Inv, Reachable;
    NoUseAfterFree(s, who, e);
    IntactAt(s.mem, e, a);
  }

  // --- Exact ownership ---

  /** Where an entry can be found. */
  ghost predicate PublishedAt(s: State, i: nat) { exists k :: k in s.index && s.index[k].id == i }

  ghost predicate RetiredAs(s: State, i: nat) { exists r :: r in s.retired && s.retired[r].entry.id == i }

  ghost predicate InFlight(s: State, i: nat) {
    i in s.ledger && (s.ledger[i].role.Private? || s.ledger[i].role.Reserved?)
  }

  /**
   * Every owned extent belongs to exactly one published entry, retired record or publication in
   * progress, every published or retired version owns its extent, and extents never overlap.
   */
  lemma ExactOwnership(s: State, i: nat)
    requires Reachable(s)
    ensures i in s.ledger <==> PublishedAt(s, i) || RetiredAs(s, i) || InFlight(s, i)
    ensures !(PublishedAt(s, i) && RetiredAs(s, i)) && !(PublishedAt(s, i) && InFlight(s, i)) && !(RetiredAs(s, i) && InFlight(s, i))
    ensures forall j, k :: j in s.index && k in s.index && s.index[j].id == s.index[k].id ==> j == k
    ensures forall q, r :: q in s.retired && r in s.retired && s.retired[q].entry.id == s.retired[r].entry.id ==> q == r
    ensures forall j :: j in s.ledger && i in s.ledger && i != j && s.ledger[i].entry.Shared? && s.ledger[j].entry.Shared? ==>
      Disjoint(s.ledger[i].entry.extent, s.ledger[j].entry.extent)
  {
    hide Inv, Reachable;
    ReachableInv(s);
    OwnershipOf(s, i);
    UniqueOwners(s);
    OwnersDisjoint(s, i);
    hide PublishedAt, RetiredAs, InFlight;
  }

  lemma OwnershipOf(s: State, i: nat)
    requires Inv(s)
    ensures i in s.ledger <==> PublishedAt(s, i) || RetiredAs(s, i) || InFlight(s, i)
    ensures PublishedAt(s, i) ==> s.ledger[i].role.Published?
    ensures RetiredAs(s, i) ==> s.ledger[i].role.Retired?
  {
    hide LogInv, RecordInv, AckInv, HeldForAcks, HoldersInv, VisibleInv, MainPinInv, PinnedInv, HoldInv, PeerInv, Intact, Disjoint, Covers;
    if i in s.ledger {
      match s.ledger[i].role
      case Published(k) => assert s.index[k].id == i;
      case Retired(r) => assert s.retired[r].entry.id == i;
      case _ =>
    }
  }

  lemma UniqueOwners(s: State)
    requires Inv(s)
    ensures forall j, k :: j in s.index && k in s.index && s.index[j].id == s.index[k].id ==> j == k
    ensures forall q, r :: q in s.retired && r in s.retired && s.retired[q].entry.id == s.retired[r].entry.id ==> q == r
  {
    hide LogInv, LedgerInv, RecordInv, AckInv, HeldForAcks, HoldersInv, VisibleInv, MainPinInv, PinnedInv, HoldInv, PeerInv, SlotRoles;
  }

  lemma OwnersDisjoint(s: State, i: nat)
    requires Inv(s)
    ensures forall j :: j in s.ledger && i in s.ledger && i != j && s.ledger[i].entry.Shared? && s.ledger[j].entry.Shared? ==>
      Disjoint(s.ledger[i].entry.extent, s.ledger[j].entry.extent)
  {
    hide LogInv, RoleInv, RecordInv, AckInv, HeldForAcks, HoldersInv, VisibleInv, MainPinInv, PinnedInv, HoldInv, PeerInv, Intact, Disjoint, Covers;
  }

  /** A retired version is freed once, with its record, and only when no thread can read it. */
  lemma NoDoubleFree(s: State, r: nat)
    requires Reachable(s) && Enabled(s, Free(r))
    ensures s.retired[r].entry.id in s.ledger && s.ledger[s.retired[r].entry.id] == Slot(s.retired[r].entry, Retired(r))
    ensures r !in Next(s, Free(r)).retired && s.retired[r].entry.id !in Next(s, Free(r)).ledger
    ensures forall who, e :: Readable(s, who, e) && e.Occupies() ==> e.id != s.retired[r].entry.id
  {
    hide Inv, Reachable, Readable;
    ReachableInv(s);
    StepKeepsInv(s, Free(r));
    RecordSlot(s, r);
    var t := Next(s, Free(r));
    forall who, e | Readable(s, who, e) && e.Occupies() ensures e.id != s.retired[r].entry.id {
      SameReaders(s, t, who, e);
      ReadableTracked(t, who, e);
    }
  }

  lemma RecordSlot(s: State, r: nat)
    requires Inv(s) && r in s.retired
    ensures s.retired[r].entry.id in s.ledger && s.ledger[s.retired[r].entry.id] == Slot(s.retired[r].entry, Retired(r))
  {
    hide LogInv, LedgerInv, RecordInv, AckInv, HeldForAcks, HoldersInv, VisibleInv, MainPinInv, PinnedInv, HoldInv, PeerInv, IndexRoles, SlotRoles;
  }

  lemma SameReaders(s: State, t: State, who: Holder, e: Entry)
    requires t.files == s.files && t.pins == s.pins && t.peers == s.peers && Readable(s, who, e)
    ensures Readable(t, who, e)
  {
  }

  // --- Projection refinement ---

  /** Applying what is queued on a port to what its worker projects gives the main index. */
  ghost function Drained(files: Files, inbox: seq<Down>): Files
    decreases |inbox|
  {
    if inbox == [] then files
    else Drained(if inbox[0].Deliver? then Apply(files, inbox[0].update) else files, inbox[1..])
  }

  lemma ProjectionRefinement(s: State, l: nat)
    requires Reachable(s) && l in s.peers
    ensures Drained(s.peers[l].files, s.peers[l].inbox) == s.index == s.files
  {
    ReachableInv(s);
    hide LedgerInv, RoleInv, RecordInv, AckInv, HeldForAcks, HoldersInv, VisibleInv, MainPinInv, PinnedInv, HoldInv, OutboxInv, Ordered, Reachable;
    DrainedFrom(s, s.peers[l].files, s.peers[l].inbox, s.peers[l].applied);
  }

  lemma {:induction false} DrainedFrom(s: State, files: Files, inbox: seq<Down>, applied: nat)
    requires |s.hist| == |s.log| + 1 && LogInv(s.log, s.hist, s.index, s.files)
    requires applied <= |s.log| && files == s.hist[applied] && InboxInv(inbox, applied, s.log)
    ensures Drained(files, inbox) == s.index
    decreases |inbox|
  {
    if inbox != [] {
      if inbox[0].Deliver? {
        DrainedFrom(s, s.hist[applied + 1], inbox[1..], applied + 1);
      } else {
        DrainedFrom(s, files, inbox[1..], applied);
      }
    }
  }

  /** Each `[key, retireId]` of the next update names the version the worker projects under `key`. */
  lemma RetirePairsNameProjectedVersions(s: State, l: nat, k: Key)
    requires Reachable(s) && l in s.peers && s.peers[l].inbox != [] && s.peers[l].inbox[0].Deliver?
    requires k in s.peers[l].inbox[0].update.retired
    ensures var p := s.peers[l]; var r := p.inbox[0].update.retired[k];
      k in p.files && r in s.retired && s.retired[r].key == k && s.retired[r].entry == p.files[k]
  {
    ReachableInv(s);
    NextUpdate(s, l);
    hide LedgerInv, RoleInv, AckInv, HoldersInv, VisibleInv, MainPinInv, PinnedInv, HoldInv, OutboxInv, Ordered, Reachable;
    assert s.log[s.peers[l].applied].retired[k] in s.retired;
  }

  // --- Nothing is retained forever ---

  /** Every retired version waits for an acknowledgement or for a consumer. */
  ghost predicate Settled(s: State) {
    forall r :: r in s.retired ==> !Releasable(s, r)
  }

  /** In a settled state the one waited for is the main thread or a link that still exists. */
  lemma RetainedForSomeone(s: State, r: nat)
    requires Reachable(s) && Settled(s) && r in s.retired
    ensures r in s.holders
    ensures var u := s.retired[r].updateId;
      || (u in s.acks && r in s.acks[u].retired && s.acks[u].links != {} && s.acks[u].links <= s.peers.Keys)
      || (exists h :: h in s.holders[r] && (h == Main || h.link in s.peers))
  {
    hide Inv, Reachable;
    ReachableInv(s);
    RecordWaits(s, r);
    assert !Releasable(s, r);
    if s.retired[r].updateId !in s.acks {
      var h :| h in s.holders[r];
    }
  }

  /** What a record may wait for are links that exist. */
  lemma RecordWaits(s: State, r: nat)
    requires Inv(s) && r in s.retired
    ensures r in s.holders && forall h :: h in s.holders[r] ==> h == Main || h.link in s.peers
    ensures var u := s.retired[r].updateId; u in s.acks ==> r in s.acks[u].retired && s.acks[u].links != {} && s.acks[u].links <= s.peers.Keys
  {
    hide LogInv, LedgerInv, RoleInv, RecordInv, HeldForAcks, VisibleInv, MainPinInv, PinnedInv, HoldInv, PeerInv, AckLinks;
  }

  /** Nothing under way and nothing pinned in any thread. */
  ghost predicate Quiet(s: State) {
    && s.pins.bound == map[]
    && forall l :: l in s.peers ==> s.peers[l].pins.bound == map[] && s.peers[l].inbox == [] && s.peers[l].outbox == []
  }

  lemma NothingRetainedForever(s: State)
    requires Reachable(s) && Settled(s) && Quiet(s)
    ensures s.retired == map[] && s.acks == map[]
  {
    hide Inv, Reachable, Quiet, Settled;
    ReachableInv(s);
    forall u ensures u !in s.acks {
      if u in s.acks {
        var l := SomeLinkLags(s, u);
        QuietLinkCaughtUp(s, l);
      }
    }
    forall r ensures r !in s.retired {
      if r in s.retired {
        RetainedForSomeone(s, r);
        QuietHoldsNothing(s, r);
      }
    }
  }

  lemma SomeLinkLags(s: State, u: nat) returns (l: nat)
    requires Inv(s) && u in s.acks
    ensures l in s.peers && s.peers[l].acked < u <= |s.log|
  {
    hide LogInv, LedgerInv, RoleInv, RecordInv, HeldForAcks, HoldersInv, VisibleInv, MainPinInv, PinnedInv, HoldInv, PeerInv;
    l :| l in s.acks[u].links;
  }

  lemma QuietLinkCaughtUp(s: State, l: nat)
    requires Inv(s) && Quiet(s) && l in s.peers
    ensures s.peers[l].acked == |s.log|
  {
    hide LogInv, LedgerInv, RoleInv, RecordInv, AckInv, HeldForAcks, HoldersInv, VisibleInv, MainPinInv, PinnedInv, HoldInv, Ordered;
  }

  lemma QuietHoldsNothing(s: State, r: nat)
    requires Inv(s) && Quiet(s) && r in s.retired
    ensures r in s.holders && s.holders[r] == {}
  {
    hide LogInv, LedgerInv, RoleInv, RecordInv, AckInv, HeldForAcks, VisibleInv, PinnedInv, PeerInv;
    forall h ensures h !in s.holders[r] {
      match h
      case Main => assert !BoundTo(s.pins, s.retired[r].entry, r);
      case Worker(l) =>
        if l in s.peers {
          assert !BoundTo(s.peers[l].pins, s.retired[r].entry, r) && !Releasing(s.peers[l].outbox, r);
        }
    }
  }
}
