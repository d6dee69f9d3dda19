/** What every event of the retirement protocol keeps. */
module Invariant {
  import opened Layout
  import opened Protocol

  // --- History: every index is the previous one with the next update applied ---

  ghost predicate LogInv(log: seq<Update>, hist: seq<Files>, index: Files, files: Files)
    requires |hist| == |log| + 1
  {
    && hist[|log|] == index
    && files == index
    && (forall n {:trigger log[n]} :: 0 <= n < |log| ==> log[n].id == n + 1 && hist[n + 1] == Apply(hist[n], log[n]))
  }

  // --- Ownership: each live entry is in exactly one place, and extents never overlap ---

  ghost predicate LedgerInv(ledger: map<nat, Slot>, mem: Memory, minted: nat) {
    && (forall i :: i in ledger ==> i < minted && ledger[i].entry.id == i)
    && (forall i :: i in ledger && !ledger[i].role.Reserved? ==>
         ledger[i].entry.WellFormed() && (ledger[i].entry.Shared? ==> Intact(mem, ledger[i].entry)))
    && (forall i, j :: i in ledger && j in ledger && i != j && ledger[i].entry.Shared? && ledger[j].entry.Shared? ==>
         Disjoint(ledger[i].entry.extent, ledger[j].entry.extent))
    && (forall i, a :: i in ledger && ledger[i].entry.Shared? && Covers(ledger[i].entry.extent, a) ==> a in mem)
  }

  ghost predicate IndexRoles(ledger: map<nat, Slot>, index: Files) {
    forall k :: k in index ==> index[k].id in ledger && ledger[index[k].id] == Slot(index[k], Published(k))
  }

  ghost predicate RecordRoles(ledger: map<nat, Slot>, retired: map<nat, Record>) {
    forall r :: r in retired ==>
      && retired[r].entry.Occupies()
      && retired[r].entry.id in ledger
      && ledger[retired[r].entry.id] == Slot(retired[r].entry, Retired(r))
  }

  ghost predicate SlotRoles(ledger: map<nat, Slot>, index: Files, retired: map<nat, Record>) {
    forall i :: i in ledger ==>
      && (ledger[i].role.Published? ==>
           ledger[i].role.key in index && index[ledger[i].role.key] == ledger[i].entry)
      && (ledger[i].role.Retired? ==>
           ledger[i].role.retireId in retired && retired[ledger[i].role.retireId].entry == ledger[i].entry)
  }

  /** The role of every entry is where it can be found, and everything found has its role. */
  ghost predicate RoleInv(ledger: map<nat, Slot>, index: Files, retired: map<nat, Record>) {
    IndexRoles(ledger, index) && RecordRoles(ledger, retired) && SlotRoles(ledger, index, retired)
  }

  // --- Retirement records against the history ---

  ghost predicate LoggedRecord(record: Record, r: nat, log: seq<Update>) {
    var u := record.updateId;
    1 <= u <= |log| && record.key in log[u - 1].retired && log[u - 1].retired[record.key] == r
  }

  ghost predicate LoggedRecords(retired: map<nat, Record>, log: seq<Update>) {
    forall r :: r in retired ==> LoggedRecord(retired[r], r, log)
  }

  ghost predicate RecordedLog(retired: map<nat, Record>, nextRetire: nat, log: seq<Update>, hist: seq<Files>)
    requires |hist| == |log| + 1
  {
    forall n, k :: 0 <= n < |log| && k in log[n].retired ==>
      var r := log[n].retired[k];
      && k in hist[n] && r <= nextRetire
      && (r in retired ==> retired[r] == Record(k, hist[n][k], n + 1))
  }

  /** The update retires every shared version it replaces or removes. */
  ghost predicate RetiresReplaced(files: Files, u: Update) {
    forall k :: k in files && files[k].Occupies() && (k in u.entries || k in u.removals) ==> k in u.retired
  }

  ghost predicate CompleteLog(log: seq<Update>, hist: seq<Files>)
    requires |hist| == |log| + 1
  {
    forall n :: 0 <= n < |log| ==> RetiresReplaced(hist[n], log[n])
  }

  ghost predicate RecordInv(retired: map<nat, Record>, nextRetire: nat, log: seq<Update>, hist: seq<Files>)
    requires |hist| == |log| + 1
  {
    LoggedRecords(retired, log) && RecordedLog(retired, nextRetire, log, hist) && CompleteLog(log, hist)
  }

  ghost predicate AckRecords(acks: map<nat, Pending>, links: set<nat>, retired: map<nat, Record>, count: nat) {
    forall u :: u in acks ==>
      && 1 <= u <= count
      && acks[u].links != {}
      && acks[u].links <= links
      && (forall r :: r in acks[u].retired ==> r in retired && retired[r].updateId == u)
  }

  ghost predicate AckLinks(acks: map<nat, Pending>, peers: map<nat, Peer>) {
    forall u, l :: u in acks && l in peers ==> (l in acks[u].links <==> peers[l].acked < u)
  }

  ghost predicate RecordAcks(acks: map<nat, Pending>, peers: map<nat, Peer>, retired: map<nat, Record>) {
    forall r :: r in retired ==>
      && (retired[r].updateId in acks ==> r in acks[retired[r].updateId].retired)
      && (retired[r].updateId !in acks ==> forall l :: l in peers ==> retired[r].updateId <= peers[l].acked)
  }

  /** A pending update waits for exactly the links that have not acknowledged it. */
  ghost predicate AckInv(acks: map<nat, Pending>, peers: map<nat, Peer>, retired: map<nat, Record>, count: nat) {
    AckRecords(acks, peers.Keys, retired, count) && AckLinks(acks, peers) && RecordAcks(acks, peers, retired)
  }

  /** A version some link has not acknowledged dropping has not been freed. */
  ghost predicate HeldForAcks(log: seq<Update>, retired: map<nat, Record>, peers: map<nat, Peer>) {
    forall n, k, l :: 0 <= n < |log| && k in log[n].retired && l in peers && peers[l].acked <= n ==> log[n].retired[k] in retired
  }

  // --- Ports ---

  /** The updates still queued are exactly those after `applied`, and no reply overtakes its update. */
  ghost predicate InboxInv(inbox: seq<Down>, applied: nat, log: seq<Update>)
    decreases |inbox|
  {
    if inbox == [] then applied == |log| else
    match inbox[0]
    case Deliver(u) => applied < |log| && u == log[applied] && InboxInv(inbox[1..], applied + 1, log)
    case Reply(_, c) => c <= applied && InboxInv(inbox[1..], applied, log)
  }

  /** The acknowledgements under way are exactly those of updates acked + 1 to applied, in order. */
  ghost predicate OutboxInv(outbox: seq<Up>, acked: nat, applied: nat)
    decreases |outbox|
  {
    if outbox == [] then acked == applied else
    if outbox[0].Ack? then outbox[0].updateId == acked + 1 && OutboxInv(outbox[1..], acked + 1, applied)
    else OutboxInv(outbox[1..], acked, applied)
  }

  ghost predicate Retaining(outbox: seq<Up>, r: nat) {
    exists i :: 0 <= i < |outbox| && outbox[i].Ack? && r in outbox[i].retained
  }

  ghost predicate Releasing(outbox: seq<Up>, r: nat) {
    exists i :: 0 <= i < |outbox| && outbox[i] == Release(r)
  }

  /** A release is sent once, after the acknowledgement that announced the hold. */
  ghost predicate Ordered(outbox: seq<Up>) {
    forall i, j :: 0 <= i < j < |outbox| && outbox[i].Release? ==>
      && outbox[j] != outbox[i]
      && !(outbox[j].Ack? && outbox[i].retireId in outbox[j].retained)
  }

  ghost predicate PeerInv(p: Peer, log: seq<Update>, hist: seq<Files>)
    requires |hist| == |log| + 1
  {
    && p.acked <= p.applied <= |log|
    && p.files == hist[p.applied]
    && InboxInv(p.inbox, p.applied, log)
    && OutboxInv(p.outbox, p.acked, p.applied)
    && Ordered(p.outbox)
  }

  // --- Consumers ---

  /** A pinned version is either still projected or bound to its retireId. */
  ghost predicate PinnedInv(files: Files, pins: Pins) {
    && pins.bound.Keys <= pins.counts.Keys
    && (forall e :: e in pins.counts && e !in pins.bound && e.Occupies() ==> exists k :: k in files && files[k] == e)
  }

  ghost predicate BoundTo(pins: Pins, e: Entry, r: nat) {
    e in pins.bound && pins.bound[e] == r
  }

  ghost predicate MainPinInv(pins: Pins, retired: map<nat, Record>, holders: map<nat, set<Holder>>)
    requires holders.Keys == retired.Keys
  {
    && (forall e :: e in pins.bound ==> pins.bound[e] in retired && retired[pins.bound[e]].entry == e)
    && (forall r :: r in retired ==> (Main in holders[r] <==> BoundTo(pins, retired[r].entry, r)))
  }

  /**
   * What a worker holds and what the main kernel believes it holds agree once the messages under
   * way are counted: a hold is recorded or announced exactly while the version is bound or its
   * release is under way.
   */
  ghost predicate HoldInv(l: nat, p: Peer, retired: map<nat, Record>, holders: map<nat, set<Holder>>)
    requires holders.Keys == retired.Keys
  {
    && (forall e :: e in p.pins.bound ==>
         && p.pins.bound[e] in retired
         && retired[p.pins.bound[e]].entry == e
         && !Releasing(p.outbox, p.pins.bound[e]))
    && (forall r :: Releasing(p.outbox, r) ==> r in retired)
    && (forall i, r :: 0 <= i < |p.outbox| && p.outbox[i].Ack? && r in p.outbox[i].retained ==>
         r in retired && retired[r].updateId == p.outbox[i].updateId)
    && (forall r :: r in retired ==>
         (Worker(l) in holders[r] || Retaining(p.outbox, r) <==>
          BoundTo(p.pins, retired[r].entry, r) || Releasing(p.outbox, r)))
    && (forall r :: r in retired && Worker(l) in holders[r] ==> retired[r].updateId <= p.acked)
  }

  ghost predicate HoldersInv(holders: map<nat, set<Holder>>, peers: map<nat, Peer>) {
    forall r, h :: r in holders && h in holders[r] ==> h == Main || h.link in peers
  }

  // --- No link can still see a freed version ---

  /** Version `e`, current after `n` updates, is published still or was retired by a later one. */
  ghost predicate Tracked(e: Entry, n: nat, ledger: map<nat, Slot>, retired: map<nat, Record>) {
    && e.id in ledger
    && ledger[e.id].entry == e
    && (|| ledger[e.id].role.Published?
        || (&& ledger[e.id].role.Retired?
            && ledger[e.id].role.retireId in retired
            && retired[ledger[e.id].role.retireId].updateId > n))
  }

  ghost predicate VisibleInv(peers: map<nat, Peer>, hist: seq<Files>, ledger: map<nat, Slot>, retired: map<nat, Record>) {
    forall l, n, k :: l in peers && peers[l].applied <= n < |hist| && k in hist[n] && hist[n][k].Occupies() ==>
      Tracked(hist[n][k], n, ledger, retired)
  }

  ghost predicate CreditInv(calls: Calls, n: nat) {
    forall q :: q in calls.credit ==> 0 < calls.credit[q] <= n
  }

  ghost predicate Inv(s: State) {
    && |s.hist| == |s.log| + 1
    && LogInv(s.log, s.hist, s.index, s.files)
    && LedgerInv(s.ledger, s.mem, s.minted)
    && RoleInv(s.ledger, s.index, s.retired)
    && RecordInv(s.retired, s.nextRetire, s.log, s.hist)
    && s.holders.Keys == s.retired.Keys
    && AckInv(s.acks, s.peers, s.retired, |s.log|)
    && HeldForAcks(s.log, s.retired, s.peers)
    && (forall l :: l in s.peers ==> l <= s.nextLink && PeerInv(s.peers[l], s.log, s.hist))
    && (forall l :: l in s.peers ==> PinnedInv(s.peers[l].files, s.peers[l].pins))
    && (forall l :: l in s.peers ==> HoldInv(l, s.peers[l], s.retired, s.holders))
    && PinnedInv(s.files, s.pins)
    && MainPinInv(s.pins, s.retired, s.holders)
    && HoldersInv(s.holders, s.peers)
    && VisibleInv(s.peers, s.hist, s.ledger, s.retired)
    && CreditInv(s.calls, |s.log|)
  }

  /** The main thread projects the index. */
  lemma FilesAreIndex(s: State)
    requires Inv(s)
    ensures s.files == s.index
  {
    hide LedgerInv, RoleInv, RecordInv, AckInv, HeldForAcks, HoldersInv, VisibleInv, MainPinInv, PinnedInv, HoldInv, PeerInv;
  }

  lemma InitialInv()
    ensures Inv(Initial)
  {
  }

  // --- Allocation and abandonment touch ownership only ---

  /** Changing a slot that is neither published nor retired changes nothing a thread can see. */
  lemma PrivateSlot(s: State, t: State, id: nat)
    requires Inv(s)
    requires t == s.(ledger := t.ledger, mem := t.mem, minted := t.minted)
    requires id in s.ledger ==> s.ledger[id].role.Reserved? || s.ledger[id].role.Private?
    requires id in t.ledger ==> t.ledger[id].role.Reserved? || t.ledger[id].role.Private?
    requires forall i :: i != id ==> (i in t.ledger <==> i in s.ledger) && (i in s.ledger ==> t.ledger[i] == s.ledger[i])
    requires LedgerInv(t.ledger, t.mem, t.minted)
    ensures Inv(t)
  {
    hide LogInv, LedgerInv, RecordInv, AckInv, HeldForAcks, HoldersInv, MainPinInv, PinnedInv, HoldInv, PeerInv, RoleInv, VisibleInv;
    PrivateSlotRole(s.ledger, t.ledger, s.index, s.retired, id);
    PrivateSlotVisible(s.peers, s.hist, s.ledger, t.ledger, s.retired, id);
  }

  lemma PrivateSlotRole(ledger: map<nat, Slot>, ledger': map<nat, Slot>, index: Files, retired: map<nat, Record>, id: nat)
    requires RoleInv(ledger, index, retired)
    requires id in ledger ==> ledger[id].role.Reserved? || ledger[id].role.Private?
    requires id in ledger' ==> ledger'[id].role.Reserved? || ledger'[id].role.Private?
    requires forall i :: i != id ==> (i in ledger' <==> i in ledger) && (i in ledger ==> ledger'[i] == ledger[i])
    ensures RoleInv(ledger', index, retired)
  {
  }

  lemma PrivateSlotVisible(peers: map<nat, Peer>, hist: seq<Files>, ledger: map<nat, Slot>, ledger': map<nat, Slot>, retired: map<nat, Record>, id: nat)
    requires VisibleInv(peers, hist, ledger, retired)
    requires id in ledger ==> ledger[id].role.Reserved? || ledger[id].role.Private?
    requires forall i :: i != id ==> (i in ledger' <==> i in ledger) && (i in ledger ==> ledger'[i] == ledger[i])
    ensures VisibleInv(peers, hist, ledger', retired)
  {
    forall l, n, k | l in peers && peers[l].applied <= n < |hist| && k in hist[n] && hist[n][k].Occupies()
      ensures Tracked(hist[n][k], n, ledger', retired)
    {
      assert Tracked(hist[n][k], n, ledger, retired);
    }
  }

  lemma ReserveKeepsInv(s: State, x: Extent, mem: Memory)
    requires Fits(s, x) && Extends(s, x, mem) && Inv(s)
    ensures Inv(AfterReserve(s, x, mem))
  {
    hide LogInv, RecordInv, AckInv, HeldForAcks, HoldersInv, MainPinInv, PinnedInv, HoldInv, PeerInv, RoleInv, VisibleInv;
    ReserveLedger(s.ledger, s.mem, s.minted, x, mem);
    PrivateSlot(s, AfterReserve(s, x, mem), s.minted);
  }

  lemma ReserveLedger(ledger: map<nat, Slot>, mem: Memory, minted: nat, x: Extent, mem': Memory)
    requires LedgerInv(ledger, mem, minted)
    requires x.length > 0 && forall i :: i in ledger && ledger[i].entry.Shared? ==> Disjoint(ledger[i].entry.extent, x)
    requires forall a :: a in mem ==> a in mem' && mem'[a] == mem[a]
    requires forall a :: Covers(x, a) ==> a in mem'
    ensures LedgerInv(ledger[minted := Slot(Shared(minted, minted, x, []), Reserved)], mem', minted + 1)
  {
  }

  lemma PlaceKeepsInv(s: State, e: Entry, mem: Memory)
    requires Placeable(s, e, mem) && Inv(s)
    ensures Inv(AfterPlace(s, e, mem))
  {
    hide LogInv, RecordInv, AckInv, HeldForAcks, HoldersInv, MainPinInv, PinnedInv, HoldInv, PeerInv, RoleInv, VisibleInv;
    PlaceLedger(s.ledger, s.mem, s.minted, e, mem);
    PrivateSlot(s, AfterPlace(s, e, mem), e.id);
  }

  lemma PlaceLedger(ledger: map<nat, Slot>, mem: Memory, minted: nat, e: Entry, mem': Memory)
    requires LedgerInv(ledger, mem, minted)
    requires e.id == minted && e.Occupies() && e.WellFormed() && Intact(mem', e) && mem.Keys <= mem'.Keys
    requires forall i :: i in ledger && ledger[i].entry.Shared? ==> Disjoint(ledger[i].entry.extent, e.extent)
    requires forall i, a :: i in ledger && ledger[i].entry.Shared? && Covers(ledger[i].entry.extent, a) && a in mem ==> mem'[a] == mem[a]
    ensures LedgerInv(ledger[e.id := Slot(e, Private)], mem', minted + 1)
  {
    forall i | i in ledger && !ledger[i].role.Reserved? && ledger[i].entry.Shared? ensures Intact(mem', ledger[i].entry) {
      IntactMoves(mem, mem', ledger[i].entry);
    }
    forall a | Covers(e.extent, a) ensures a in mem' {
      IntactAt(mem', e, a);
    }
    hide Intact, Disjoint;
  }

  lemma ScratchKeepsInv(s: State, mem: Memory)
    requires KeepsOwned(s, mem) && Inv(s)
    ensures Inv(s.(mem := mem))
  {
    hide LogInv, RecordInv, AckInv, HeldForAcks, HoldersInv, MainPinInv, PinnedInv, HoldInv, PeerInv, RoleInv, VisibleInv, Disjoint;
    ScratchLedger(s.ledger, s.mem, s.minted, mem);
  }

  lemma ScratchLedger(ledger: map<nat, Slot>, mem: Memory, minted: nat, mem': Memory)
    requires LedgerInv(ledger, mem, minted) && mem.Keys <= mem'.Keys
    requires forall i, a :: i in ledger && ledger[i].entry.Shared? && Covers(ledger[i].entry.extent, a) && a in mem ==> mem'[a] == mem[a]
    ensures LedgerInv(ledger, mem', minted)
  {
    forall i | i in ledger && !ledger[i].role.Reserved? && ledger[i].entry.Shared? ensures Intact(mem', ledger[i].entry) {
      IntactMoves(mem, mem', ledger[i].entry);
    }
    hide Intact, Disjoint;
  }

  lemma MintKeepsInv(s: State, e: Entry)
    requires Mintable(s, e) && Inv(s)
    ensures Inv(AfterMint(s, e))
  {
    hide LogInv, RecordInv, AckInv, HeldForAcks, HoldersInv, MainPinInv, PinnedInv, HoldInv, PeerInv, RoleInv, VisibleInv, Intact, Disjoint, Covers;
    MintLedger(s.ledger, s.mem, s.minted, e);
    PrivateSlot(s, AfterMint(s, e), e.id);
  }

  lemma MintLedger(ledger: map<nat, Slot>, mem: Memory, minted: nat, e: Entry)
    requires LedgerInv(ledger, mem, minted) && e.id == minted && !e.Occupies() && e.WellFormed()
    ensures LedgerInv(ledger[e.id := Slot(e, Private)], mem, minted + 1)
  {
  }

  lemma FillKeepsInv(s: State, id: nat, mem: Memory)
    requires Filling(s, id) && WritesWithin(s, id, mem) && Inv(s)
    ensures Inv(s.(mem := mem))
  {
    hide LogInv, RecordInv, AckInv, HeldForAcks, HoldersInv, MainPinInv, PinnedInv, HoldInv, PeerInv, RoleInv, VisibleInv;
    var x := s.ledger[id].entry.extent;
    forall i | i in s.ledger && i != id && s.ledger[i].entry.Shared? && !s.ledger[i].role.Reserved?
      ensures Intact(mem, s.ledger[i].entry)
    {
      DisjointMeansNoSharedByte(x, s.ledger[i].entry.extent);
      forall j | 0 <= j < |s.ledger[i].entry.bytes|
        ensures var a := Addr(s.ledger[i].entry.extent.segment, s.ledger[i].entry.extent.offset + j); a in mem && mem[a] == s.ledger[i].entry.bytes[j]
      {
        var a := Addr(s.ledger[i].entry.extent.segment, s.ledger[i].entry.extent.offset + j);
        assert Covers(s.ledger[i].entry.extent, a);
      }
    }
    PrivateSlot(s, s.(mem := mem), id);
  }

  lemma CompleteKeepsInv(s: State, id: nat, bytes: seq<byte>)
    requires Filling(s, id) && Completes(s, id, bytes) && Inv(s)
    ensures Inv(AfterComplete(s, id, bytes))
  {
    hide LogInv, RecordInv, AckInv, HeldForAcks, HoldersInv, MainPinInv, PinnedInv, HoldInv, PeerInv, RoleInv, VisibleInv;
    PrivateSlot(s, AfterComplete(s, id, bytes), id);
  }

  lemma AbandonKeepsInv(s: State, id: nat)
    requires Unpublished(s, id) && Inv(s)
    ensures Inv(AfterAbandon(s, id))
  {
    hide LogInv, RecordInv, AckInv, HeldForAcks, HoldersInv, MainPinInv, PinnedInv, HoldInv, PeerInv, RoleInv, VisibleInv;
    PrivateSlot(s, AfterAbandon(s, id), id);
  }
}
