/** Acknowledgements, releases, exits and frees keep the protocol invariant. */
module Retirement {
  import opened Layout
  import opened Protocol
  import opened Invariant
  import opened Consumers

  // --- Messages from a worker ---

  lemma ServeKeepsInv(s: State, l: nat)
    requires l in s.peers && s.peers[l].outbox != [] && Inv(s)
    ensures Inv(Served(s, l))
  {
    hide Inv, Served;
    match s.peers[l].outbox[0]
    case Mutate(_) => ServeRequest(s, l);
    case Release(_) => ServeRelease(s, l);
    case Ack(_, _) => ServeAck(s, l);
  }

  lemma PopPeer(p: Peer, log: seq<Update>, hist: seq<Files>)
    requires |hist| == |log| + 1 && PeerInv(p, log, hist) && p.outbox != []
    ensures Ordered(p.outbox)
    ensures p.outbox[0].Ack? ==> p.outbox[0].updateId == p.acked + 1
    ensures PeerInv(p.(outbox := p.outbox[1..], acked := if p.outbox[0].Ack? then p.acked + 1 else p.acked), log, hist)
  {
    hide InboxInv;
    OutboxMonotone(p.outbox[1..], if p.outbox[0].Ack? then p.acked + 1 else p.acked, p.applied);
  }

  lemma ServeRequest(s: State, l: nat)
    requires l in s.peers && s.peers[l].outbox != [] && s.peers[l].outbox[0].Mutate? && Inv(s)
    ensures Inv(Served(s, l))
  {
    hide LogInv, LedgerInv, RoleInv, RecordInv, AckInv, HeldForAcks, HoldersInv, VisibleInv, MainPinInv, PinnedInv, HoldInv, PeerInv;
    PopPeer(s.peers[l], s.log, s.hist);
    var p := s.peers[l];
    RequestServedHold(l, p, s.retired, s.holders);
    OnePeer(s, l, p.(outbox := p.outbox[1..]));
    var t := WithPeer(s, l, p.(outbox := p.outbox[1..]));
    CallsKeepInv(t, s.calls.(serving := s.calls.serving + {Req(l, p.outbox[0].request)}));
  }

  lemma RequestServedHold(l: nat, p: Peer, retired: map<nat, Record>, holders: map<nat, set<Holder>>)
    requires holders.Keys == retired.Keys && HoldInv(l, p, retired, holders)
    requires p.outbox != [] && p.outbox[0].Mutate?
    ensures HoldInv(l, p.(outbox := p.outbox[1..]), retired, holders)
  {
    forall r
      ensures Retaining(p.outbox[1..], r) <==> Retaining(p.outbox, r)
      ensures Releasing(p.outbox[1..], r) <==> Releasing(p.outbox, r)
    {
      HeadRetaining(p.outbox, r);
    }
    hide Retaining, Releasing;
  }

  lemma ServeRelease(s: State, l: nat)
    requires l in s.peers && s.peers[l].outbox != [] && s.peers[l].outbox[0].Release? && Inv(s)
    ensures Inv(Served(s, l))
  {
    hide LogInv, LedgerInv, RoleInv, RecordInv, AckInv, HeldForAcks, HoldersInv, VisibleInv, MainPinInv, PinnedInv, HoldInv, PeerInv;
    PopPeer(s.peers[l], s.log, s.hist);
    var p := s.peers[l];
    var id := p.outbox[0].retireId;
    ReleaseServedHold(l, p, s.retired, s.holders);
    var holders := s.holders[id := s.holders[id] - {Worker(l)}];
    WorkerHolds(s.holders, holders, s.peers, s.retired, l, s.pins);
    var t := s.(holders := holders);
    PeerAndHolders(s, t, l, p.(outbox := p.outbox[1..]));
  }

  /** The release of a version comes after the hold it ends was recorded. */
  lemma ReleaseServedHold(l: nat, p: Peer, retired: map<nat, Record>, holders: map<nat, set<Holder>>)
    requires holders.Keys == retired.Keys && HoldInv(l, p, retired, holders) && Ordered(p.outbox)
    requires p.outbox != [] && p.outbox[0].Release?
    ensures p.outbox[0].retireId in holders
    ensures Worker(l) in holders[p.outbox[0].retireId]
    ensures HoldInv(l, p.(outbox := p.outbox[1..]), retired,
      holders[p.outbox[0].retireId := holders[p.outbox[0].retireId] - {Worker(l)}])
  {
    var id := p.outbox[0].retireId;
    forall r
      ensures Retaining(p.outbox[1..], r) <==> Retaining(p.outbox, r)
      ensures Releasing(p.outbox, r) <==> r == id || Releasing(p.outbox[1..], r)
    {
      HeadRetaining(p.outbox, r);
    }
    assert !Releasing(p.outbox[1..], id) && !Retaining(p.outbox, id);
    hide Retaining, Releasing;
  }

  /** A change of one worker's holds concerns nobody else. */
  lemma WorkerHolds(holders: map<nat, set<Holder>>, holders': map<nat, set<Holder>>, peers: map<nat, Peer>, retired: map<nat, Record>, l: nat, pins: Pins)
    requires holders.Keys == holders'.Keys == retired.Keys
    requires forall r, h :: r in holders && h != Worker(l) ==> (h in holders[r] <==> h in holders'[r])
    requires HoldersInv(holders, peers) && l in peers
    requires MainPinInv(pins, retired, holders)
    requires forall q :: q in peers ==> HoldInv(q, peers[q], retired, holders)
    ensures HoldersInv(holders', peers)
    ensures MainPinInv(pins, retired, holders')
    ensures forall q :: q in peers && q != l ==> HoldInv(q, peers[q], retired, holders')
  {
    hide Retaining, Releasing;
  }

  /** Installing the new state of one link together with the holders it changed. */
  lemma PeerAndHolders(s: State, t: State, l: nat, p: Peer)
    requires Inv(s) && l in s.peers
    requires t == s.(holders := t.holders)
    requires t.holders.Keys == s.retired.Keys
    requires p.applied == s.peers[l].applied && p.acked == s.peers[l].acked
    requires PeerInv(p, s.log, s.hist) && PinnedInv(p.files, p.pins) && HoldInv(l, p, s.retired, t.holders)
    requires MainPinInv(s.pins, s.retired, t.holders) && HoldersInv(t.holders, s.peers)
    requires forall q :: q in s.peers && q != l ==> HoldInv(q, s.peers[q], s.retired, t.holders)
    ensures Inv(t.(peers := s.peers[l := p]))
  {
    hide LogInv, LedgerInv, RoleInv, RecordInv, AckInv, HeldForAcks, HoldersInv, VisibleInv, MainPinInv, PinnedInv, HoldInv, PeerInv;
    SamePointers(t, s.peers[l := p]);
  }

  lemma ServeAck(s: State, l: nat)
    requires l in s.peers && s.peers[l].outbox != [] && s.peers[l].outbox[0].Ack? && Inv(s)
    ensures Inv(Served(s, l))
  {
    hide LogInv, LedgerInv, RoleInv, RecordInv, AckInv, HeldForAcks, HoldersInv, VisibleInv, MainPinInv, PinnedInv, HoldInv, PeerInv;
    PopPeer(s.peers[l], s.log, s.hist);
    var p := s.peers[l];
    var q := p.(outbox := p.outbox[1..], acked := p.acked + 1);
    var holders := Hold(s.holders, p.outbox[0].retained, Worker(l));
    WorkerHolds(s.holders, holders, s.peers, s.retired, l, s.pins);
    AckServedHold(l, p, s.retired, s.holders);
    AckServedAcks(s.acks, s.peers, s.retired, |s.log|, l, q);
    PointerMoves(s, s.peers[l := q]);
    HoldersSamePeers(holders, s.peers, s.peers[l := q]);
  }

  lemma HoldersSamePeers(holders: map<nat, set<Holder>>, peers: map<nat, Peer>, peers': map<nat, Peer>)
    requires HoldersInv(holders, peers) && peers.Keys <= peers'.Keys
    ensures HoldersInv(holders, peers')
  {
  }

  lemma PointerMoves(s: State, peers: map<nat, Peer>)
    requires HeldForAcks(s.log, s.retired, s.peers)
    requires VisibleInv(s.peers, s.hist, s.ledger, s.retired)
    requires peers.Keys <= s.peers.Keys
    requires forall l :: l in peers ==> peers[l].applied >= s.peers[l].applied && peers[l].acked >= s.peers[l].acked
    ensures HeldForAcks(s.log, s.retired, peers)
    ensures VisibleInv(peers, s.hist, s.ledger, s.retired)
  {
    hide Tracked;
  }

  lemma AckServedAcks(acks: map<nat, Pending>, peers: map<nat, Peer>, retired: map<nat, Record>, count: nat, l: nat, q: Peer)
    requires AckInv(acks, peers, retired, count) && l in peers && q.acked == peers[l].acked + 1
    ensures AckInv(Acked(acks, q.acked, l), peers[l := q], retired, count)
  {
    hide AckRecords, AckLinks, RecordAcks;
    AckServedRecords(acks, peers, retired, count, l, q);
    AckServedLinks(acks, peers, l, q);
    AckServedWaiting(acks, peers, retired, count, l, q);
    assert peers[l := q].Keys == peers.Keys;
  }

  lemma AckServedRecords(acks: map<nat, Pending>, peers: map<nat, Peer>, retired: map<nat, Record>, count: nat, l: nat, q: Peer)
    requires AckRecords(acks, peers.Keys, retired, count)
    ensures AckRecords(Acked(acks, q.acked, l), peers.Keys, retired, count)
  {
  }

  lemma AckServedLinks(acks: map<nat, Pending>, peers: map<nat, Peer>, l: nat, q: Peer)
    requires AckLinks(acks, peers) && l in peers && q.acked == peers[l].acked + 1
    ensures AckLinks(Acked(acks, q.acked, l), peers[l := q])
  {
  }

  lemma AckServedWaiting(acks: map<nat, Pending>, peers: map<nat, Peer>, retired: map<nat, Record>, count: nat, l: nat, q: Peer)
    requires AckInv(acks, peers, retired, count) && l in peers && q.acked == peers[l].acked + 1
    ensures RecordAcks(Acked(acks, q.acked, l), peers[l := q], retired)
  {
    hide AckRecords;
  }

  /** The hold a worker announced becomes the hold the main kernel records. */
  lemma AckServedHold(l: nat, p: Peer, retired: map<nat, Record>, holders: map<nat, set<Holder>>)
    requires holders.Keys == retired.Keys && HoldInv(l, p, retired, holders)
    requires p.outbox != [] && p.outbox[0].Ack? && p.outbox[0].updateId == p.acked + 1
    ensures HoldInv(l, p.(outbox := p.outbox[1..], acked := p.acked + 1), retired,
      Hold(holders, p.outbox[0].retained, Worker(l)))
  {
    var m := p.outbox[0];
    forall r
      ensures Retaining(p.outbox, r) <==> r in m.retained || Retaining(p.outbox[1..], r)
      ensures Releasing(p.outbox[1..], r) <==> Releasing(p.outbox, r)
    {
      HeadRetaining(p.outbox, r);
    }
    assert forall r :: r in m.retained ==> r in retired && retired[r].updateId == p.acked + 1;
    hide Retaining, Releasing;
  }

  // --- Links come and go ---

  lemma NewLinkKeepsInv(s: State)
    requires Inv(s)
    ensures Inv(AfterLink(s))
  {
    hide LogInv, LedgerInv, RoleInv, RecordInv, AckInv, HeldForAcks, HoldersInv, VisibleInv, MainPinInv, PinnedInv, HoldInv, PeerInv;
    var l := s.nextLink + 1;
    var p := Peer(true, false, s.index, EmptyPins, [], [], |s.log|, |s.log|, 0, {});
    NewPeer(s.log, s.hist, s.index, s.files, s.retired, s.holders, s.peers, l);
    RecordsInRange(s);
    NewPointer(s, l, p);
    HoldersSamePeers(s.holders, s.peers, s.peers[l := p]);
  }

  lemma NewPeer(log: seq<Update>, hist: seq<Files>, index: Files, files: Files, retired: map<nat, Record>, holders: map<nat, set<Holder>>, peers: map<nat, Peer>, l: nat)
    requires |hist| == |log| + 1 && LogInv(log, hist, index, files)
    requires holders.Keys == retired.Keys && HoldersInv(holders, peers) && l !in peers
    ensures var p := Peer(true, false, index, EmptyPins, [], [], |log|, |log|, 0, {});
      PeerInv(p, log, hist) && PinnedInv(p.files, p.pins) && HoldInv(l, p, retired, holders)
  {
  }

  lemma RecordsInRange(s: State)
    requires |s.hist| == |s.log| + 1 && RecordInv(s.retired, s.nextRetire, s.log, s.hist)
    ensures forall r :: r in s.retired ==> 1 <= s.retired[r].updateId <= |s.log|
  {
  }

  lemma NewPointer(s: State, l: nat, p: Peer)
    requires |s.hist| == |s.log| + 1 && LogInv(s.log, s.hist, s.index, s.files)
    requires RoleInv(s.ledger, s.index, s.retired)
    requires AckInv(s.acks, s.peers, s.retired, |s.log|)
    requires HeldForAcks(s.log, s.retired, s.peers)
    requires VisibleInv(s.peers, s.hist, s.ledger, s.retired)
    requires l !in s.peers && p.acked == p.applied == |s.log|
    requires forall r :: r in s.retired ==> s.retired[r].updateId <= |s.log|
    ensures AckInv(s.acks, s.peers[l := p], s.retired, |s.log|)
    ensures HeldForAcks(s.log, s.retired, s.peers[l := p])
    ensures VisibleInv(s.peers[l := p], s.hist, s.ledger, s.retired)
  {
    hide AckInv, Tracked, LogInv, RoleInv;
    NewAcks(s.acks, s.peers, s.retired, |s.log|, l, p);
    forall k | k in s.hist[|s.log|] && s.hist[|s.log|][k].Occupies()
      ensures Tracked(s.hist[|s.log|][k], |s.log|, s.ledger, s.retired)
    {
      CurrentTracked(s, k);
    }
  }

  lemma CurrentTracked(s: State, k: Key)
    requires |s.hist| == |s.log| + 1 && LogInv(s.log, s.hist, s.index, s.files) && RoleInv(s.ledger, s.index, s.retired)
    requires k in s.hist[|s.log|]
    ensures Tracked(s.hist[|s.log|][k], |s.log|, s.ledger, s.retired)
  {
    hide SlotRoles, RecordRoles;
  }

  lemma NewAcks(acks: map<nat, Pending>, peers: map<nat, Peer>, retired: map<nat, Record>, count: nat, l: nat, p: Peer)
    requires AckInv(acks, peers, retired, count) && l !in peers && p.acked == count
    requires forall r :: r in retired ==> retired[r].updateId <= count
    ensures AckInv(acks, peers[l := p], retired, count)
  {
  }

  lemma ExitKeepsInv(s: State, l: nat)
    requires l in s.peers && Inv(s)
    ensures Inv(AfterExit(s, l))
  {
    hide LogInv, LedgerInv, RoleInv, RecordInv, AckInv, HeldForAcks, HoldersInv, VisibleInv, MainPinInv, PinnedInv, HoldInv, PeerInv;
    PointerMoves(s, s.peers - {l});
    WorkerHolds(s.holders, Unhold(s.holders, Worker(l)), s.peers, s.retired, l, s.pins);
    ExitAcksInv(s.acks, s.peers, s.retired, |s.log|, l);
    ExitHolders(s.holders, s.peers, l);
  }

  lemma ExitHolders(holders: map<nat, set<Holder>>, peers: map<nat, Peer>, l: nat)
    requires HoldersInv(holders, peers)
    ensures HoldersInv(Unhold(holders, Worker(l)), peers - {l})
  {
  }

  lemma ExitAcksInv(acks: map<nat, Pending>, peers: map<nat, Peer>, retired: map<nat, Record>, count: nat, l: nat)
    requires AckInv(acks, peers, retired, count) && l in peers
    ensures AckInv(ExitAcks(acks, l), peers - {l}, retired, count)
  {
  }

  // --- Free ---

  lemma FreeKeepsInv(s: State, id: nat)
    requires Releasable(s, id) && Inv(s)
    ensures Inv(AfterFree(s, id))
  {
    hide LogInv, RoleInv, RecordInv, HeldForAcks, HoldersInv, VisibleInv, MainPinInv, PinnedInv, HoldInv, InboxInv, Ordered, Intact, Disjoint, Covers;
    var t := AfterFree(s, id);
    assert forall l :: l in s.peers ==> s.retired[id].updateId <= s.peers[l].acked <= s.peers[l].applied;
    FreeRecords(s, id);
    FreeHeld(s, id);
    FreeRoles(s.ledger, s.index, s.retired, id);
    FreeLedger(s.ledger, s.mem, s.minted, s.retired[id].entry.id);
    FreeAcks(s.acks, s.peers, s.retired, |s.log|, id);
    FreeVisible(s, id);
    FreeMain(s.pins, s.retired, s.holders, id);
    FreeHolders(s.holders, s.peers, id);
    forall l | l in s.peers ensures HoldInv(l, s.peers[l], t.retired, t.holders) {
      FreeHold(l, s.peers[l], s.retired, s.holders, id);
    }
    hide AckInv, PeerInv, LedgerInv;
  }

  lemma FreeHolders(holders: map<nat, set<Holder>>, peers: map<nat, Peer>, id: nat)
    requires HoldersInv(holders, peers)
    ensures HoldersInv(holders - {id}, peers)
  {
  }

  lemma FreeLedger(ledger: map<nat, Slot>, mem: Memory, minted: nat, i: nat)
    requires LedgerInv(ledger, mem, minted)
    ensures LedgerInv(ledger - {i}, mem, minted)
  {
    hide Intact, Disjoint, Covers;
  }

  lemma FreeRecords(s: State, id: nat)
    requires |s.hist| == |s.log| + 1 && RecordInv(s.retired, s.nextRetire, s.log, s.hist)
    ensures RecordInv(s.retired - {id}, s.nextRetire, s.log, s.hist)
  {
  }

  lemma FreeHeld(s: State, id: nat)
    requires HeldForAcks(s.log, s.retired, s.peers) && id in s.retired
    requires |s.hist| == |s.log| + 1 && RecordInv(s.retired, s.nextRetire, s.log, s.hist)
    requires forall l :: l in s.peers ==> s.retired[id].updateId <= s.peers[l].acked
    ensures HeldForAcks(s.log, s.retired - {id}, s.peers)
  {
  }

  lemma FreeRoles(ledger: map<nat, Slot>, index: Files, retired: map<nat, Record>, id: nat)
    requires RoleInv(ledger, index, retired) && id in retired
    requires forall i :: i in ledger ==> ledger[i].entry.id == i
    ensures RoleInv(ledger - {retired[id].entry.id}, index, retired - {id})
  {
  }

  lemma FreeAcks(acks: map<nat, Pending>, peers: map<nat, Peer>, retired: map<nat, Record>, count: nat, id: nat)
    requires AckInv(acks, peers, retired, count) && id in retired && retired[id].updateId !in acks
    ensures AckInv(acks, peers, retired - {id}, count)
  {
  }

  lemma FreeMain(pins: Pins, retired: map<nat, Record>, holders: map<nat, set<Holder>>, id: nat)
    requires holders.Keys == retired.Keys && MainPinInv(pins, retired, holders) && id in retired && Main !in holders[id]
    ensures MainPinInv(pins, retired - {id}, holders - {id})
  {
  }

  lemma FreeHold(l: nat, p: Peer, retired: map<nat, Record>, holders: map<nat, set<Holder>>, id: nat)
    requires holders.Keys == retired.Keys && HoldInv(l, p, retired, holders) && OutboxInv(p.outbox, p.acked, p.applied)
    requires id in retired && Worker(l) !in holders[id] && retired[id].updateId <= p.acked
    ensures HoldInv(l, p, retired - {id}, holders - {id})
  {
    if Retaining(p.outbox, id) {
      var i :| 0 <= i < |p.outbox| && p.outbox[i].Ack? && id in p.outbox[i].retained;
      OutboxAcksAhead(p.outbox, p.acked, p.applied, i);
    }
    assert forall i :: 0 <= i < |p.outbox| && p.outbox[i].Ack? ==> id !in p.outbox[i].retained;
    assert !BoundTo(p.pins, retired[id].entry, id) && !Releasing(p.outbox, id);
    hide Retaining, Releasing, OutboxInv;
  }

  /** No link can still see a version whose retirement every link acknowledged. */
  lemma FreeVisible(s: State, id: nat)
    requires VisibleInv(s.peers, s.hist, s.ledger, s.retired) && id in s.retired
    requires RoleInv(s.ledger, s.index, s.retired)
    requires forall l :: l in s.peers ==> s.retired[id].updateId <= s.peers[l].applied
    ensures VisibleInv(s.peers, s.hist, s.ledger - {s.retired[id].entry.id}, s.retired - {id})
  {
    forall l, n, k | l in s.peers && s.peers[l].applied <= n < |s.hist| && k in s.hist[n] && s.hist[n][k].Occupies()
      ensures Tracked(s.hist[n][k], n, s.ledger - {s.retired[id].entry.id}, s.retired - {id})
    {
      assert Tracked(s.hist[n][k], n, s.ledger, s.retired);
    }
  }
}
