/** Pins, ports and exits keep the protocol invariant. */
module Consumers {
  import opened Layout
  import opened Protocol
  import opened Invariant

  // --- Queues ---

  lemma {:induction false} InboxAppendUpdate(q: seq<Down>, applied: nat, log: seq<Update>, u: Update)
    requires InboxInv(q, applied, log)
    ensures InboxInv(q + [Deliver(u)], applied, log + [u])
    decreases |q|
  {
    if q == [] {
      assert (q + [Deliver(u)])[1..] == [];
    } else {
      assert (q + [Deliver(u)])[1..] == q[1..] + [Deliver(u)];
      InboxAppendUpdate(q[1..], if q[0].Deliver? then applied + 1 else applied, log, u);
    }
  }

  lemma {:induction false} InboxAppendReply(q: seq<Down>, applied: nat, log: seq<Update>, r: nat, c: nat)
    requires InboxInv(q, applied, log) && c <= |log|
    ensures InboxInv(q + [Reply(r, c)], applied, log)
    decreases |q|
  {
    if q == [] {
      assert (q + [Reply(r, c)])[1..] == [];
    } else {
      assert (q + [Reply(r, c)])[1..] == q[1..] + [Reply(r, c)];
      InboxAppendReply(q[1..], if q[0].Deliver? then applied + 1 else applied, log, r, c);
    }
  }

  lemma {:induction false} OutboxAppend(q: seq<Up>, acked: nat, applied: nat, m: Up)
    requires OutboxInv(q, acked, applied)
    requires m.Ack? ==> m.updateId == applied + 1
    ensures OutboxInv(q + [m], acked, if m.Ack? then applied + 1 else applied)
    decreases |q|
  {
    if q == [] {
      assert (q + [m])[1..] == [];
    } else {
      assert (q + [m])[1..] == q[1..] + [m];
      OutboxAppend(q[1..], if q[0].Ack? then acked + 1 else acked, applied, m);
    }
  }

  /** Acknowledgements under way name updates after `acked`. */
  lemma {:induction false} OutboxAcksAhead(q: seq<Up>, acked: nat, applied: nat, i: nat)
    requires OutboxInv(q, acked, applied) && i < |q| && q[i].Ack?
    ensures acked < q[i].updateId
    decreases |q|
  {
    if i > 0 {
      OutboxAcksAhead(q[1..], if q[0].Ack? then acked + 1 else acked, applied, i - 1);
    }
  }

  lemma AppendRetaining(q: seq<Up>, m: Up, r: nat)
    ensures Retaining(q + [m], r) <==> Retaining(q, r) || (m.Ack? && r in m.retained)
    ensures Releasing(q + [m], r) <==> Releasing(q, r) || m == Release(r)
  {
    var t := q + [m];
    assert t[|q|] == m;
    forall i | 0 <= i < |q| ensures t[i] == q[i] {}
  }

  lemma HeadRetaining(q: seq<Up>, r: nat)
    requires q != []
    ensures Retaining(q, r) <==> (q[0].Ack? && r in q[0].retained) || Retaining(q[1..], r)
    ensures Releasing(q, r) <==> q[0] == Release(r) || Releasing(q[1..], r)
  {
    var t := q[1..];
    forall i | 0 < i < |q| ensures q[i] == t[i - 1] {}
    if Retaining(t, r) {
      var i :| 0 <= i < |t| && t[i].Ack? && r in t[i].retained;
      assert q[i + 1] == t[i];
    }
    if Releasing(t, r) {
      var i :| 0 <= i < |t| && t[i] == Release(r);
      assert q[i + 1] == t[i];
    }
  }

  // --- Events of one link that leave its history alone ---

  lemma SamePointers(s: State, peers: map<nat, Peer>)
    requires AckInv(s.acks, s.peers, s.retired, |s.log|)
    requires HeldForAcks(s.log, s.retired, s.peers)
    requires HoldersInv(s.holders, s.peers)
    requires VisibleInv(s.peers, s.hist, s.ledger, s.retired)
    requires peers.Keys == s.peers.Keys
    requires forall l :: l in peers ==> peers[l].applied == s.peers[l].applied && peers[l].acked == s.peers[l].acked
    ensures AckInv(s.acks, peers, s.retired, |s.log|)
    ensures HeldForAcks(s.log, s.retired, peers)
    ensures HoldersInv(s.holders, peers)
    ensures VisibleInv(peers, s.hist, s.ledger, s.retired)
  {
    hide Tracked;
  }

  lemma OnePeer(s: State, l: nat, p: Peer)
    requires Inv(s) && l in s.peers
    requires p.applied == s.peers[l].applied && p.acked == s.peers[l].acked
    requires PeerInv(p, s.log, s.hist) && PinnedInv(p.files, p.pins) && HoldInv(l, p, s.retired, s.holders)
    ensures Inv(WithPeer(s, l, p))
  {
    hide LogInv, LedgerInv, RoleInv, RecordInv, AckInv, HeldForAcks, PeerInv, PinnedInv, HoldInv, MainPinInv, HoldersInv, VisibleInv;
    SamePointers(s, s.peers[l := p]);
  }

  /** The holds of a link concern its pins and what it has under way, nothing else. */
  lemma SameHold(l: nat, p: Peer, q: Peer, retired: map<nat, Record>, holders: map<nat, set<Holder>>)
    requires holders.Keys == retired.Keys && HoldInv(l, p, retired, holders)
    requires q.pins == p.pins && q.outbox == p.outbox && q.acked == p.acked
    ensures HoldInv(l, q, retired, holders)
  {
    hide Retaining, Releasing;
  }

  lemma FlagsKeepInv(s: State, l: nat, alive: bool, attached: bool)
    requires l in s.peers && Inv(s)
    ensures Inv(WithPeer(s, l, s.peers[l].(alive := alive, attached := attached)))
  {
    hide LogInv, LedgerInv, RoleInv, RecordInv, AckInv, HeldForAcks, HoldersInv, VisibleInv, MainPinInv, PinnedInv, HoldInv, PeerInv;
    var q := s.peers[l].(alive := alive, attached := attached);
    SameHold(l, s.peers[l], q, s.retired, s.holders);
    FlagsPeer(s.peers[l], s.log, s.hist, alive, attached);
    OnePeer(s, l, q);
  }

  lemma FlagsPeer(p: Peer, log: seq<Update>, hist: seq<Files>, alive: bool, attached: bool)
    requires |hist| == |log| + 1 && PeerInv(p, log, hist)
    ensures PeerInv(p.(alive := alive, attached := attached), log, hist)
  {
    hide InboxInv, OutboxInv, Ordered;
  }

  /** Which requests are worked on is no part of the invariant. */
  lemma CallsKeepInv(s: State, calls: Calls)
    requires Inv(s) && CreditInv(calls, |s.log|)
    ensures Inv(s.(calls := calls))
  {
    hide LogInv, LedgerInv, RoleInv, RecordInv, AckInv, HeldForAcks, HoldersInv, VisibleInv, MainPinInv, PinnedInv, HoldInv, PeerInv;
  }

  lemma AnswerKeepsInv(s: State, q: Req)
    requires Inv(s)
    ensures Inv(Answered(s, q))
  {
    hide LogInv, LedgerInv, RoleInv, RecordInv, AckInv, HeldForAcks, HoldersInv, VisibleInv, MainPinInv, PinnedInv, HoldInv, PeerInv;
    var calls := s.calls.(serving := s.calls.serving - {q});
    CallsKeepInv(s, calls);
    if q.link in s.peers {
      ReplyKeepsInv(s.(calls := calls), q.link, q.id, CommitOf(s.calls, q));
    }
  }

  lemma ReplyKeepsInv(s: State, l: nat, r: nat, c: nat)
    requires l in s.peers && c <= |s.log| && Inv(s)
    ensures Inv(WithPeer(s, l, Queue(s.peers[l], Reply(r, c))))
  {
    hide LogInv, LedgerInv, RoleInv, RecordInv, AckInv, HeldForAcks, HoldersInv, VisibleInv, MainPinInv, PinnedInv, HoldInv, PeerInv;
    var q := Queue(s.peers[l], Reply(r, c));
    SameHold(l, s.peers[l], q, s.retired, s.holders);
    AnswerPeer(s.peers[l], s.log, s.hist, r, c);
    OnePeer(s, l, q);
  }

  lemma AnswerPeer(p: Peer, log: seq<Update>, hist: seq<Files>, r: nat, c: nat)
    requires |hist| == |log| + 1 && c <= |log| && PeerInv(p, log, hist)
    ensures PeerInv(Queue(p, Reply(r, c)), log, hist)
  {
    hide OutboxInv, Ordered;
    InboxAppendReply(p.inbox, p.applied, log, r, c);
    hide InboxInv;
  }

  lemma RequestKeepsInv(s: State, l: nat, r: nat)
    requires l in s.peers && Inv(s)
    ensures Inv(WithPeer(s, l, Asked(s.peers[l], r)))
  {
    hide LogInv, LedgerInv, RoleInv, RecordInv, AckInv, HeldForAcks, MainPinInv, HoldersInv, VisibleInv, HoldInv, PinnedInv, InboxInv, OutboxInv;
    var p := s.peers[l];
    OutboxAppend(p.outbox, p.acked, p.applied, Mutate(r));
    RequestHold(l, p, s.retired, s.holders, r);
    SameHold(l, Send(p, Mutate(r)), Asked(p, r), s.retired, s.holders);
    OnePeer(s, l, Asked(p, r));
  }

  lemma RequestHold(l: nat, p: Peer, retired: map<nat, Record>, holders: map<nat, set<Holder>>, r: nat)
    requires holders.Keys == retired.Keys && HoldInv(l, p, retired, holders)
    ensures HoldInv(l, Send(p, Mutate(r)), retired, holders)
  {
    forall id
      ensures Retaining(p.outbox + [Mutate(r)], id) <==> Retaining(p.outbox, id)
      ensures Releasing(p.outbox + [Mutate(r)], id) <==> Releasing(p.outbox, id)
    {
      AppendRetaining(p.outbox, Mutate(r), id);
    }
    hide Retaining, Releasing;
  }

  lemma TakeReplyKeepsInv(s: State, l: nat)
    requires l in s.peers && s.peers[l].inbox != [] && s.peers[l].inbox[0].Reply? && Inv(s)
    ensures Inv(WithPeer(s, l, Received(s.peers[l])))
  {
    hide LogInv, LedgerInv, RoleInv, RecordInv, AckInv, HeldForAcks, HoldersInv, VisibleInv, MainPinInv, PinnedInv, HoldInv, PeerInv, Bind, Apply;
    SameHold(l, s.peers[l], Received(s.peers[l]), s.retired, s.holders);
    TakeReplyPeer(s.peers[l], s.log, s.hist);
    OnePeer(s, l, Received(s.peers[l]));
  }

  lemma TakeReplyPeer(p: Peer, log: seq<Update>, hist: seq<Files>)
    requires |hist| == |log| + 1 && PeerInv(p, log, hist) && p.inbox != [] && p.inbox[0].Reply?
    ensures PeerInv(Received(p), log, hist)
  {
    hide OutboxInv, Ordered;
  }

  lemma PinKeepsInv(s: State, who: Holder, k: Key)
    requires Running(s, who) && k in FilesOf(s, who) && Inv(s)
    ensures Inv(WithPins(s, who, Acquire(PinsOf(s, who), FilesOf(s, who)[k])))
  {
    hide LogInv, LedgerInv, RoleInv, RecordInv, AckInv, HeldForAcks, HoldersInv, VisibleInv, MainPinInv, PinnedInv, HoldInv, InboxInv, OutboxInv, Ordered;
    match who
    case Main =>
      PinOne(s.files, s.pins, k);
      PinMain(s.pins, s.files[k], s.retired, s.holders);
    case Worker(l) =>
      var p := s.peers[l];
      PinOne(p.files, p.pins, k);
      PinWorker(l, p, p.files[k], s.retired, s.holders);
      OnePeer(s, l, p.(pins := Acquire(p.pins, p.files[k])));
  }

  lemma PinOne(files: Files, pins: Pins, k: Key)
    requires PinnedInv(files, pins) && k in files
    ensures PinnedInv(files, Acquire(pins, files[k]))
  {
  }

  lemma PinMain(pins: Pins, e: Entry, retired: map<nat, Record>, holders: map<nat, set<Holder>>)
    requires holders.Keys == retired.Keys && MainPinInv(pins, retired, holders)
    ensures MainPinInv(Acquire(pins, e), retired, holders)
  {
  }

  lemma PinWorker(l: nat, p: Peer, e: Entry, retired: map<nat, Record>, holders: map<nat, set<Holder>>)
    requires holders.Keys == retired.Keys && HoldInv(l, p, retired, holders)
    ensures HoldInv(l, p.(pins := Acquire(p.pins, e)), retired, holders)
  {
    hide Retaining, Releasing;
  }

  lemma DropPinned(files: Files, pins: Pins, e: Entry)
    requires PinnedInv(files, pins) && e in pins.counts
    ensures PinnedInv(files, Drop(pins, e))
  {
  }

  lemma UnpinKeepsInv(s: State, who: Holder, e: Entry)
    requires Running(s, who) && e in PinsOf(s, who).counts && Inv(s)
    ensures Inv(Unpinned(s, who, e))
  {
    DropPinned(FilesOf(s, who), PinsOf(s, who), e);
    match who
    case Main => UnpinMain(s, e);
    case Worker(l) => UnpinWorker(s, l, e);
  }

  /** Dropping holds of the main thread leaves every worker's holds as they are. */
  lemma MainUnholds(holders: map<nat, set<Holder>>, holders': map<nat, set<Holder>>, peers: map<nat, Peer>, retired: map<nat, Record>)
    requires holders.Keys == holders'.Keys == retired.Keys
    requires forall r, l :: r in holders ==> (Worker(l) in holders[r] <==> Worker(l) in holders'[r])
    requires HoldersInv(holders, peers)
    requires forall l :: l in peers ==> HoldInv(l, peers[l], retired, holders)
    ensures HoldersInv(holders', peers)
    ensures forall l :: l in peers ==> HoldInv(l, peers[l], retired, holders')
  {
    hide Retaining, Releasing;
  }

  lemma DropMain(pins: Pins, retired: map<nat, Record>, holders: map<nat, set<Holder>>, e: Entry)
    requires holders.Keys == retired.Keys && MainPinInv(pins, retired, holders) && e in pins.counts
    ensures Freed(pins, e).Some? ==> Freed(pins, e).value in holders
    ensures MainPinInv(Drop(pins, e), retired, match Freed(pins, e) case None => holders case Some(id) => holders[id := holders[id] - {Main}])
  {
  }

  lemma UnpinMain(s: State, e: Entry)
    requires Inv(s) && e in s.pins.counts && PinnedInv(s.files, Drop(s.pins, e))
    ensures Inv(Unpinned(s, Main, e))
  {
    hide LogInv, LedgerInv, RoleInv, RecordInv, AckInv, HeldForAcks, PeerInv, VisibleInv, HoldInv, MainPinInv, PinnedInv, HoldersInv;
    DropMain(s.pins, s.retired, s.holders, e);
    var holders := match Freed(s.pins, e) case None => s.holders case Some(id) => s.holders[id := s.holders[id] - {Main}];
    MainUnholds(s.holders, holders, s.peers, s.retired);
    assert Unpinned(s, Main, e) == s.(pins := Drop(s.pins, e), holders := holders);
    hide Drop, Freed, Unpinned;
  }

  lemma UnpinWorker(s: State, l: nat, e: Entry)
    requires Live(s, l) && e in s.peers[l].pins.counts && Inv(s)
    requires PinnedInv(s.peers[l].files, Drop(s.peers[l].pins, e))
    ensures Inv(Unpinned(s, Worker(l), e))
  {
    hide LogInv, LedgerInv, RoleInv, RecordInv, AckInv, HeldForAcks, HoldersInv, VisibleInv, MainPinInv, PinnedInv, HoldInv, PeerInv, Ordered, Drop;
    var p := s.peers[l];
    var q := p.(pins := Drop(p.pins, e));
    match Freed(p.pins, e)
    case None =>
      DropHold(l, p, e, s.retired, s.holders);
      DropPeer(p, e, s.log, s.hist);
      OnePeer(s, l, q);
    case Some(id) =>
      OrderedPeer(p, s.log, s.hist);
      ReleaseHold(l, p, e, s.retired, s.holders);
      ReleasePeer(p, e, s.log, s.hist);
      OnePeer(s, l, Send(q, Release(id)));
      assert Unpinned(s, Worker(l), e) == WithPeer(s, l, Send(q, Release(id)));
  }

  lemma OrderedPeer(p: Peer, log: seq<Update>, hist: seq<Files>)
    requires |hist| == |log| + 1 && PeerInv(p, log, hist)
    ensures Ordered(p.outbox)
  {
  }

  lemma DropPeer(p: Peer, e: Entry, log: seq<Update>, hist: seq<Files>)
    requires |hist| == |log| + 1 && PeerInv(p, log, hist) && e in p.pins.counts
    ensures PeerInv(p.(pins := Drop(p.pins, e)), log, hist)
  {
    hide InboxInv, OutboxInv, Ordered;
  }

  lemma ReleasePeer(p: Peer, e: Entry, log: seq<Update>, hist: seq<Files>)
    requires |hist| == |log| + 1 && PeerInv(p, log, hist) && e in p.pins.counts && Freed(p.pins, e).Some?
    requires Ordered(p.outbox + [Release(p.pins.bound[e])])
    ensures PeerInv(Send(p.(pins := Drop(p.pins, e)), Release(p.pins.bound[e])), log, hist)
  {
    hide Ordered, InboxInv;
    OutboxAppend(p.outbox, p.acked, p.applied, Release(p.pins.bound[e]));
    hide OutboxInv;
  }

  lemma DropHold(l: nat, p: Peer, e: Entry, retired: map<nat, Record>, holders: map<nat, set<Holder>>)
    requires holders.Keys == retired.Keys && HoldInv(l, p, retired, holders)
    requires e in p.pins.counts && Freed(p.pins, e) == None
    ensures HoldInv(l, p.(pins := Drop(p.pins, e)), retired, holders)
  {
    hide Retaining, Releasing;
  }

  /** The last consumer of a retired version sends its release. */
  lemma ReleaseHold(l: nat, p: Peer, e: Entry, retired: map<nat, Record>, holders: map<nat, set<Holder>>)
    requires holders.Keys == retired.Keys && HoldInv(l, p, retired, holders) && Ordered(p.outbox)
    requires e in p.pins.counts && Freed(p.pins, e).Some?
    ensures HoldInv(l, Send(p.(pins := Drop(p.pins, e)), Release(p.pins.bound[e])), retired, holders)
    ensures Ordered(p.outbox + [Release(p.pins.bound[e])])
  {
    hide Ordered, Retaining, Releasing;
    var id := p.pins.bound[e];
    AppendRelease(p.outbox, id);
    forall r
      ensures Retaining(p.outbox + [Release(id)], r) <==> Retaining(p.outbox, r)
      ensures Releasing(p.outbox + [Release(id)], r) <==> Releasing(p.outbox, r) || r == id
    {
      AppendRetaining(p.outbox, Release(id), r);
    }
  }

  lemma AppendRelease(q: seq<Up>, id: nat)
    requires Ordered(q) && !Releasing(q, id)
    ensures Ordered(q + [Release(id)])
  {
  }

  // --- Applying an update ---

  lemma ReceiveKeepsInv(s: State, l: nat)
    requires l in s.peers && s.peers[l].inbox != [] && Inv(s)
    ensures Inv(WithPeer(s, l, Received(s.peers[l])))
  {
    hide LogInv, LedgerInv, RoleInv, RecordInv, AckInv, HeldForAcks, HoldersInv, VisibleInv, MainPinInv, PinnedInv, HoldInv, PeerInv;
    if s.peers[l].inbox[0].Reply? {
      TakeReplyKeepsInv(s, l);
    } else {
      BindPinned(s, l);
      DeliverHold(s, l);
      DeliverPeer(s, l);
      DeliverElsewhere(s, s.peers[l := Received(s.peers[l])]);
    }
  }

  /** Applying more updates, without acknowledging any, only narrows what a link can still see. */
  lemma DeliverElsewhere(s: State, peers: map<nat, Peer>)
    requires AckInv(s.acks, s.peers, s.retired, |s.log|)
    requires HeldForAcks(s.log, s.retired, s.peers)
    requires HoldersInv(s.holders, s.peers)
    requires VisibleInv(s.peers, s.hist, s.ledger, s.retired)
    requires peers.Keys == s.peers.Keys
    requires forall l :: l in peers ==> peers[l].applied >= s.peers[l].applied && peers[l].acked == s.peers[l].acked
    ensures AckInv(s.acks, peers, s.retired, |s.log|)
    ensures HeldForAcks(s.log, s.retired, peers)
    ensures HoldersInv(s.holders, peers)
    ensures VisibleInv(peers, s.hist, s.ledger, s.retired)
  {
    hide Tracked;
  }

  lemma DeliverPeer(s: State, l: nat)
    requires l in s.peers && s.peers[l].inbox != [] && s.peers[l].inbox[0].Deliver? && Inv(s)
    ensures PeerInv(Received(s.peers[l]), s.log, s.hist)
  {
    hide LedgerInv, RoleInv, RecordInv, AckInv, HeldForAcks, HoldersInv, VisibleInv, MainPinInv, PinnedInv, HoldInv, Retaining, Releasing, OutboxInv;
    var p := s.peers[l];
    var u := p.inbox[0].update;
    var m := Ack(u.id, RetainedIds(p.files, p.pins, u));
    OutboxAppend(p.outbox, p.acked, p.applied, m);
    forall i | 0 <= i < |p.outbox| && p.outbox[i].Release?
      ensures p.outbox[i].retireId !in m.retained
    {
      if p.outbox[i].retireId in m.retained {
        NotYetHeld(s, l, p.outbox[i].retireId);
        SomeReleasing(p.outbox, i);
      }
    }
  }

  lemma SomeReleasing(q: seq<Up>, i: nat)
    requires i < |q| && q[i].Release?
    ensures Releasing(q, q[i].retireId)
  {
  }

  /** A version the next update retires is not bound, announced or released before. */
  lemma NotYetHeld(s: State, l: nat, r: nat)
    requires l in s.peers && s.peers[l].inbox != [] && s.peers[l].inbox[0].Deliver? && Inv(s)
    requires r in s.peers[l].inbox[0].update.retired.Values
    ensures r in s.retired && s.retired[r].updateId == s.peers[l].applied + 1
    ensures Worker(l) !in s.holders[r]
    ensures !Retaining(s.peers[l].outbox, r)
    ensures !BoundTo(s.peers[l].pins, s.retired[r].entry, r)
    ensures !Releasing(s.peers[l].outbox, r)
  {
    hide LedgerInv, RoleInv, AckInv, HoldersInv, VisibleInv, MainPinInv, PinnedInv, LogInv, Releasing;
    var p := s.peers[l];
    var n := p.applied;
    assert s.log[n] == p.inbox[0].update;
    var k :| k in s.log[n].retired && s.log[n].retired[k] == r;
    assert r in s.retired && s.retired[r].updateId == n + 1;
    if Retaining(p.outbox, r) {
      var i :| 0 <= i < |p.outbox| && p.outbox[i].Ack? && r in p.outbox[i].retained;
      OutboxAcksBehind(p.outbox, p.acked, n, i);
    }
  }

  lemma {:induction false} OutboxAcksBehind(q: seq<Up>, acked: nat, applied: nat, i: nat)
    requires OutboxInv(q, acked, applied) && i < |q| && q[i].Ack?
    ensures q[i].updateId <= applied
    decreases |q|
  {
    OutboxMonotone(q, acked, applied);
    if i > 0 {
      OutboxAcksBehind(q[1..], if q[0].Ack? then acked + 1 else acked, applied, i - 1);
    } else {
      OutboxMonotone(q[1..], acked + 1, applied);
    }
  }

  lemma {:induction false} OutboxMonotone(q: seq<Up>, acked: nat, applied: nat)
    requires OutboxInv(q, acked, applied)
    ensures acked <= applied
    decreases |q|
  {
    if q != [] {
      OutboxMonotone(q[1..], if q[0].Ack? then acked + 1 else acked, applied);
    }
  }

  // --- Binding ---

  /** No version stands under two of the keys an update retires. */
  ghost predicate DistinctVersions(files: Files, u: Update) {
    forall j, k :: j in files && k in files && j in u.retired && k in u.retired && files[j] == files[k] ==> j == k
  }

  ghost predicate Rebound(files: Files, pins: Pins, u: Update, e: Entry) {
    exists k :: k in InUse(files, pins, u) && files[k] == e
  }

  /** What `Bind` does to one version. */
  lemma BindAt(files: Files, pins: Pins, u: Update, e: Entry)
    requires DistinctVersions(files, u)
    ensures Bind(files, pins, u).counts == pins.counts
    ensures e in Bind(files, pins, u).bound <==> e in pins.bound || Rebound(files, pins, u, e)
    ensures forall k :: k in InUse(files, pins, u) && files[k] == e ==> Bind(files, pins, u).bound[e] == u.retired[k]
    ensures e in pins.bound && !Rebound(files, pins, u, e) ==> Bind(files, pins, u).bound[e] == pins.bound[e]
  {
  }

  lemma BindKeepsPinned(files: Files, pins: Pins, u: Update)
    requires PinnedInv(files, pins) && DistinctVersions(files, u) && RetiresReplaced(files, u)
    ensures PinnedInv(Apply(files, u), Bind(files, pins, u))
  {
    var pins' := Bind(files, pins, u);
    forall e
      ensures e in pins'.bound ==> e in pins'.counts
      ensures e in pins'.counts && e !in pins'.bound && e.Occupies() ==> exists k :: k in Apply(files, u) && Apply(files, u)[k] == e
    {
      BindAt(files, pins, u, e);
      if e in pins'.counts && e !in pins'.bound && e.Occupies() {
        var k :| k in files && files[k] == e;
        assert k !in InUse(files, pins, u);
        assert k in Apply(files, u) && Apply(files, u)[k] == e;
      }
    }
  }

  /** A record is bound after `u` if it was before or if `u` retired it while in use. */
  lemma BindRecord(files: Files, pins: Pins, u: Update, retired: map<nat, Record>, r: nat)
    requires DistinctVersions(files, u)
    requires forall k :: k in u.retired ==> k in files && u.retired[k] in retired && retired[u.retired[k]].entry == files[k]
    requires r in retired
    requires forall q :: q in retired && retired[q].entry == retired[r].entry ==> q == r
    ensures BoundTo(Bind(files, pins, u), retired[r].entry, r) <==> BoundTo(pins, retired[r].entry, r) || r in RetainedIds(files, pins, u)
  {
    var e := retired[r].entry;
    BindAt(files, pins, u, e);
    if r in RetainedIds(files, pins, u) {
      var k :| k in InUse(files, pins, u) && u.retired[k] == r;
      assert files[k] == e;
    }
  }

  lemma UniqueRecords(ledger: map<nat, Slot>, index: Files, retired: map<nat, Record>)
    requires RoleInv(ledger, index, retired)
    ensures forall q, r :: q in retired && r in retired && retired[q].entry == retired[r].entry ==> q == r
  {
  }

  /** The facts about the next update of a port that binding relies on. */
  lemma NextUpdate(s: State, l: nat)
    requires l in s.peers && s.peers[l].inbox != [] && s.peers[l].inbox[0].Deliver? && Inv(s)
    ensures var p := s.peers[l]; var u := p.inbox[0].update;
      && DistinctVersions(p.files, u) && RetiresReplaced(p.files, u)
      && forall k :: k in u.retired ==> k in p.files && u.retired[k] in s.retired && s.retired[u.retired[k]].entry == p.files[k]
  {
    NextIsLogged(s, l);
    NextRecorded(s, l);
    UniqueRecords(s.ledger, s.index, s.retired);
    hide Inv, RetiresReplaced, RoleInv;
  }

  lemma NextIsLogged(s: State, l: nat)
    requires l in s.peers && s.peers[l].inbox != [] && s.peers[l].inbox[0].Deliver? && Inv(s)
    ensures var p := s.peers[l];
      && p.applied < |s.log| < |s.hist| && p.inbox[0].update == s.log[p.applied] && p.files == s.hist[p.applied]
      && RetiresReplaced(p.files, p.inbox[0].update)
  {
    hide LedgerInv, AckInv, HoldersInv, VisibleInv, MainPinInv, PinnedInv, HoldInv, LogInv, OutboxInv, Ordered, RoleInv, HeldForAcks, RetiresReplaced, LoggedRecords, RecordedLog;
  }

  /** What the next update retires is on record, as this worker has not acknowledged it. */
  lemma NextRecorded(s: State, l: nat)
    requires l in s.peers && s.peers[l].inbox != [] && s.peers[l].inbox[0].Deliver? && Inv(s)
    ensures var p := s.peers[l]; var u := p.inbox[0].update;
      forall k :: k in u.retired ==> k in p.files && u.retired[k] in s.retired && s.retired[u.retired[k]] == Record(k, p.files[k], p.applied + 1)
  {
    NextIsLogged(s, l);
    hide LedgerInv, AckInv, HoldersInv, VisibleInv, MainPinInv, PinnedInv, HoldInv, LogInv, OutboxInv, InboxInv, Ordered, RoleInv, RetiresReplaced, LoggedRecords;
    var p := s.peers[l];
    forall k | k in p.inbox[0].update.retired
      ensures k in p.files && p.inbox[0].update.retired[k] in s.retired
      ensures s.retired[p.inbox[0].update.retired[k]] == Record(k, p.files[k], p.applied + 1)
    {
      assert s.log[p.applied].retired[k] in s.retired;
    }
  }

  lemma BindPinned(s: State, l: nat)
    requires l in s.peers && s.peers[l].inbox != [] && s.peers[l].inbox[0].Deliver? && Inv(s)
    ensures PinnedInv(Received(s.peers[l]).files, Received(s.peers[l]).pins)
  {
    hide LogInv, LedgerInv, RoleInv, RecordInv, AckInv, HeldForAcks, HoldersInv, VisibleInv, MainPinInv, PinnedInv, HoldInv, PeerInv;
    NextUpdate(s, l);
    var p := s.peers[l];
    BindKeepsPinned(p.files, p.pins, p.inbox[0].update);
  }

  lemma DeliverHold(s: State, l: nat)
    requires l in s.peers && s.peers[l].inbox != [] && s.peers[l].inbox[0].Deliver? && Inv(s)
    ensures HoldInv(l, Received(s.peers[l]), s.retired, s.holders)
  {
    hide LogInv, LedgerInv, RoleInv, RecordInv, AckInv, HeldForAcks, HoldersInv, VisibleInv, MainPinInv, PinnedInv, PeerInv, Retaining, Releasing, HoldInv;
    var p := s.peers[l];
    NextUpdate(s, l);
    UniqueRecords(s.ledger, s.index, s.retired);
    var m := Ack(p.inbox[0].update.id, RetainedIds(p.files, p.pins, p.inbox[0].update));
    forall r | r in m.retained
      ensures r in s.retired && s.retired[r].updateId == p.applied + 1 == m.updateId && Worker(l) !in s.holders[r]
      ensures !Retaining(p.outbox, r) && !Releasing(p.outbox, r)
    {
      NotYetHeld(s, l, r);
      NextUpdateId(s, l);
    }
    AcknowledgeHold(l, p, s.retired, s.holders);
  }

  lemma NextUpdateId(s: State, l: nat)
    requires l in s.peers && s.peers[l].inbox != [] && s.peers[l].inbox[0].Deliver? && Inv(s)
    ensures s.peers[l].inbox[0].update.id == s.peers[l].applied + 1
  {
    hide LedgerInv, RoleInv, RecordInv, AckInv, HeldForAcks, HoldersInv, VisibleInv, MainPinInv, PinnedInv, HoldInv, Ordered, OutboxInv;
    assert s.log[s.peers[l].applied].id == s.peers[l].applied + 1;
  }

  lemma AcknowledgeHold(l: nat, p: Peer, retired: map<nat, Record>, holders: map<nat, set<Holder>>)
    requires holders.Keys == retired.Keys && HoldInv(l, p, retired, holders)
    requires p.inbox != [] && p.inbox[0].Deliver?
    requires DistinctVersions(p.files, p.inbox[0].update)
    requires forall k :: k in p.inbox[0].update.retired ==>
      var r := p.inbox[0].update.retired[k]; k in p.files && r in retired && retired[r].entry == p.files[k]
    requires forall q, r :: q in retired && r in retired && retired[q].entry == retired[r].entry ==> q == r
    requires forall r :: r in RetainedIds(p.files, p.pins, p.inbox[0].update) ==>
      && r in retired && retired[r].updateId == p.inbox[0].update.id && !Releasing(p.outbox, r)
    ensures HoldInv(l, Received(p), retired, holders)
  {
    hide Retaining, Releasing, Apply, Bind, InUse, RetainedIds, DistinctVersions;
    var u := p.inbox[0].update;
    var m := Ack(u.id, RetainedIds(p.files, p.pins, u));
    forall r
      ensures Retaining(p.outbox + [m], r) <==> Retaining(p.outbox, r) || r in m.retained
      ensures Releasing(p.outbox + [m], r) <==> Releasing(p.outbox, r)
    {
      AppendRetaining(p.outbox, m, r);
    }
    forall r | r in retired
      ensures BoundTo(Bind(p.files, p.pins, u), retired[r].entry, r) <==> BoundTo(p.pins, retired[r].entry, r) || r in m.retained
    {
      BindRecord(p.files, p.pins, u, retired, r);
    }
    forall e | e in Bind(p.files, p.pins, u).bound
      ensures var r := Bind(p.files, p.pins, u).bound[e]; r in retired && retired[r].entry == e && !Releasing(p.outbox, r)
    {
      BoundKnown(p.files, p.pins, u, retired, e);
    }
  }

  /** A version bound after `u` was bound before or is one `u` retires while in use. */
  lemma BoundKnown(files: Files, pins: Pins, u: Update, retired: map<nat, Record>, e: Entry)
    requires DistinctVersions(files, u) && e in Bind(files, pins, u).bound
    requires forall k :: k in u.retired ==> k in files && u.retired[k] in retired && retired[u.retired[k]].entry == files[k]
    ensures var r := Bind(files, pins, u).bound[e];
      BoundTo(pins, e, r) || (r in RetainedIds(files, pins, u) && r in retired && retired[r].entry == e)
  {
    hide Bind;
    BindAt(files, pins, u, e);
  }
}
