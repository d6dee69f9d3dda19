/** Every retired version a worker reported to be in use is released by one message, and only one. */
module Releases {
  import opened Layout
  import opened Protocol
  import opened Invariant
  import opened Consumers
  import opened Safety
  import opened History
  import opened Threads

  /** The retireIds the worker announces with its acknowledgement when it applies an update. */
  ghost function Announced(s: State, ev: Event, l: nat): set<nat>
    requires Enabled(s, ev)
  {
    if ev == Receive(l) && s.peers[l].inbox[0].Deliver? then
      RetainedIds(s.peers[l].files, s.peers[l].pins, s.peers[l].inbox[0].update)
    else {}
  }

  /** The release the worker posts when it drops a consumer. */
  function Posts(s: State, ev: Event, l: nat): seq<nat>
    requires Enabled(s, ev)
  {
    if ev.Unpin? && ev.who == Worker(l) && Freed(s.peers[l].pins, ev.version).Some? then [Freed(s.peers[l].pins, ev.version).value] else []
  }

  /** Everything link `l` announced, and every release it posted, in the first `n` events of a run. */
  ghost function Kept(states: seq<State>, events: seq<Event>, n: nat, l: nat): set<nat>
    requires Run(states, events) && n <= |events|
  {
    if n == 0 then {} else
      assert Enabled(states[n - 1], events[n - 1]);
      Kept(states, events, n - 1, l) + Announced(states[n - 1], events[n - 1], l)
  }

  ghost function Sent(states: seq<State>, events: seq<Event>, n: nat, l: nat): seq<nat>
    requires Run(states, events) && n <= |events|
  {
    if n == 0 then [] else
      assert Enabled(states[n - 1], events[n - 1]);
      Sent(states, events, n - 1, l) + Posts(states[n - 1], events[n - 1], l)
  }

  ghost predicate Bound(pins: Pins, id: nat) {
    exists e :: BoundTo(pins, e, id)
  }

  /** Some of the first `n` updates retired a version under `id`. */
  ghost predicate Told(log: seq<Update>, n: nat, id: nat) {
    exists i, k :: 0 <= i < n && i < |log| && k in log[i].retired && log[i].retired[k] == id
  }

  ghost predicate Tallied(p: Peer, log: seq<Update>, kept: set<nat>, sent: seq<nat>) {
    && (forall i, j :: 0 <= i < j < |sent| ==> sent[i] != sent[j])
    && (forall id: nat :: id in kept <==> id in sent || Bound(p.pins, id))
    && (forall id: nat :: id in sent ==> !Bound(p.pins, id))
    && (forall id: nat :: id in kept ==> Told(log, p.applied, id))
  }

  /** Nothing was announced or sent by a link that does not exist yet. */
  ghost predicate TallyInv(s: State, l: nat, kept: set<nat>, sent: seq<nat>) {
    && (l in s.peers ==> Tallied(s.peers[l], s.log, kept, sent))
    && (l > s.nextLink ==> kept == {} && sent == [])
  }

  lemma ToldMore(a: seq<Update>, b: seq<Update>, n: nat, m: nat, id: nat)
    requires |a| <= |b| && b[..|a|] == a && n <= m && Told(a, n, id)
    ensures Told(b, m, id)
  {
    var i, k :| 0 <= i < n && i < |a| && k in a[i].retired && a[i].retired[k] == id;
    assert b[..|a|][i] == b[i];
  }

  lemma TallyGrows(p: Peer, q: Peer, a: seq<Update>, b: seq<Update>, kept: set<nat>, sent: seq<nat>)
    requires Tallied(p, a, kept, sent) && |a| <= |b| && b[..|a|] == a && p.applied <= q.applied
    requires forall id: nat :: Bound(q.pins, id) <==> Bound(p.pins, id)
    ensures Tallied(q, b, kept, sent)
  {
    hide Bound, Told;
    forall id: nat | id in kept ensures Told(b, q.applied, id) {
      ToldMore(a, b, p.applied, q.applied, id);
    }
  }

  // --- Applying an update ---

  /** What is bound after an update was bound before, or is announced with its acknowledgement. */
  lemma BoundAfter(s: State, l: nat, id: nat)
    requires Inv(s) && l in s.peers && s.peers[l].inbox != [] && s.peers[l].inbox[0].Deliver?
    ensures var p := s.peers[l]; var u := p.inbox[0].update;
      Bound(Bind(p.files, p.pins, u), id) <==> Bound(p.pins, id) || id in RetainedIds(p.files, p.pins, u)
  {
    NextUpdate(s, l);
    UniqueRecords(s.ledger, s.index, s.retired);
    BoundRecorded(s, l);
    hide Inv, Bind, RetainedIds, InUse, RetiresReplaced, DistinctVersions;
    var p := s.peers[l];
    var u := p.inbox[0].update;
    if Bound(Bind(p.files, p.pins, u), id) {
      var e :| BoundTo(Bind(p.files, p.pins, u), e, id);
      BoundKnown(p.files, p.pins, u, s.retired, e);
    }
    if Bound(p.pins, id) {
      var e :| BoundTo(p.pins, e, id);
      BindRecord(p.files, p.pins, u, s.retired, id);
    }
    if id in RetainedIds(p.files, p.pins, u) {
      RetainedRetired(p.files, p.pins, u, id);
      BindRecord(p.files, p.pins, u, s.retired, id);
    }
  }

  lemma RetainedRetired(files: Files, pins: Pins, u: Update, id: nat)
    requires id in RetainedIds(files, pins, u)
    ensures exists k :: k in u.retired && u.retired[k] == id
  {
  }

  /** A worker's bindings agree with the records of the main kernel. */
  lemma BoundRecorded(s: State, l: nat)
    requires Inv(s) && l in s.peers
    ensures forall e :: e in s.peers[l].pins.bound ==> s.peers[l].pins.bound[e] in s.retired && s.retired[s.peers[l].pins.bound[e]].entry == e
  {
    hide LogInv, LedgerInv, RoleInv, RecordInv, AckInv, HeldForAcks, HoldersInv, VisibleInv, MainPinInv, PinnedInv, PeerInv;
  }

  /** What the next update retires was retired by no update before. */
  lemma AnnouncedNew(s: State, l: nat, id: nat)
    requires Inv(s) && l in s.peers && s.peers[l].inbox != [] && s.peers[l].inbox[0].Deliver?
    requires id in RetainedIds(s.peers[l].files, s.peers[l].pins, s.peers[l].inbox[0].update)
    ensures !Told(s.log, s.peers[l].applied, id) && Told(s.log, s.peers[l].applied + 1, id)
  {
    var p := s.peers[l];
    var u := p.inbox[0].update;
    RetainedRetired(p.files, p.pins, u, id);
    NotYetHeld(s, l, id);
    NextInLog(s, l);
    assert Told(s.log, p.applied + 1, id);
    hide Inv, RetainedIds, InUse, Told;
    if Told(s.log, p.applied, id) {
      ToldUpdate(s, p.applied, id);
    }
  }

  /** A record belongs to the update that retired its version. */
  lemma ToldUpdate(s: State, n: nat, id: nat)
    requires Inv(s) && Told(s.log, n, id) && id in s.retired
    ensures s.retired[id].updateId <= n
  {
    var i, k :| 0 <= i < n && i < |s.log| && k in s.log[i].retired && s.log[i].retired[k] == id;
    hide LogInv, LedgerInv, RoleInv, AckInv, HeldForAcks, HoldersInv, VisibleInv, MainPinInv, PinnedInv, HoldInv, PeerInv;
    assert s.retired[id].updateId == i + 1;
  }

  lemma NextInLog(s: State, l: nat)
    requires Inv(s) && l in s.peers && s.peers[l].inbox != [] && s.peers[l].inbox[0].Deliver?
    ensures s.peers[l].applied < |s.log| && s.peers[l].inbox[0].update == s.log[s.peers[l].applied]
  {
    hide LogInv, LedgerInv, RoleInv, RecordInv, AckInv, HeldForAcks, HoldersInv, VisibleInv, MainPinInv, PinnedInv, HoldInv;
  }

  lemma DeliverTally(s: State, l: nat, kept: set<nat>, sent: seq<nat>)
    requires Inv(s) && l in s.peers && s.peers[l].inbox != [] && s.peers[l].inbox[0].Deliver? && Tallied(s.peers[l], s.log, kept, sent)
    ensures var p := s.peers[l];
      Tallied(Received(p), s.log, kept + RetainedIds(p.files, p.pins, p.inbox[0].update), sent)
  {
    hide Inv, Received, RetainedIds, Bind, Bound, Told, Tallied;
    var p := s.peers[l];
    var more, q := RetainedIds(p.files, p.pins, p.inbox[0].update), Received(p);
    DeliveredPins(p);
    forall id: nat ensures Bound(q.pins, id) <==> Bound(p.pins, id) || id in more {
      BoundAfter(s, l, id);
    }
    forall id: nat | id in more ensures !Told(s.log, p.applied, id) && Told(s.log, q.applied, id) {
      AnnouncedNew(s, l, id);
    }
    MoreKept(p, q, s.log, kept, sent, more);
  }

  lemma DeliveredPins(p: Peer)
    requires p.inbox != [] && p.inbox[0].Deliver?
    ensures Received(p).pins == Bind(p.files, p.pins, p.inbox[0].update) && Received(p).applied == p.applied + 1
  {
    hide Bind, RetainedIds, Apply;
  }

  lemma MoreKept(p: Peer, q: Peer, log: seq<Update>, kept: set<nat>, sent: seq<nat>, more: set<nat>)
    requires Tallied(p, log, kept, sent) && q.applied == p.applied + 1
    requires forall id: nat :: Bound(q.pins, id) <==> Bound(p.pins, id) || id in more
    requires forall id: nat :: id in more ==> !Told(log, p.applied, id) && Told(log, q.applied, id)
    ensures Tallied(q, log, kept + more, sent)
  {
    hide Bound, Told;
    forall id: nat | id in kept ensures Told(log, q.applied, id) {
      ToldMore(log, log, p.applied, q.applied, id);
    }
  }

  // --- Dropping a consumer ---

  /** The last consumer of a version takes its binding along, and no other. */
  lemma BoundDropped(pins: Pins, retired: map<nat, Record>, e: Entry, id: nat)
    requires e in pins.counts
    requires forall f :: f in pins.bound ==> pins.bound[f] in retired && retired[pins.bound[f]].entry == f
    ensures Bound(Drop(pins, e), id) <==> Bound(pins, id) && Freed(pins, e) != Some(id)
    ensures Freed(pins, e) == Some(id) ==> Bound(pins, id)
  {
    var freed, less := Freed(pins, e), Drop(pins, e);
    assert freed == Some(id) ==> BoundTo(pins, e, id);
    if Bound(pins, id) && freed != Some(id) {
      var f :| BoundTo(pins, f, id);
      assert BoundTo(less, f, id);
    }
    if Bound(less, id) {
      var f :| BoundTo(less, f, id);
      assert BoundTo(pins, f, id);
    }
  }

  lemma DropTally(s: State, l: nat, e: Entry, kept: set<nat>, sent: seq<nat>, q: Peer)
    requires Inv(s) && l in s.peers && e in s.peers[l].pins.counts && Tallied(s.peers[l], s.log, kept, sent)
    requires q.pins == Drop(s.peers[l].pins, e) && q.applied == s.peers[l].applied
    ensures var freed := Freed(s.peers[l].pins, e);
      Tallied(q, s.log, kept, sent + if freed.Some? then [freed.value] else [])
  {
    BoundRecorded(s, l);
    hide Inv, Bound, Told, Drop, Freed, Tallied;
    var p, freed := s.peers[l], Freed(s.peers[l].pins, e);
    forall id: nat
      ensures Bound(q.pins, id) <==> Bound(p.pins, id) && freed != Some(id)
      ensures freed == Some(id) ==> Bound(p.pins, id)
    {
      BoundDropped(p.pins, s.retired, e, id);
    }
    SentTally(p, q, s.log, kept, sent, freed);
  }

  lemma SentTally(p: Peer, q: Peer, log: seq<Update>, kept: set<nat>, sent: seq<nat>, freed: Option<nat>)
    requires Tallied(p, log, kept, sent) && q.applied == p.applied && (freed.Some? ==> Bound(p.pins, freed.value))
    requires forall x: nat :: Bound(q.pins, x) <==> Bound(p.pins, x) && freed != Some(x)
    ensures Tallied(q, log, kept, sent + if freed.Some? then [freed.value] else [])
  {
    hide Bound, Tallied;
    if freed.Some? {
      OneSent(p, q, log, kept, sent, freed.value);
    } else {
      assert sent + [] == sent;
      TallyGrows(p, q, log, log, kept, sent);
    }
  }

  lemma OneSent(p: Peer, q: Peer, log: seq<Update>, kept: set<nat>, sent: seq<nat>, id: nat)
    requires Tallied(p, log, kept, sent) && q.applied == p.applied && Bound(p.pins, id)
    requires forall x: nat :: Bound(q.pins, x) <==> Bound(p.pins, x) && x != id
    ensures Tallied(q, log, kept, sent + [id])
  {
    hide Bound, Told;
  }

  // --- Every event ---

  lemma LinkTally(s: State, l: nat)
    requires l == s.nextLink + 1
    ensures TallyInv(AfterLink(s), l, {}, [])
  {
    hide Told;
  }

  lemma OtherTally(s: State, ev: Event, l: nat, kept: set<nat>, sent: seq<nat>)
    requires Inv(s) && Enabled(s, ev) && TallyInv(s, l, kept, sent) && l in s.peers && l in Next(s, ev).peers
    requires !Acts(ev, Worker(l)) && !Applies(ev, Worker(l))
    ensures Tallied(Next(s, ev).peers[l], Next(s, ev).log, kept, sent)
  {
    KnownLink(s, l);
    EndAfter(s, ev, l);
    EventContinues(s, ev);
    hide Inv, Enabled, Next, Bound, Tallied;
    TallyGrows(s.peers[l], Next(s, ev).peers[l], s.log, Next(s, ev).log, kept, sent);
  }

  lemma PinTally(s: State, l: nat, key: Key, kept: set<nat>, sent: seq<nat>)
    requires Enabled(s, Pin(Worker(l), key)) && Tallied(s.peers[l], s.log, kept, sent)
    ensures var t := Next(s, Pin(Worker(l), key)); l in t.peers && Tallied(t.peers[l], t.log, kept, sent)
  {
    var p := s.peers[l];
    var q := p.(pins := Acquire(p.pins, p.files[key]));
    assert Next(s, Pin(Worker(l), key)) == WithPeer(s, l, q);
    forall id: nat ensures Bound(q.pins, id) <==> Bound(p.pins, id) {
      assert forall e :: BoundTo(q.pins, e, id) <==> BoundTo(p.pins, e, id);
    }
    hide Bound, Tallied, Acquire, Enabled, Next;
    TallyGrows(p, q, s.log, s.log, kept, sent);
  }

  lemma UnpinTally(s: State, l: nat, e: Entry, kept: set<nat>, sent: seq<nat>)
    requires Inv(s) && Enabled(s, Unpin(Worker(l), e)) && Tallied(s.peers[l], s.log, kept, sent)
    ensures var t := Next(s, Unpin(Worker(l), e));
      l in t.peers && Tallied(t.peers[l], t.log, kept, sent + Posts(s, Unpin(Worker(l), e), l))
  {
    hide Inv, Tallied, Drop, Freed, Unpinned;
    WorkerUnpinned(s, l, e);
    DropTally(s, l, e, kept, sent, Unpinned(s, Worker(l), e).peers[l]);
  }

  /** What a worker's drop does to its end of the link. */
  lemma WorkerUnpinned(s: State, l: nat, e: Entry)
    requires Running(s, Worker(l)) && e in s.peers[l].pins.counts
    ensures var t, p, freed := Unpinned(s, Worker(l), e), s.peers[l], Freed(s.peers[l].pins, e);
      && l in t.peers && t.log == s.log
      && t.peers[l] == p.(pins := Drop(p.pins, e), outbox := if freed.Some? then p.outbox + [Release(freed.value)] else p.outbox)
  {
    var p := s.peers[l];
    var q := p.(pins := Drop(p.pins, e));
    PeerSet(s, l, q);
    var t := WithPeer(s, l, q);
    assert WithPins(s, Worker(l), q.pins) == t;
    var freed := Freed(p.pins, e);
    if freed.Some? {
      PeerSet(t, l, Send(q, Release(freed.value)));
    }
    hide Drop, Freed, WithPeer, WithPins;
  }

  lemma PeerSet(s: State, l: nat, p: Peer)
    ensures WithPeer(s, l, p).peers == s.peers[l := p] && WithPeer(s, l, p).log == s.log
  {
  }

  lemma ReceiveTally(s: State, l: nat, kept: set<nat>, sent: seq<nat>)
    requires Inv(s) && Enabled(s, Receive(l)) && Tallied(s.peers[l], s.log, kept, sent)
    ensures var t := Next(s, Receive(l));
      l in t.peers && Tallied(t.peers[l], t.log, kept + Announced(s, Receive(l), l), sent)
  {
    hide Inv, Tallied, Received, RetainedIds, Bound;
    PeerSet(s, l, Received(s.peers[l]));
    if s.peers[l].inbox[0].Deliver? {
      DeliverTally(s, l, kept, sent);
    } else {
      ReplyPins(s.peers[l]);
      assert kept + {} == kept;
      TallyGrows(s.peers[l], Received(s.peers[l]), s.log, s.log, kept, sent);
    }
  }

  lemma ReplyPins(p: Peer)
    requires p.inbox != [] && p.inbox[0].Reply?
    ensures Received(p).pins == p.pins && Received(p).applied == p.applied
  {
  }

  lemma StepTally(s: State, ev: Event, l: nat, kept: set<nat>, sent: seq<nat>)
    requires Inv(s) && Enabled(s, ev) && TallyInv(s, l, kept, sent)
    ensures TallyInv(Next(s, ev), l, kept + Announced(s, ev, l), sent + Posts(s, ev, l))
  {
    hide Inv, Next, Tallied, Announced, Posts, Enabled;
    if ev.NewLink? {
      StepNewLink(s, l, kept, sent);
    } else {
      LinksAfter(s, ev);
      if l in s.peers {
        KnownLink(s, l);
        StepHere(s, ev, l, kept, sent);
      } else {
        NotThere(s, ev, l);
        assert kept + {} == kept && sent + [] == sent;
      }
    }
  }

  lemma NotThere(s: State, ev: Event, l: nat)
    requires Enabled(s, ev) && l !in s.peers
    ensures Announced(s, ev, l) == {} && Posts(s, ev, l) == []
  {
  }

  lemma StepNewLink(s: State, l: nat, kept: set<nat>, sent: seq<nat>)
    requires Inv(s) && TallyInv(s, l, kept, sent)
    ensures Enabled(s, NewLink) && TallyInv(Next(s, NewLink), l, kept + Announced(s, NewLink, l), sent + Posts(s, NewLink, l))
  {
    hide Inv, Tallied, AfterLink;
    assert kept + {} == kept && sent + [] == sent;
    LinkPeers(s, l);
    if l in s.peers {
      OtherTally(s, NewLink, l, kept, sent);
      KnownLink(s, l);
    } else if l == s.nextLink + 1 {
      LinkTally(s, l);
    }
  }

  lemma LinkPeers(s: State, l: nat)
    ensures var t := AfterLink(s);
      t.nextLink == s.nextLink + 1 && (l in t.peers <==> l in s.peers || l == s.nextLink + 1)
  {
  }

  lemma StepHere(s: State, ev: Event, l: nat, kept: set<nat>, sent: seq<nat>)
    requires Inv(s) && Enabled(s, ev) && TallyInv(s, l, kept, sent) && l in s.peers
    ensures var t := Next(s, ev); l in t.peers ==> Tallied(t.peers[l], t.log, kept + Announced(s, ev, l), sent + Posts(s, ev, l))
  {
    hide Inv, Next, Enabled, Tallied, Announced, Posts;
    Apart(s, ev, l);
    assert kept + {} == kept && sent + [] == sent;
    if ev == Receive(l) {
      ReceiveTally(s, l, kept, sent);
    } else if ev.Pin? && ev.who == Worker(l) {
      PinTally(s, l, ev.key, kept, sent);
    } else if ev.Unpin? && ev.who == Worker(l) {
      UnpinTally(s, l, ev.version, kept, sent);
    } else if l in Next(s, ev).peers {
      OtherTally(s, ev, l, kept, sent);
    }
  }

  /** Announcing and posting are for a worker's own events only. */
  lemma Apart(s: State, ev: Event, l: nat)
    requires Enabled(s, ev)
    ensures ev != Receive(l) ==> Announced(s, ev, l) == {}
    ensures !ev.Unpin? || ev.who != Worker(l) ==> Posts(s, ev, l) == []
  {
  }

  lemma {:induction false} RunTally(states: seq<State>, events: seq<Event>, n: nat, l: nat)
    requires Run(states, events) && states[0] == Initial && n <= |events|
    ensures TallyInv(states[n], l, Kept(states, events, n, l), Sent(states, events, n, l))
  {
    hide TallyInv, Inv, Announced, Posts;
    if n == 0 {
      NothingTallied(l);
    } else {
      RunTally(states, events, n - 1, l);
      InitialInv();
      RunKeepsInv(states, events, n - 1);
      assert Enabled(states[n - 1], events[n - 1]) && states[n] == Next(states[n - 1], events[n - 1]);
      hide Next, Enabled;
      StepTally(states[n - 1], events[n - 1], l, Kept(states, events, n - 1, l), Sent(states, events, n - 1, l));
    }
  }

  lemma NothingTallied(l: nat)
    ensures TallyInv(Initial, l, {}, [])
  {
  }

  /**
   * Over every run: no worker posts two releases of the same version; it posts one only for a version
   * it announced; and for each version it announced it has posted the release exactly when none of
   * its consumers is left.
   */
  lemma OneReleaseEach(states: seq<State>, events: seq<Event>, n: nat, l: nat)
    requires Run(states, events) && states[0] == Initial && n <= |events| && l in states[n].peers
    ensures var sent, p := Sent(states, events, n, l), states[n].peers[l];
      && (forall i, j :: 0 <= i < j < |sent| ==> sent[i] != sent[j])
      && (forall id: nat :: id in sent ==> id in Kept(states, events, n, l))
      && (forall id: nat :: id in Kept(states, events, n, l) && id !in sent ==> exists e :: BoundTo(p.pins, e, id) && e in p.pins.counts)
      && (forall id: nat, e :: id in sent ==> !BoundTo(p.pins, e, id))
  {
    RunTally(states, events, n, l);
    InitialInv();
    RunKeepsInv(states, events, n);
    BoundPinned(states[n], l);
    hide Inv, Run, Kept, Sent, Told;
    var p := states[n].peers[l];
    forall id: nat | id in Kept(states, events, n, l) && id !in Sent(states, events, n, l) ensures exists e :: BoundTo(p.pins, e, id) && e in p.pins.counts {
      var e :| BoundTo(p.pins, e, id);
    }
    forall id: nat, e | id in Sent(states, events, n, l) ensures !BoundTo(p.pins, e, id) {
      assert !Bound(p.pins, id);
    }
  }

  lemma BoundPinned(s: State, l: nat)
    requires Inv(s) && l in s.peers
    ensures s.peers[l].pins.bound.Keys <= s.peers[l].pins.counts.Keys
  {
    hide LogInv, LedgerInv, RoleInv, RecordInv, AckInv, HeldForAcks, HoldersInv, VisibleInv, MainPinInv, HoldInv, PeerInv;
  }
}
