/** Freed for good, and freed in the end: what a retired version can still meet, and how the ports drain. */
module Draining {
  import opened Layout
  import opened Protocol
  import opened Invariant
  import opened Safety
  import opened Upkeep
  import opened History
  import opened Threads

  // --- A version that is gone never comes back ---

  /** `t` has no entry that `s` had dropped, and no record of a retirement that `s` knew and had settled. */
  ghost predicate NothingReturns(s: State, t: State) {
    && s.minted <= t.minted && s.nextRetire <= t.nextRetire
    && (forall i: nat :: i < s.minted && i !in s.ledger ==> i !in t.ledger)
    && (forall r: nat :: r <= s.nextRetire && r !in s.retired ==> r !in t.retired)
  }

  lemma NothingReturnsThen(s: State, t: State, u: State)
    requires NothingReturns(s, t) && NothingReturns(t, u)
    ensures NothingReturns(s, u)
  {
  }

  lemma CommitReturnsNothing(s: State, ch: Changes, ids: map<Key, nat>, owner: Option<Req>)
    requires Numbered(s, ch, ids)
    ensures NothingReturns(s, Credited(s, Commit(s, ch, ids), owner))
  {
    hide Bind, HeldByMain, TrackedAcks, Post, Vacuous, RetainedIds, Added, Removed, Apply;
    var d := Commit(s, ch, ids);
    assert d.ledger.Keys <= s.ledger.Keys;
    assert forall r :: r in d.retired && r !in s.retired ==> r > s.nextRetire;
    hide Commit, Relabel, NewRecords, Numbered;
    CreditedReturns(s, d, owner);
  }

  lemma CreditedReturns(s: State, d: State, owner: Option<Req>)
    requires NothingReturns(s, d)
    ensures NothingReturns(s, Credited(s, d, owner))
  {
  }

  ghost predicate SameBooks(s: State, t: State) {
    t.ledger == s.ledger && t.minted == s.minted && t.retired == s.retired && t.nextRetire == s.nextRetire
  }

  lemma PeerBooks(s: State, l: nat, p: Peer)
    ensures SameBooks(s, WithPeer(s, l, p))
  {
  }

  lemma PinsBooks(s: State, who: Holder, pins: Pins)
    requires Running(s, who)
    ensures SameBooks(s, WithPins(s, who, pins)) && (who.Worker? ==> who.link in WithPins(s, who, pins).peers)
  {
  }

  lemma UnpinBooks(s: State, who: Holder, e: Entry)
    requires Running(s, who) && e in PinsOf(s, who).counts
    ensures SameBooks(s, Unpinned(s, who, e))
  {
    hide Drop, Freed, Send, WithPins, WithPeer;
    PinsBooks(s, who, Drop(PinsOf(s, who), e));
    var t := WithPins(s, who, Drop(PinsOf(s, who), e));
    match Freed(PinsOf(s, who), e)
    case None =>
    case Some(id) =>
      if who.Worker? {
        PeerBooks(t, who.link, Send(t.peers[who.link], Release(id)));
      }
  }

  lemma ServeBooks(s: State, l: nat)
    requires l in s.peers && s.peers[l].outbox != []
    ensures SameBooks(s, Served(s, l))
  {
    hide Served, Popped, Hold, Acked;
    PoppedThenServed(s, l);
  }

  lemma SameBooksReturn(s: State, t: State)
    requires SameBooks(s, t)
    ensures NothingReturns(s, t)
  {
  }

  lemma CompletedReturns(s: State, id: nat, bytes: seq<byte>)
    requires Filling(s, id)
    ensures NothingReturns(s, AfterComplete(s, id, bytes))
  {
  }

  lemma PortEventBooks(s: State, ev: Event)
    requires Enabled(s, ev) && (OfPeers(ev) || ev.NewLink? || ev.Exit? || ev.Fill? || ev.Scratch?)
    ensures SameBooks(s, Next(s, ev))
  {
    hide SameBooks, Received, Acquire, Asked, Served, Unpinned, WithPins, WithPeer, Answered, AfterLink, AfterExit, WritesWithin, KeepsOwned;
    match ev
    case Attach(l) => PeerBooks(s, l, s.peers[l].(attached := true));
    case Receive(l) => PeerBooks(s, l, Received(s.peers[l]));
    case Pin(who, k) => PinsBooks(s, who, Acquire(PinsOf(s, who), FilesOf(s, who)[k]));
    case Unpin(who, e) => UnpinBooks(s, who, e);
    case Request(l, r) => PeerBooks(s, l, Asked(s.peers[l], r));
    case Serve(l) => ServeBooks(s, l);
    case Answer(q) => AnswerBooks(s, q);
    case Die(l) => PeerBooks(s, l, s.peers[l].(alive := false));
    case NewLink => LinkBooks(s);
    case Exit(l) => ExitBooks(s, l);
    case Fill(id, mem) => BytesBooks(s, mem);
    case Scratch(mem) => BytesBooks(s, mem);
  }

  lemma AnswerBooks(s: State, q: Req)
    ensures SameBooks(s, Answered(s, q))
  {
    hide Responded;
  }

  lemma LinkBooks(s: State)
    ensures SameBooks(s, AfterLink(s))
  {
  }

  lemma ExitBooks(s: State, l: nat)
    ensures SameBooks(s, AfterExit(s, l))
  {
    hide Unhold, ExitAcks;
  }

  lemma BytesBooks(s: State, mem: Memory)
    ensures SameBooks(s, s.(mem := mem))
  {
  }

  lemma EventReturnsNothing(s: State, ev: Event)
    requires Inv(s) && Enabled(s, ev)
    ensures NothingReturns(s, Next(s, ev))
  {
    if ev.Flush? {
      CommitReturnsNothing(s, ev.changes, ev.ids, ev.owner);
      hide Commit, Numbered, Publishable, Credited, NothingReturns, Inv;
    } else if ev.Complete? {
      CompletedReturns(s, ev.reserved, ev.bytes);
      hide Inv, NothingReturns, Completes;
    } else if OfPeers(ev) || ev.NewLink? || ev.Exit? || ev.Fill? || ev.Scratch? {
      PortEventBooks(s, ev);
      hide Enabled, Next, Inv;
      SameBooksReturn(s, Next(s, ev));
    } else {
      OwnEventReturnsNothing(s, ev);
      hide Enabled, Next, NothingReturns, Inv;
    }
  }

  lemma OwnEventReturnsNothing(s: State, ev: Event)
    requires Enabled(s, ev) && (ev.Reserve? || ev.Place? || ev.Mint? || ev.Abandon? || ev.Free?)
    ensures NothingReturns(s, Next(s, ev))
  {
    hide Fits, Extends, KeepsOwned, Intact, Releasable;
    match ev
    case Reserve(x, mem) => AddedOne(s, Next(s, ev));
    case Place(e, mem) => AddedOne(s, Next(s, ev));
    case Mint(e) => AddedOne(s, Next(s, ev));
    case Abandon(id) =>
    case Free(id) =>
  }

  lemma AddedOne(s: State, t: State)
    requires t.ledger.Keys == s.ledger.Keys + {s.minted} && t.minted == s.minted + 1 && t.retired == s.retired && t.nextRetire == s.nextRetire
    ensures NothingReturns(s, t)
  {
  }

  lemma {:induction false} RunReturnsNothing(states: seq<State>, events: seq<Event>, m: nat, n: nat)
    requires Run(states, events) && states[0] == Initial && m <= n <= |events|
    ensures NothingReturns(states[m], states[n])
  {
    hide Enabled, Next, NothingReturns, Inv;
    if m == n {
      assert NothingReturns(states[m], states[n]) by {
        SameReturns(states[m]);
      }
    } else {
      RunReturnsNothing(states, events, m, n - 1);
      InitialInv();
      RunKeepsInv(states, events, n - 1);
      EventReturnsNothing(states[n - 1], events[n - 1]);
      NothingReturnsThen(states[m], states[n - 1], states[n]);
    }
  }

  lemma SameReturns(s: State)
    ensures NothingReturns(s, s)
  {
  }

  /**
   * Each version is freed at most once in a run, and never used again: from then on no state has an
   * entry or a record of it, so nothing can read, publish, retire or free it.
   */
  lemma FreedForGood(states: seq<State>, events: seq<Event>, m: nat, n: nat, r: nat)
    requires Run(states, events) && states[0] == Initial && m < n <= |events| && events[m] == Free(r)
    ensures r in states[m].retired
    ensures var e := states[m].retired[r].entry;
      && r !in states[n].retired && e.id !in states[n].ledger
      && (forall who :: !Readable(states[n], who, e))
      && (n < |events| ==> events[n] != Free(r))
  {
    InitialInv();
    RunKeepsInv(states, events, m);
    RunKeepsInv(states, events, n);
    assert Enabled(states[m], events[m]) && states[m + 1] == Next(states[m], events[m]);
    FreedNow(states[m], r);
    RunReturnsNothing(states, events, m + 1, n);
    var e := states[m].retired[r].entry;
    if n < |events| {
      assert Enabled(states[n], events[n]);
    }
    hide Next, Inv, Run, Readable;
    forall who ensures !Readable(states[n], who, e) {
      if Readable(states[n], who, e) {
        ReadableTracked(states[n], who, e);
      }
    }
  }

  lemma FreedNow(s: State, r: nat)
    requires Inv(s) && Enabled(s, Free(r))
    ensures var t, e := Next(s, Free(r)), s.retired[r].entry;
      && e.Occupies() && e.id < t.minted && e.id !in t.ledger && r <= t.nextRetire && r !in t.retired
  {
    hide LogInv, AckInv, HeldForAcks, HoldersInv, VisibleInv, MainPinInv, PinnedInv, HoldInv, PeerInv;
    RecordSlot(s, r);
    assert LoggedRecord(s.retired[r], r, s.log);
  }

  // --- Draining the ports ---

  /** No stream and no lease is open in any thread. */
  ghost predicate NoReaders(s: State) {
    s.pins.counts == map[] && forall l :: l in s.peers ==> s.peers[l].pins.counts == map[]
  }

  /** What happens by itself: threads take their messages, exits are noticed, what nobody waits for is freed. */
  predicate ByItself(ev: Event) {
    ev.Attach? || ev.Receive? || ev.Serve? || ev.Exit? || ev.Free?
  }

  /** How much lies in and before a port. */
  function Work(p: Peer): nat {
    (if p.attached then 0 else 1) + 2 * |p.inbox| + |p.outbox|
  }

  predicate AtRest(p: Peer) {
    p.attached && p.inbox == [] && p.outbox == []
  }

  ghost predicate OthersSame(s: State, t: State, l: nat) {
    forall m :: m != l ==> (m in t.peers <==> m in s.peers) && (m in s.peers ==> t.peers[m] == s.peers[m])
  }

  /** What can happen next at a port that is not at rest. */
  function Pending(p: Peer, l: nat): Event {
    if p.outbox != [] then Serve(l) else if !p.alive then Exit(l) else if !p.attached then Attach(l) else Receive(l)
  }

  lemma ReceivedWork(p: Peer)
    requires p.inbox != [] && p.attached
    ensures var q := Received(p); q.attached && Work(q) < Work(p) && q.pins.counts == p.pins.counts && q.alive == p.alive
  {
    hide RetainedIds, Apply;
  }

  /** One message or one link less at port `l`, and everything else as it was. */
  ghost predicate Progress(s: State, t: State, l: nat)
    requires l in s.peers
  {
    && OthersSame(s, t, l) && NoReaders(t) && SamePast(s, t)
    && (l in t.peers ==> Work(t.peers[l]) < Work(s.peers[l]))
  }

  lemma PeerProgress(s: State, l: nat, q: Peer)
    requires l in s.peers && NoReaders(s) && Work(q) < Work(s.peers[l]) && q.pins.counts == s.peers[l].pins.counts
    ensures Progress(s, WithPeer(s, l, q), l)
  {
  }

  lemma ServeProgress(s: State, l: nat)
    requires l in s.peers && s.peers[l].outbox != [] && NoReaders(s)
    ensures Progress(s, Served(s, l), l)
  {
    hide Served, Hold, Acked;
    PoppedThenServed(s, l);
    hide Progress, Popped;
    PoppedWork(s.peers[l]);
    PeerProgress(s, l, Popped(s.peers[l]));
    FieldsProgress(s, WithPeer(s, l, Popped(s.peers[l])), Served(s, l), l);
  }

  lemma PoppedWork(p: Peer)
    requires p.outbox != []
    ensures Work(Popped(p)) < Work(p) && Popped(p).pins == p.pins
  {
  }

  lemma FieldsProgress(s: State, v: State, t: State, l: nat)
    requires l in s.peers && Progress(s, v, l) && t.peers == v.peers && t.pins == v.pins && SamePast(v, t)
    ensures Progress(s, t, l)
  {
  }

  lemma ExitProgress(s: State, l: nat)
    requires l in s.peers && NoReaders(s)
    ensures Progress(s, AfterExit(s, l), l)
  {
    hide Unhold, ExitAcks;
  }

  lemma PendingStep(s: State, l: nat)
    requires l in s.peers && (!AtRest(s.peers[l]) || !s.peers[l].alive) && NoReaders(s)
    ensures var ev := Pending(s.peers[l], l); ByItself(ev) && Enabled(s, ev) && Progress(s, Next(s, ev), l)
  {
    var p := s.peers[l];
    hide Progress, Served, Received, AfterExit, WithPeer, NoReaders, Work, Enabled, Next;
    PendingIs(s, l);
    if p.outbox != [] {
      ServeProgress(s, l);
    } else if !p.alive {
      ExitProgress(s, l);
    } else if !p.attached {
      AttachedWork(p);
      PeerProgress(s, l, p.(attached := true));
    } else {
      ReceivedWork(p);
      PeerProgress(s, l, Received(p));
    }
  }

  ghost function Handled(s: State, l: nat): State
    requires l in s.peers && (!AtRest(s.peers[l]) || !s.peers[l].alive)
  {
    var p := s.peers[l];
    if p.outbox != [] then Served(s, l)
    else if !p.alive then AfterExit(s, l)
    else WithPeer(s, l, if !p.attached then p.(attached := true) else Received(p))
  }

  /** What happens next at a port leads there. */
  lemma PendingIs(s: State, l: nat)
    requires l in s.peers && (!AtRest(s.peers[l]) || !s.peers[l].alive)
    ensures Enabled(s, Pending(s.peers[l], l))
    ensures Next(s, Pending(s.peers[l], l)) == Handled(s, l)
  {
    hide Served, Received, AfterExit, WithPeer;
  }

  lemma AttachedWork(p: Peer)
    requires !p.attached
    ensures Work(p.(attached := true)) < Work(p)
  {
  }

  lemma RunCons(s: State, ev: Event, states: seq<State>, events: seq<Event>)
    requires Enabled(s, ev) && Run(states, events) && states[0] == Next(s, ev)
    ensures Run([s] + states, [ev] + events)
  {
    hide Enabled, Next;
    var all, evs := [s] + states, [ev] + events;
    forall i | 0 <= i < |evs| ensures Enabled(all[i], evs[i]) && all[i + 1] == Next(all[i], evs[i]) {
      if i > 0 {
        assert all[i] == states[i - 1] && evs[i] == events[i - 1] && all[i + 1] == states[i];
      }
    }
  }

  /** A run by which nothing but what is under way happens. */
  ghost predicate SelfRun(s: State, states: seq<State>, events: seq<Event>) {
    Run(states, events) && states[0] == s && forall i :: 0 <= i < |events| ==> ByItself(events[i])
  }

  lemma SelfCons(s: State, ev: Event, states: seq<State>, events: seq<Event>)
    requires Enabled(s, ev) && ByItself(ev) && SelfRun(Next(s, ev), states, events)
    ensures SelfRun(s, [s] + states, [ev] + events) && |states| == |events| + 1
    ensures ([s] + states)[|[ev] + events|] == states[|events|]
  {
    RunCons(s, ev, states, events);
    hide Enabled, Next, Run;
  }

  /** Where a self-run of one port ends: the port is at rest or gone, and nothing else has changed. */
  ghost predicate PortDone(s: State, t: State, l: nat) {
    OthersSame(s, t, l) && NoReaders(t) && SamePast(s, t) && (l in t.peers ==> AtRest(t.peers[l]) && t.peers[l].alive)
  }

  lemma PortDoneThen(s: State, t: State, u: State, l: nat)
    requires l in s.peers && Progress(s, t, l) && PortDone(t, u, l)
    ensures PortDone(s, u, l)
  {
    hide NoReaders, AtRest, Work;
  }

  lemma AlreadyDone(s: State, l: nat)
    requires NoReaders(s) && (l in s.peers ==> AtRest(s.peers[l]) && s.peers[l].alive)
    ensures PortDone(s, s, l) && SelfRun(s, [s], [])
  {
  }

  lemma {:induction false} DrainPort(s: State, l: nat) returns (states: seq<State>, events: seq<Event>)
    requires NoReaders(s)
    ensures |states| == |events| + 1 && SelfRun(s, states, events) && PortDone(s, states[|events|], l)
    decreases if l in s.peers then Work(s.peers[l]) + 1 else 0
  {
    hide NoReaders, PortDone, SelfRun, AtRest, Work, Enabled, Next, Pending, ByItself, OthersSame, SamePast;
    if l in s.peers && (!AtRest(s.peers[l]) || !s.peers[l].alive) {
      var ev := Pending(s.peers[l], l);
      PendingStep(s, l);
      var rest, more := DrainPort(Next(s, ev), l);
      SelfCons(s, ev, rest, more);
      PortDoneThen(s, Next(s, ev), rest[|more|], l);
      states, events := [s] + rest, [ev] + more;
    } else {
      AlreadyDone(s, l);
      states, events := [s], [];
    }
  }

  lemma SelfThen(s: State, a: seq<State>, x: seq<Event>, b: seq<State>, y: seq<Event>)
    requires SelfRun(s, a, x) && SelfRun(a[|x|], b, y)
    ensures var all := a + b[1..]; SelfRun(s, all, x + y) && |all| == |x + y| + 1 && all[|x + y|] == b[|y|]
  {
    hide Enabled, Next, ByItself;
    Concatenated(a, x, b, y);
    forall i | 0 <= i < |x + y| ensures ByItself((x + y)[i]) {
      assert (x + y)[i] == if i < |x| then x[i] else y[i - |x|];
    }
  }

  ghost predicate Rested(s: State) {
    forall l :: l in s.peers ==> AtRest(s.peers[l])
  }

  ghost predicate RestedBut(s: State, rest: set<nat>) {
    forall l :: l in s.peers && l !in rest ==> AtRest(s.peers[l]) && s.peers[l].alive
  }

  lemma OnePortLess(s: State, t: State, l: nat, rest: set<nat>)
    requires RestedBut(s, rest) && PortDone(s, t, l)
    ensures RestedBut(t, rest - {l})
  {
  }

  lemma {:induction false} DrainPorts(s: State, rest: set<nat>) returns (states: seq<State>, events: seq<Event>)
    requires NoReaders(s) && RestedBut(s, rest)
    ensures |states| == |events| + 1 && SelfRun(s, states, events)
    ensures var t := states[|events|]; NoReaders(t) && SamePast(s, t) && Rested(t)
    decreases rest
  {
    hide NoReaders, SelfRun, AtRest, Run, SamePast, OthersSame;
    if rest == {} {
      NothingRuns(s);
      states, events := [s], [];
    } else {
      var l :| l in rest;
      var a, x := DrainPort(s, l);
      OnePortLess(s, a[|x|], l, rest);
      var b, y := DrainPorts(a[|x|], rest - {l});
      SelfThen(s, a, x, b, y);
      PastThen(s, a[|x|], b[|y|]);
      states, events := a + b[1..], x + y;
    }
  }

  lemma NothingRuns(s: State)
    ensures SelfRun(s, [s], []) && SamePast(s, s)
  {
  }

  lemma PastThen(s: State, t: State, u: State)
    requires SamePast(s, t) && SamePast(t, u)
    ensures SamePast(s, u)
  {
  }

  /** Free what can be freed, until nothing can. */
  lemma {:induction false} FreeAll(s: State) returns (states: seq<State>, events: seq<Event>)
    ensures |states| == |events| + 1 && SelfRun(s, states, events)
    ensures var t := states[|events|]; t.peers == s.peers && t.pins == s.pins && SamePast(s, t) && Settled(t)
    decreases |s.retired|
  {
    hide SelfRun, Run, SamePast, Enabled, Next, ByItself, Releasable;
    if r :| r in s.retired && Releasable(s, r) {
      FreeOne(s, r);
      var rest, more := FreeAll(AfterFree(s, r));
      SelfCons(s, Free(r), rest, more);
      PastThen(s, AfterFree(s, r), rest[|more|]);
      states, events := [s] + rest, [Free(r)] + more;
    } else {
      NothingRuns(s);
      states, events := [s], [];
    }
  }

  lemma FreeOne(s: State, r: nat)
    requires r in s.retired && Releasable(s, r)
    ensures Enabled(s, Free(r)) && ByItself(Free(r)) && Next(s, Free(r)) == AfterFree(s, r)
    ensures var t := AfterFree(s, r); |t.retired| < |s.retired| && t.peers == s.peers && t.pins == s.pins && SamePast(s, t)
  {
    hide Releasable;
    OneLess(s.retired, r);
  }

  lemma OneLess(records: map<nat, Record>, r: nat)
    requires r in records
    ensures |records - {r}| < |records|
  {
    assert records.Keys == (records - {r}).Keys + {r};
    assert |(records - {r}).Keys| + 1 == |records.Keys|;
  }

  /**
   * Once no stream and no lease is open anywhere, what is under way is enough to free everything: the
   * workers take the messages in their ports, the main kernel takes theirs, exits are noticed, and
   * then no version is retained and no acknowledgement is waited for. Nothing new is published for it.
   */
  lemma EverythingFreed(s: State) returns (states: seq<State>, events: seq<Event>)
    requires Reachable(s) && NoReaders(s)
    ensures SelfRun(s, states, events)
    ensures var t := states[|events|]; t.retired == map[] && t.acks == map[] && SamePast(s, t) && Rested(t)
  {
    hide SelfRun, Run, Reachable, NoReaders, AtRest, SamePast, Settled, Enabled, Next, Rested;
    AllBusy(s);
    var a, x := DrainPorts(s, s.peers.Keys);
    var b, y := FreeAll(a[|x|]);
    SelfThen(s, a, x, b, y);
    states, events := a + b[1..], x + y;
    PastThen(s, a[|x|], b[|y|]);
    var t := states[|events|];
    StillRested(a[|x|], t);
    SelfReachable(s, states, events);
    ReachableInv(t);
    hide Inv;
    NothingBoundNow(t);
    NothingRetainedForever(t);
  }

  lemma AllBusy(s: State)
    ensures RestedBut(s, s.peers.Keys)
  {
  }

  lemma StillRested(s: State, t: State)
    requires Rested(s) && NoReaders(s) && t.peers == s.peers && t.pins == s.pins
    ensures Rested(t) && NoReaders(t)
  {
  }

  lemma SelfReachable(s: State, states: seq<State>, events: seq<Event>)
    requires Reachable(s) && SelfRun(s, states, events)
    ensures |states| == |events| + 1 && Reachable(states[|events|])
  {
    hide Reachable, Enabled, Next;
    ReachableRun(states, events, |events|);
  }

  /** What is not pinned is not bound. */
  lemma NothingBoundNow(s: State)
    requires Inv(s) && NoReaders(s) && Rested(s)
    ensures Quiet(s)
  {
    hide LogInv, LedgerInv, RoleInv, RecordInv, AckInv, HeldForAcks, HoldersInv, VisibleInv, MainPinInv, HoldInv, PeerInv;
    assert s.pins.bound.Keys == {};
    forall l | l in s.peers ensures s.peers[l].pins.bound == map[] {
      assert PinnedInv(s.peers[l].files, s.peers[l].pins);
      assert s.peers[l].pins.bound.Keys == {};
    }
  }
}
