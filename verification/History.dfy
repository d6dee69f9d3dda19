/** What never changes again: the updates that were posted and the indexes they produced. */
module History {
  import opened Layout
  import opened Protocol
  import opened Invariant
  import opened Safety
  import opened Upkeep

  /** What of a state tells which indexes there were. */
  ghost predicate SamePast(s: State, t: State) {
    t.hist == s.hist && t.log == s.log && t.index == s.index
  }

  lemma CommitGrowsPast(s: State, u: Update, added: map<nat, Record>, held: map<nat, set<Holder>>, ledger: map<nat, Slot>)
    ensures var t := Committed(s, u, added, held, ledger);
      t.index == Apply(s.index, u) && t.log == s.log + [u] && t.hist == s.hist + [Apply(s.index, u)]
  {
    hide Apply, Bind, TrackedAcks, Post;
  }

  lemma FlushPast(s: State, ch: Changes, ids: map<Key, nat>)
    requires Numbered(s, ch, ids) && !Vacuous(s.index, ch)
    ensures var t, next := Commit(s, ch, ids), (s.index + Added(ch)) - Removed(s.index, ch);
      t.index == next && |t.log| == |s.log| + 1 && t.hist == s.hist + [next]
  {
    hide Bind, Relabel, NewRecords, HeldByMain, TrackedAcks, Post, Committed, Vacuous, RetainedIds, Added, Removed;
    var u := UpdateOf(s, ch, ids);
    CommitGrowsPast(s, u, NewRecords(s.index, ids, u.id), HeldByMain(ids, RetainedIds(s.files, s.pins, u)), Relabel(s.ledger, ch, ids));
    hide Numbered;
  }

  lemma VacuousFlush(s: State, ch: Changes, ids: map<Key, nat>)
    requires Numbered(s, ch, ids) && Vacuous(s.index, ch)
    ensures Commit(s, ch, ids) == s
  {
    hide Numbered, Vacuous, Committed;
  }

  lemma PeerKeepsPast(s: State, l: nat, p: Peer)
    ensures SamePast(s, WithPeer(s, l, p))
  {
  }

  lemma PinsKeepPast(s: State, who: Holder, pins: Pins)
    requires Running(s, who)
    ensures SamePast(s, WithPins(s, who, pins))
    ensures who.Worker? ==> who.link in WithPins(s, who, pins).peers
  {
    if who.Worker? {
      PeerKeepsPast(s, who.link, s.peers[who.link].(pins := pins));
    }
  }

  lemma HoldersKeepPast(s: State, holders: map<nat, set<Holder>>)
    ensures SamePast(s, s.(holders := holders))
  {
  }

  lemma UnpinKeepsPast(s: State, who: Holder, e: Entry)
    requires Running(s, who) && e in PinsOf(s, who).counts
    ensures SamePast(s, Unpinned(s, who, e))
  {
    hide Drop, Freed, Send, WithPins, WithPeer;
    var t := WithPins(s, who, Drop(PinsOf(s, who), e));
    PinsKeepPast(s, who, Drop(PinsOf(s, who), e));
    match Freed(PinsOf(s, who), e)
    case None =>
    case Some(id) =>
      if who.Worker? {
        PeerKeepsPast(t, who.link, Send(t.peers[who.link], Release(id)));
      } else if id in t.holders {
        HoldersKeepPast(t, t.holders[id := t.holders[id] - {Main}]);
      }
  }

  /** The first message of a port is taken; an acknowledgement moves the pointer on. */
  function Popped(p: Peer): Peer
    requires p.outbox != []
  {
    p.(outbox := p.outbox[1..], acked := if p.outbox[0].Ack? then p.acked + 1 else p.acked)
  }

  function AfterPop(s: State, l: nat): State
    requires l in s.peers && s.peers[l].outbox != []
  {
    s.(peers := s.peers[l := Popped(s.peers[l])])
  }

  lemma PoppedThenServed(s: State, l: nat)
    requires l in s.peers && s.peers[l].outbox != []
    ensures var v := AfterPop(s, l);
      match s.peers[l].outbox[0]
      case Ack(u, retained) => Served(s, l) == v.(holders := Hold(s.holders, retained, Worker(l)), acks := Acked(s.acks, u, l))
      case Release(id) => Served(s, l) == v.(holders := if id in s.holders then s.holders[id := s.holders[id] - {Worker(l)}] else s.holders)
      case Mutate(r) => Served(s, l) == v.(calls := s.calls.(serving := s.calls.serving + {Req(l, r)}))
  {
  }

  lemma ServeKeepsPast(s: State, l: nat)
    requires l in s.peers && s.peers[l].outbox != []
    ensures SamePast(s, Served(s, l))
  {
    hide Hold, Acked, Served, Popped;
    PoppedThenServed(s, l);
  }

  lemma AnswerKeepsPast(s: State, q: Req)
    ensures SamePast(s, Answered(s, q))
  {
    hide Responded;
  }

  predicate OfPeers(ev: Event) {
    ev.Attach? || ev.Receive? || ev.Pin? || ev.Unpin? || ev.Request? || ev.Serve? || ev.Answer? || ev.Die?
  }

  lemma PeersKeepPast(s: State, ev: Event)
    requires Enabled(s, ev) && OfPeers(ev)
    ensures SamePast(s, Next(s, ev))
  {
    hide SamePast, Received, Acquire, Send, Queue, Unpinned, Served, WithPeer, WithPins, Answered, Asked;
    match ev
    case Attach(l) => PeerKeepsPast(s, l, s.peers[l].(attached := true));
    case Receive(l) => PeerKeepsPast(s, l, Received(s.peers[l]));
    case Pin(who, k) => PinsKeepPast(s, who, Acquire(PinsOf(s, who), FilesOf(s, who)[k]));
    case Unpin(who, e) => UnpinKeepsPast(s, who, e);
    case Request(l, r) => PeerKeepsPast(s, l, Asked(s.peers[l], r));
    case Serve(l) => ServeKeepsPast(s, l);
    case Answer(q) => AnswerKeepsPast(s, q);
    case Die(l) => PeerKeepsPast(s, l, s.peers[l].(alive := false));
  }

  /** Only a flush changes the index. */
  lemma OthersKeepPast(s: State, ev: Event)
    requires Enabled(s, ev) && !ev.Flush?
    ensures SamePast(s, Next(s, ev))
  {
    if OfPeers(ev) {
      PeersKeepPast(s, ev);
      hide Enabled, Next;
    } else {
      hide Unhold, ExitAcks, Fits, WritesWithin, Completes, Numbered, Publishable, Releasable;
    }
  }

  // --- The past only grows ---

  lemma LoggedIndexes(s: State)
    requires Reachable(s)
    ensures |s.hist| == |s.log| + 1
  {
    ReachableInv(s);
    hide LedgerInv, RoleInv, RecordInv, AckInv, HeldForAcks, HoldersInv, VisibleInv, MainPinInv, PinnedInv, HoldInv, PeerInv, Reachable;
  }

  ghost predicate Continues(s: State, t: State) {
    |s.log| <= |t.log| && t.log[..|s.log|] == s.log && |s.hist| <= |t.hist| && t.hist[..|s.hist|] == s.hist
  }

  lemma ContinuesThen(s: State, t: State, u: State)
    requires Continues(s, t) && Continues(t, u)
    ensures Continues(s, u)
  {
    assert u.log[..|s.log|] == u.log[..|t.log|][..|s.log|];
    assert u.hist[..|s.hist|] == u.hist[..|t.hist|][..|s.hist|];
  }

  /** An update once posted, and the index it produced, are there for good. */
  lemma PastStays(s: State, t: State, n: nat)
    requires Continues(s, t) && 0 < n <= |s.log| && n < |s.hist|
    ensures n <= |t.log| && n < |t.hist| && t.log[n - 1] == s.log[n - 1] && t.hist[n] == s.hist[n]
  {
    assert t.log[..|s.log|][n - 1] == t.log[n - 1];
    assert t.hist[..|s.hist|][n] == t.hist[n];
  }

  lemma SameContinues(s: State, t: State)
    requires SamePast(s, t)
    ensures Continues(s, t)
  {
  }

  lemma CommitContinues(s: State, ch: Changes, ids: map<Key, nat>)
    requires Numbered(s, ch, ids)
    ensures Continues(s, Commit(s, ch, ids))
    ensures !Vacuous(s.index, ch) ==> Commit(s, ch, ids).log == s.log + [UpdateOf(s, ch, ids)]
  {
    if Vacuous(s.index, ch) {
      VacuousFlush(s, ch, ids);
    } else {
      FlushPast(s, ch, ids);
      CommitLog(s, ch, ids);
    }
    hide Numbered, Vacuous, Commit, UpdateOf;
  }

  lemma CommitCalls(s: State, ch: Changes, ids: map<Key, nat>)
    requires Numbered(s, ch, ids)
    ensures Commit(s, ch, ids).calls == s.calls
    ensures |Commit(s, ch, ids).log| == if Vacuous(s.index, ch) then |s.log| else |s.log| + 1
  {
    hide Vacuous, Bind, Relabel, NewRecords, HeldByMain, TrackedAcks, Post, RetainedIds, Apply;
  }

  lemma CommitLog(s: State, ch: Changes, ids: map<Key, nat>)
    requires Numbered(s, ch, ids) && !Vacuous(s.index, ch)
    ensures Commit(s, ch, ids).log == s.log + [UpdateOf(s, ch, ids)]
  {
    hide Bind, Relabel, NewRecords, HeldByMain, TrackedAcks, Post, Vacuous, RetainedIds, Added, Removed;
  }

  /** Giving credit changes nothing but the credit. */
  lemma CreditIs(s: State, t: State, owner: Option<Req>)
    ensures Credited(s, t, owner) ==
      if owner.Some? && |t.log| > |s.log| then t.(calls := Calls(t.calls.serving, t.calls.credit[owner.value := |t.log|])) else t
  {
  }

  lemma CreditPast(s: State, t: State, owner: Option<Req>)
    ensures SamePast(t, Credited(s, t, owner))
  {
    CreditIs(s, t, owner);
    hide Credited;
  }

  lemma EventContinues(s: State, ev: Event)
    requires Enabled(s, ev)
    ensures Continues(s, Next(s, ev))
  {
    if ev.Flush? {
      CommitContinues(s, ev.changes, ev.ids);
      CreditPast(s, Commit(s, ev.changes, ev.ids), ev.owner);
      hide Commit, Numbered, Publishable, Credited;
    } else {
      OthersKeepPast(s, ev);
      hide Enabled, Next;
    }
  }

  lemma {:induction false} RunContinues(states: seq<State>, events: seq<Event>, n: nat, m: nat)
    requires Run(states, events) && n <= m <= |events|
    ensures Continues(states[n], states[m])
  {
    hide Enabled, Next, Continues;
    if n == m {
      SameContinues(states[n], states[n]);
    } else {
      RunContinues(states, events, n, m - 1);
      EventContinues(states[m - 1], events[m - 1]);
      ContinuesThen(states[n], states[m - 1], states[m]);
    }
  }

  lemma {:induction false} ReachableRun(states: seq<State>, events: seq<Event>, n: nat)
    requires Run(states, events) && Reachable(states[0]) && n <= |events|
    ensures Reachable(states[n])
  {
    hide Enabled, Next, Reachable;
    if n > 0 {
      ReachableRun(states, events, n - 1);
      ReachableNext(states[n - 1], events[n - 1]);
    }
  }

  lemma StepsContinue(s: State, t: State)
    requires Steps(s, t)
    ensures Continues(s, t)
  {
    hide Enabled, Next, Continues, Internal;
    var states: seq<State>, events: seq<Event> :| Path(s, t, states, events);
    RunContinues(states, events, 0, |events|);
  }
}
