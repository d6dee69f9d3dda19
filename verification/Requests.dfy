/** Mutations workers ask for: each is served once, committed at most once, and answered after it. */
module Requests {
  import opened Layout
  import opened Protocol
  import opened Invariant
  import opened Safety
  import opened History

  // --- What is under way on the ports ---

  /** The requests still on their way to the main kernel, oldest first. */
  function Asks(outbox: seq<Up>): seq<nat> {
    if outbox == [] then [] else (if outbox[0].Mutate? then [outbox[0].request] else []) + Asks(outbox[1..])
  }

  /** The responses on their way to the worker, each with the update it speaks of. */
  function Replies(inbox: seq<Down>): seq<(nat, nat)> {
    if inbox == [] then [] else (if inbox[0].Reply? then [(inbox[0].request, inbox[0].commit)] else []) + Replies(inbox[1..])
  }

  lemma {:induction false} AsksMore(q: seq<Up>, m: Up)
    ensures Asks(q + [m]) == Asks(q) + if m.Mutate? then [m.request] else []
  {
    if q == [] {
      assert [m][1..] == [];
    } else {
      AsksMore(q[1..], m);
      assert (q + [m])[1..] == q[1..] + [m];
    }
  }

  lemma {:induction false} RepliesMore(q: seq<Down>, m: Down)
    ensures Replies(q + [m]) == Replies(q) + if m.Reply? then [(m.request, m.commit)] else []
  {
    if q == [] {
      assert [m][1..] == [];
    } else {
      RepliesMore(q[1..], m);
      assert (q + [m])[1..] == q[1..] + [m];
    }
  }

  predicate Replied(replies: seq<(nat, nat)>, r: nat) {
    exists i :: 0 <= i < |replies| && replies[i].0 == r
  }

  ghost predicate Apart(asks: seq<nat>, replies: seq<(nat, nat)>) {
    && (forall i, j :: 0 <= i < j < |asks| ==> asks[i] != asks[j])
    && (forall i, j :: 0 <= i < j < |replies| ==> replies[i].0 != replies[j].0)
  }

  /** An open request is in exactly one place: asked for, served, or answered. */
  ghost predicate Placed(l: nat, asks: seq<nat>, replies: seq<(nat, nat)>, open: set<nat>, serving: set<Req>) {
    && (forall r: nat :: r in open <==> r in asks || Req(l, r) in serving || Replied(replies, r))
    && (forall r: nat :: r in asks ==> Req(l, r) !in serving && !Replied(replies, r))
    && (forall r: nat :: Req(l, r) in serving ==> !Replied(replies, r))
  }

  /** A request is committed after it was asked for, and its response names the update it was committed as. */
  ghost predicate Committed(l: nat, asks: seq<nat>, replies: seq<(nat, nat)>, asked: nat, open: set<nat>, calls: Calls) {
    && (forall r: nat :: r in open ==> 1 <= r <= asked)
    && (forall r: nat :: Req(l, r) in calls.credit ==> r <= asked && r !in asks)
    && (forall i :: 0 <= i < |replies| ==> replies[i].1 == CommitOf(calls, Req(l, replies[i].0)))
  }

  ghost predicate PeerCalls(l: nat, p: Peer, calls: Calls) {
    var asks, replies := Asks(p.outbox), Replies(p.inbox);
    Apart(asks, replies) && Placed(l, asks, replies, p.open, calls.serving) && Committed(l, asks, replies, p.asked, p.open, calls)
  }

  /** No request comes from a link that does not exist yet. */
  ghost predicate KnownLinks(calls: Calls, nextLink: nat) {
    forall q :: q in calls.serving || q in calls.credit ==> q.link <= nextLink
  }

  ghost predicate CallsInv(s: State) {
    && KnownLinks(s.calls, s.nextLink)
    && forall l :: l in s.peers ==> l <= s.nextLink && PeerCalls(l, s.peers[l], s.calls)
  }

  // --- Every event keeps it ---

  /** The end of a link seen by requests alone. */
  ghost predicate SameEnd(p: Peer, q: Peer) {
    && Asks(q.outbox) == Asks(p.outbox) && Replies(q.inbox) == Replies(p.inbox)
    && q.asked == p.asked && q.open == p.open
  }

  lemma SameEnds(s: State, t: State)
    requires CallsInv(s) && t.calls == s.calls && t.nextLink >= s.nextLink
    requires forall l :: l in t.peers ==> l in s.peers && SameEnd(s.peers[l], t.peers[l])
    ensures CallsInv(t)
  {
    hide Asks, Replies, Apart, Placed, Committed;
  }

  /** Calls that differ for the requests of one link only. */
  ghost predicate SameElsewhere(l: nat, a: Calls, b: Calls) {
    && (forall q: Req :: q.link != l ==> (q in a.serving <==> q in b.serving) && (q in a.credit <==> q in b.credit))
    && (forall q: Req :: q.link != l && q in a.credit && q in b.credit ==> a.credit[q] == b.credit[q])
  }

  lemma OthersUntouched(l: nat, m: nat, p: Peer, a: Calls, b: Calls)
    requires PeerCalls(m, p, a) && SameElsewhere(l, a, b) && m != l
    ensures PeerCalls(m, p, b)
  {
    hide Asks, Replies, Apart, Replied;
  }

  /** One end changes, and the calls of its link with it. */
  lemma EndMoves(s: State, t: State, l: nat)
    requires CallsInv(s) && l in s.peers && l in t.peers && t.peers == s.peers[l := t.peers[l]] && t.nextLink == s.nextLink
    requires KnownLinks(t.calls, s.nextLink) && SameElsewhere(l, s.calls, t.calls) && PeerCalls(l, t.peers[l], t.calls)
    ensures CallsInv(t)
  {
    hide PeerCalls, SameElsewhere;
    forall m | m in t.peers ensures PeerCalls(m, t.peers[m], t.calls) {
      if m != l {
        OthersUntouched(l, m, s.peers[m], s.calls, t.calls);
      }
    }
  }

  lemma RequestKeepsCalls(l: nat, p: Peer, calls: Calls, r: nat)
    requires PeerCalls(l, p, calls) && r > p.asked
    requires Req(l, r) !in calls.serving && !Replied(Replies(p.inbox), r)
    ensures PeerCalls(l, Asked(p, r), calls)
  {
    AsksMore(p.outbox, Mutate(r));
    hide Asks, Replies, Replied;
  }

  lemma FreshRequest(l: nat, p: Peer, calls: Calls, r: nat)
    requires PeerCalls(l, p, calls) && r > p.asked
    ensures Req(l, r) !in calls.serving && !Replied(Replies(p.inbox), r)
  {
    hide Asks, Replies, Apart, Replied;
    assert r !in p.open;
  }

  lemma ServeKeepsCalls(l: nat, p: Peer, calls: Calls)
    requires PeerCalls(l, p, calls) && p.outbox != [] && p.outbox[0].Mutate?
    ensures PeerCalls(l, p.(outbox := p.outbox[1..]), calls.(serving := calls.serving + {Req(l, p.outbox[0].request)}))
  {
    var asks, rest := Asks(p.outbox), Asks(p.outbox[1..]);
    assert asks == [p.outbox[0].request] + rest;
    hide Asks, Replies, Replied;
    assert asks[0] == p.outbox[0].request;
    assert forall i :: 0 <= i < |rest| ==> rest[i] == asks[i + 1];
  }

  lemma AnswerKeepsCalls(l: nat, p: Peer, calls: Calls, r: nat)
    requires PeerCalls(l, p, calls) && Req(l, r) in calls.serving
    ensures PeerCalls(l, Queue(p, Reply(r, CommitOf(calls, Req(l, r)))), calls.(serving := calls.serving - {Req(l, r)}))
  {
    var m := Reply(r, CommitOf(calls, Req(l, r)));
    RepliesMore(p.inbox, m);
    var before, after := Replies(p.inbox), Replies(p.inbox + [m]);
    hide Asks, Replies;
    forall x ensures Replied(after, x) <==> Replied(before, x) || x == r {
      assert after[|before|].0 == r;
      if Replied(before, x) {
        var i :| 0 <= i < |before| && before[i].0 == x;
        assert after[i].0 == x;
      }
    }
    assert !Replied(before, r);
    hide Replied;
  }

  lemma FirstTaken(before: seq<(nat, nat)>, after: seq<(nat, nat)>, r: nat, c: nat)
    requires before == [(r, c)] + after
    ensures forall x: nat :: Replied(before, x) <==> Replied(after, x) || x == r
    ensures forall i :: 0 <= i < |after| ==> after[i] == before[i + 1]
  {
    assert before[0].0 == r;
    forall x: nat | Replied(after, x) ensures Replied(before, x) {
      var i :| 0 <= i < |after| && after[i].0 == x;
      assert before[i + 1].0 == x;
    }
    forall x: nat | Replied(before, x) && x != r ensures Replied(after, x) {
      var i :| 0 <= i < |before| && before[i].0 == x;
      assert after[i - 1].0 == x;
    }
  }

  /** Without repetition the first response is not among the others. */
  lemma FirstApart(asks: seq<nat>, before: seq<(nat, nat)>, after: seq<(nat, nat)>, r: nat, c: nat)
    requires Apart(asks, before) && before == [(r, c)] + after
    ensures Apart(asks, after) && !Replied(after, r)
  {
    forall i | 0 <= i < |after| ensures after[i] == before[i + 1] && after[i].0 != r {
      assert before[0].0 != before[i + 1].0;
    }
  }

  lemma TakeReplyKeepsCalls(l: nat, p: Peer, calls: Calls)
    requires PeerCalls(l, p, calls) && p.inbox != [] && p.inbox[0].Reply?
    ensures PeerCalls(l, Received(p), calls)
  {
    var r := p.inbox[0].request;
    var before, after := Replies(p.inbox), Replies(p.inbox[1..]);
    assert before == [(r, p.inbox[0].commit)] + after;
    hide Asks, Replies, Replied;
    FirstTaken(before, after, r, p.inbox[0].commit);
    FirstApart(Asks(p.outbox), before, after, r, p.inbox[0].commit);
    hide Apart;
  }

  lemma CreditKeepsCalls(l: nat, p: Peer, calls: Calls, q: Req, n: nat)
    requires PeerCalls(l, p, calls) && q in calls.serving && q !in calls.credit
    ensures PeerCalls(l, p, calls.(credit := calls.credit[q := n]))
  {
    hide Asks, Replies;
    assert q.link == l ==> q.id in p.open;
    forall i | 0 <= i < |Replies(p.inbox)| ensures Req(l, Replies(p.inbox)[i].0) != q {
      assert Replied(Replies(p.inbox), Replies(p.inbox)[i].0);
    }
    hide Replied;
  }

  // --- Steps of the protocol ---

  lemma DeliverKeepsCalls(l: nat, p: Peer, calls: Calls)
    requires PeerCalls(l, p, calls) && p.inbox != [] && p.inbox[0].Deliver?
    ensures PeerCalls(l, Received(p), calls)
  {
    var u := p.inbox[0].update;
    AsksMore(p.outbox, Ack(u.id, RetainedIds(p.files, p.pins, u)));
    assert Replies(p.inbox) == Replies(p.inbox[1..]);
    hide Asks, Replies, Apart, Placed, Committed, Bind, RetainedIds, Apply;
  }

  lemma RequestStep(s: State, l: nat, r: nat)
    requires CallsInv(s) && l in s.peers && r > s.peers[l].asked
    ensures CallsInv(WithPeer(s, l, Asked(s.peers[l], r)))
  {
    hide PeerCalls, Asked;
    FreshRequest(l, s.peers[l], s.calls, r);
    RequestKeepsCalls(l, s.peers[l], s.calls, r);
    EndMoves(s, WithPeer(s, l, Asked(s.peers[l], r)), l);
  }

  lemma ReceiveStep(s: State, l: nat)
    requires CallsInv(s) && l in s.peers && s.peers[l].inbox != []
    ensures CallsInv(WithPeer(s, l, Received(s.peers[l])))
  {
    hide PeerCalls, Received;
    if s.peers[l].inbox[0].Reply? {
      TakeReplyKeepsCalls(l, s.peers[l], s.calls);
    } else {
      DeliverKeepsCalls(l, s.peers[l], s.calls);
    }
    EndMoves(s, WithPeer(s, l, Received(s.peers[l])), l);
  }

  /** `t` is `s` with the first message of port `l` taken. */
  ghost predicate TookFirst(s: State, t: State, l: nat)
    requires l in s.peers && s.peers[l].outbox != []
  {
    var p := s.peers[l];
    && t.nextLink == s.nextLink && l in t.peers && t.peers == s.peers[l := t.peers[l]]
    && t.peers[l] == p.(outbox := p.outbox[1..], acked := t.peers[l].acked)
    && t.calls == if p.outbox[0].Mutate? then s.calls.(serving := s.calls.serving + {Req(l, p.outbox[0].request)}) else s.calls
  }

  lemma TookAck(s: State, l: nat)
    requires l in s.peers && s.peers[l].outbox != [] && s.peers[l].outbox[0].Ack?
    ensures TookFirst(s, Served(s, l), l)
  {
    hide Hold, Acked;
  }

  lemma TookRelease(s: State, l: nat)
    requires l in s.peers && s.peers[l].outbox != [] && s.peers[l].outbox[0].Release?
    ensures TookFirst(s, Served(s, l), l)
  {
  }

  lemma TookRequest(s: State, l: nat)
    requires l in s.peers && s.peers[l].outbox != [] && s.peers[l].outbox[0].Mutate?
    ensures TookFirst(s, Served(s, l), l)
  {
  }

  /** What taking a message off a port means for requests. */
  lemma ServedEnd(s: State, l: nat)
    requires l in s.peers && s.peers[l].outbox != []
    ensures TookFirst(s, Served(s, l), l)
  {
    hide TookFirst, Served;
    match s.peers[l].outbox[0]
    case Ack(_, _) => TookAck(s, l);
    case Release(_) => TookRelease(s, l);
    case Mutate(_) => TookRequest(s, l);
  }

  /** The predicate does not read the acknowledged position. */
  lemma AckedSame(l: nat, p: Peer, acked: nat, calls: Calls)
    requires PeerCalls(l, p, calls)
    ensures PeerCalls(l, p.(acked := acked), calls)
  {
  }

  lemma ServeStep(s: State, l: nat)
    requires CallsInv(s) && l in s.peers && s.peers[l].outbox != []
    ensures CallsInv(Served(s, l))
  {
    hide PeerCalls, Asks, Replies, SameEnd, Served;
    ServedEnd(s, l);
    if s.peers[l].outbox[0].Mutate? {
      ServeKeepsCalls(l, s.peers[l], s.calls);
      AckedSame(l, s.peers[l].(outbox := s.peers[l].outbox[1..]), Served(s, l).peers[l].acked, Served(s, l).calls);
      KnownOfInv(s, l);
    }
    hide CallsInv;
    if s.peers[l].outbox[0].Mutate? {
      EndMoves(s, Served(s, l), l);
    } else {
      SameEndAlways(s);
      TailEnd(s.peers[l], Served(s, l).peers[l]);
      SameEnds(s, Served(s, l));
    }
  }

  lemma SameEndAlways(s: State)
    ensures forall l :: l in s.peers ==> SameEnd(s.peers[l], s.peers[l])
  {
  }

  lemma KnownOfInv(s: State, l: nat)
    requires CallsInv(s) && l <= s.nextLink
    ensures forall r: nat :: KnownLinks(s.calls.(serving := s.calls.serving + {Req(l, r)}), s.nextLink)
  {
    hide PeerCalls;
  }

  lemma TailEnd(p: Peer, q: Peer)
    requires p.outbox != [] && !p.outbox[0].Mutate? && q == p.(outbox := p.outbox[1..], acked := q.acked)
    ensures SameEnd(p, q)
  {
  }

  lemma AnswerStep(s: State, q: Req)
    requires CallsInv(s) && q in s.calls.serving
    ensures CallsInv(Answered(s, q))
  {
    hide PeerCalls, Asks, Replies;
    AnsweredEnd(s, q);
    var t := Answered(s, q);
    if q.link in s.peers {
      AnswerKeepsCalls(q.link, s.peers[q.link], s.calls, q.id);
      hide Answered, CommitOf;
      EndMoves(s, t, q.link);
    } else {
      hide Answered;
      forall m | m in t.peers ensures PeerCalls(m, t.peers[m], t.calls) {
        OthersUntouched(q.link, m, s.peers[m], s.calls, t.calls);
      }
    }
  }

  lemma AnsweredEnd(s: State, q: Req)
    ensures var t := Answered(s, q);
      && t.nextLink == s.nextLink && t.calls == s.calls.(serving := s.calls.serving - {q})
      && t.peers == if q.link in s.peers then s.peers[q.link := Queue(s.peers[q.link], Reply(q.id, CommitOf(s.calls, q)))] else s.peers
  {
  }

  /** A commit posts its update to every link. */
  lemma PostKeepsCalls(s: State, u: Update, t: State)
    requires CallsInv(s) && t.peers == Post(s.peers, u) && t.calls == s.calls && t.nextLink == s.nextLink
    ensures CallsInv(t)
  {
    hide PeerCalls, CallsInv;
    forall l | l in t.peers ensures l in s.peers && SameEnd(s.peers[l], t.peers[l]) {
      RepliesMore(s.peers[l].inbox, Deliver(u));
    }
    hide SameEnd;
    SameEnds(s, t);
  }

  lemma CreditStep(s: State, t: State, owner: Option<Req>)
    requires CallsInv(t) && t.calls == s.calls && MayCommit(s.calls, owner)
    ensures CallsInv(Credited(s, t, owner))
  {
    hide PeerCalls;
    if owner.Some? && |t.log| > |s.log| {
      forall l | l in t.peers ensures PeerCalls(l, t.peers[l], t.calls.(credit := t.calls.credit[owner.value := |t.log|])) {
        CreditKeepsCalls(l, t.peers[l], t.calls, owner.value, |t.log|);
      }
    }
  }

  lemma FlushStep(s: State, ch: Changes, ids: map<Key, nat>, owner: Option<Req>)
    requires CallsInv(s) && Numbered(s, ch, ids) && MayCommit(s.calls, owner)
    ensures CallsInv(Credited(s, Commit(s, ch, ids), owner))
  {
    CommitPosts(s, ch, ids);
    hide CallsInv, Credited, Numbered, Commit, MayCommit;
    if !Vacuous(s.index, ch) {
      PostKeepsCalls(s, UpdateOf(s, ch, ids), Commit(s, ch, ids));
    }
    CreditStep(s, Commit(s, ch, ids), owner);
  }

  lemma CommitPosts(s: State, ch: Changes, ids: map<Key, nat>)
    requires Numbered(s, ch, ids)
    ensures Vacuous(s.index, ch) ==> Commit(s, ch, ids) == s
    ensures !Vacuous(s.index, ch) ==> Commit(s, ch, ids).peers == Post(s.peers, UpdateOf(s, ch, ids))
    ensures Commit(s, ch, ids).calls == s.calls && Commit(s, ch, ids).nextLink == s.nextLink
  {
    hide Bind, Relabel, NewRecords, HeldByMain, TrackedAcks, Post, RetainedIds, Apply;
  }

  lemma LinkStep(s: State)
    requires CallsInv(s)
    ensures CallsInv(AfterLink(s))
  {
    hide PeerCalls;
    var p := AfterLink(s).peers[s.nextLink + 1];
    assert PeerCalls(s.nextLink + 1, p, s.calls) by {
      NewEnd(s.nextLink + 1, p, s.calls);
    }
  }

  lemma NewEnd(l: nat, p: Peer, calls: Calls)
    requires p.inbox == [] && p.outbox == [] && p.asked == 0 && p.open == {} && forall q :: q in calls.serving || q in calls.credit ==> q.link < l
    ensures PeerCalls(l, p, calls)
  {
  }

  /** No request and no response is sent, taken or forgotten by a link that stays. */
  ghost predicate SamePorts(s: State, t: State) {
    t.calls == s.calls && t.nextLink == s.nextLink && forall l :: l in t.peers ==> l in s.peers && SameEnd(s.peers[l], t.peers[l])
  }

  lemma SamePortsThen(s: State, t: State, u: State)
    requires SamePorts(s, t) && SamePorts(t, u)
    ensures SamePorts(s, u)
  {
    hide Asks, Replies;
  }

  lemma OneEndSame(s: State, l: nat, q: Peer)
    requires l in s.peers && SameEnd(s.peers[l], q)
    ensures SamePorts(s, WithPeer(s, l, q))
  {
    hide Asks, Replies;
  }

  lemma PinsSame(s: State, who: Holder, pins: Pins)
    requires Running(s, who)
    ensures SamePorts(s, WithPins(s, who, pins))
    ensures who.Worker? ==> who.link in WithPins(s, who, pins).peers && WithPins(s, who, pins).peers[who.link] == s.peers[who.link].(pins := pins)
  {
    hide Asks, Replies;
    if who.Worker? {
      OneEndSame(s, who.link, s.peers[who.link].(pins := pins));
    }
  }

  lemma ReleaseSame(s: State, l: nat, id: nat)
    requires l in s.peers
    ensures SamePorts(s, WithPeer(s, l, Send(s.peers[l], Release(id))))
  {
    AsksMore(s.peers[l].outbox, Release(id));
    OneEndSame(s, l, Send(s.peers[l], Release(id)));
  }

  lemma HoldersSame(s: State, holders: map<nat, set<Holder>>)
    ensures SamePorts(s, s.(holders := holders))
  {
  }

  /** A worker's release of a version is no request. */
  lemma UnpinSame(s: State, who: Holder, e: Entry)
    requires Running(s, who) && e in PinsOf(s, who).counts
    ensures SamePorts(s, Unpinned(s, who, e))
  {
    var pins := Drop(PinsOf(s, who), e);
    hide Drop, Freed, Send, SamePorts, WithPins;
    PinsSame(s, who, pins);
    var t := WithPins(s, who, pins);
    match Freed(PinsOf(s, who), e)
    case None =>
    case Some(id) =>
      if who.Worker? {
        ReleaseSame(t, who.link, id);
        hide WithPeer;
        SamePortsThen(s, t, Unpinned(s, who, e));
      } else if id in t.holders {
        HoldersSame(t, t.holders[id := t.holders[id] - {Main}]);
        SamePortsThen(s, t, Unpinned(s, who, e));
      }
  }

  lemma OwnSame(s: State, ev: Event)
    requires Enabled(s, ev) && (ev.Reserve? || ev.Fill? || ev.Complete? || ev.Place? || ev.Mint? || ev.Abandon? || ev.Scratch? || ev.Free?)
    ensures SamePorts(s, Next(s, ev))
  {
    hide Asks, Replies, Fits, WritesWithin, Completes, Releasable, KeepsOwned, Placeable, Extends, Mintable;
    var t := Next(s, ev);
    assert t.calls == s.calls && t.nextLink == s.nextLink && t.peers == s.peers;
  }

  lemma ExitSame(s: State, l: nat)
    ensures SamePorts(s, AfterExit(s, l))
  {
    hide Asks, Replies, Unhold, ExitAcks;
  }

  lemma OtherSame(s: State, ev: Event)
    requires Enabled(s, ev)
    requires !ev.Flush? && !ev.NewLink? && !ev.Request? && !ev.Receive? && !ev.Serve? && !ev.Answer?
    ensures SamePorts(s, Next(s, ev))
  {
    hide PeerCalls, Asks, Replies, Acquire, Unpinned, WithPins, SamePorts;
    match ev
    case Attach(l) => OneEndSame(s, l, s.peers[l].(attached := true));
    case Die(l) => OneEndSame(s, l, s.peers[l].(alive := false));
    case Pin(who, k) => PinsSame(s, who, Acquire(PinsOf(s, who), FilesOf(s, who)[k]));
    case Unpin(who, e) => UnpinSame(s, who, e);
    case Exit(l) => ExitSame(s, l);
    case _ => OwnSame(s, ev);
  }

  lemma OtherStep(s: State, ev: Event)
    requires CallsInv(s) && Enabled(s, ev)
    requires !ev.Flush? && !ev.NewLink? && !ev.Request? && !ev.Receive? && !ev.Serve? && !ev.Answer?
    ensures CallsInv(Next(s, ev))
  {
    OtherSame(s, ev);
    hide Enabled, Next, CallsInv, SameEnd;
    SameEnds(s, Next(s, ev));
  }

  lemma StepKeepsCalls(s: State, ev: Event)
    requires CallsInv(s) && Enabled(s, ev)
    ensures CallsInv(Next(s, ev))
  {
    hide CallsInv, Received, Asked, Served, Answered, Unpinned, AfterLink, Credited, Commit, Numbered, Publishable, MayCommit, Fits, Releasable, Placeable;
    match ev
    case Request(l, r) => RequestStep(s, l, r);
    case Receive(l) => ReceiveStep(s, l);
    case Serve(l) => ServeStep(s, l);
    case Answer(q) => AnswerStep(s, q);
    case Flush(ch, ids, owner) => FlushStep(s, ch, ids, owner);
    case NewLink => LinkStep(s);
    case _ => OtherStep(s, ev);
  }

  lemma {:induction false} RunKeepsCalls(states: seq<State>, events: seq<Event>, n: nat)
    requires Run(states, events) && states[0] == Initial && n <= |events|
    ensures CallsInv(states[n])
  {
    hide CallsInv, Enabled, Next;
    if n == 0 {
      NothingAsked();
    } else {
      RunKeepsCalls(states, events, n - 1);
      StepKeepsCalls(states[n - 1], events[n - 1]);
    }
  }

  lemma NothingAsked()
    ensures CallsInv(Initial)
  {
  }

  lemma ReachableCalls(s: State)
    requires Reachable(s)
    ensures CallsInv(s)
  {
    hide CallsInv, Enabled, Next;
    var states: seq<State>, events: seq<Event> :| Run(states, events) && states[0] == Initial && states[|events|] == s;
    RunKeepsCalls(states, events, |events|);
  }

  // --- Read your writes ---

  /**
   * When a worker takes the response to a request it has applied the update the request was
   * committed as, the response names that very update, and no second response is to come.
   */
  lemma ReadYourWrites(s: State, l: nat)
    requires Reachable(s) && l in s.peers && s.peers[l].inbox != [] && s.peers[l].inbox[0].Reply?
    ensures var p := s.peers[l]; var r := p.inbox[0].request; var q := Req(l, r);
      && r in p.open && q !in s.calls.serving
      && p.inbox[0].commit == CommitOf(s.calls, q)
      && p.applied <= |s.log| < |s.hist| && p.files == s.hist[p.applied]
      && (q in s.calls.credit ==>
           var n := s.calls.credit[q]; 0 < n <= p.applied && s.hist[n] == Apply(s.hist[n - 1], s.log[n - 1]))
    ensures var p := s.peers[l]; var r, q := p.inbox[0].request, Received(p);
      r !in q.open && r !in Asks(q.outbox) && !Replied(Replies(q.inbox), r)
  {
    ReachableInv(s);
    ReachableCalls(s);
    hide LedgerInv, RoleInv, RecordInv, AckInv, HeldForAcks, HoldersInv, VisibleInv, MainPinInv, PinnedInv, HoldInv, OutboxInv, Ordered, Reachable, Apply;
    FirstReply(l, s.peers[l], s.calls);
    hide PeerCalls, CallsInv, Asks, Replies;
  }

  lemma FirstReply(l: nat, p: Peer, calls: Calls)
    requires PeerCalls(l, p, calls) && p.inbox != [] && p.inbox[0].Reply?
    ensures var r := p.inbox[0].request;
      && r in p.open && Req(l, r) !in calls.serving && p.inbox[0].commit == CommitOf(calls, Req(l, r))
      && r !in Received(p).open && r !in Asks(Received(p).outbox) && !Replied(Replies(Received(p).inbox), r)
  {
    var r, replies := p.inbox[0].request, Replies(p.inbox);
    assert replies[0] == (r, p.inbox[0].commit);
    assert Replied(replies, r);
    TakeReplyKeepsCalls(l, p, calls);
    hide Asks, Replies, Replied;
  }

  /** Nothing can be committed any more for a request that was served and answered. */
  ghost predicate Done(s: State, q: Req) {
    && q !in s.calls.serving && q.link <= s.nextLink
    && (q.link in s.peers ==> q.id <= s.peers[q.link].asked && q.id !in Asks(s.peers[q.link].outbox))
  }

  ghost predicate SameCredit(s: State, t: State, q: Req) {
    CommitOf(t.calls, q) == CommitOf(s.calls, q)
  }

  lemma DoneSame(s: State, t: State, q: Req)
    requires Done(s, q) && SamePorts(s, t)
    ensures Done(t, q) && SameCredit(s, t, q)
  {
    hide Asks, Replies;
  }

  lemma DonePort(s: State, t: State, l: nat, q: Req)
    requires Done(s, q) && l in s.peers && l in t.peers && t.peers == s.peers[l := t.peers[l]] && t.nextLink == s.nextLink && t.calls.credit == s.calls.credit
    requires q !in t.calls.serving
    requires l == q.link ==> q.id <= t.peers[l].asked && q.id !in Asks(t.peers[l].outbox)
    ensures Done(t, q) && SameCredit(s, t, q)
  {
    hide Asks;
  }

  lemma DoneStays(s: State, ev: Event, q: Req)
    requires Done(s, q) && Enabled(s, ev)
    ensures Done(Next(s, ev), q) && SameCredit(s, Next(s, ev), q)
  {
    var t := Next(s, ev);
    hide Done, SamePorts, Asked, Received, Served, Answered, Credited, Commit, AfterLink, Unpinned, WithPins, Acquire, Numbered, Publishable, Fits, Releasable, Placeable;
    match ev
    case Request(l, r) => DoneRequest(s, l, r, q);
    case Receive(l) => DoneReceive(s, l, q);
    case Serve(l) => DoneServe(s, l, q);
    case Answer(x) => DoneAnswer(s, x, q);
    case Flush(ch, ids, owner) => DoneFlush(s, ch, ids, owner, q);
    case NewLink => DoneLink(s, q);
    case _ =>
      OtherSame(s, ev);
      hide Enabled, Next;
      DoneSame(s, t, q);
  }

  lemma DoneRequest(s: State, l: nat, r: nat, q: Req)
    requires Done(s, q) && l in s.peers && r > s.peers[l].asked
    ensures var t := WithPeer(s, l, Asked(s.peers[l], r)); Done(t, q) && SameCredit(s, t, q)
  {
    AsksMore(s.peers[l].outbox, Mutate(r));
    DonePort(s, WithPeer(s, l, Asked(s.peers[l], r)), l, q);
    hide Asks;
  }

  lemma ReceivedAsks(p: Peer)
    requires p.inbox != []
    ensures Asks(Received(p).outbox) == Asks(p.outbox) && Received(p).asked == p.asked
  {
    if p.inbox[0].Deliver? {
      AsksMore(p.outbox, Ack(p.inbox[0].update.id, RetainedIds(p.files, p.pins, p.inbox[0].update)));
    }
    hide Asks, Bind, RetainedIds, Apply;
  }

  lemma DoneReceive(s: State, l: nat, q: Req)
    requires Done(s, q) && l in s.peers && s.peers[l].inbox != []
    ensures var t := WithPeer(s, l, Received(s.peers[l])); Done(t, q) && SameCredit(s, t, q)
  {
    ReceivedAsks(s.peers[l]);
    hide Asks, Received;
    DonePort(s, WithPeer(s, l, Received(s.peers[l])), l, q);
  }

  lemma DoneServe(s: State, l: nat, q: Req)
    requires Done(s, q) && l in s.peers && s.peers[l].outbox != []
    ensures Done(Served(s, l), q) && SameCredit(s, Served(s, l), q)
  {
    ServedEnd(s, l);
    hide Served;
    DonePort(s, Served(s, l), l, q);
  }

  lemma DoneAnswer(s: State, x: Req, q: Req)
    requires Done(s, q)
    ensures Done(Answered(s, x), q) && SameCredit(s, Answered(s, x), q)
  {
    hide Asks;
  }

  lemma DoneLink(s: State, q: Req)
    requires Done(s, q)
    ensures Done(AfterLink(s), q) && SameCredit(s, AfterLink(s), q)
  {
    hide Asks;
  }

  lemma DoneFlush(s: State, ch: Changes, ids: map<Key, nat>, owner: Option<Req>, q: Req)
    requires Done(s, q) && Numbered(s, ch, ids) && MayCommit(s.calls, owner)
    ensures var t := Credited(s, Commit(s, ch, ids), owner); Done(t, q) && SameCredit(s, t, q)
  {
    hide Done, SameCredit, Commit, Numbered, Vacuous, UpdateOf, Credited, Asks, MayCommit;
    CommitPosts(s, ch, ids);
    var d := Commit(s, ch, ids);
    if Vacuous(s.index, ch) {
      SameNow(s, q);
    } else {
      DonePost(s, d, UpdateOf(s, ch, ids), q);
    }
    DoneCredit(s, d, owner, q);
  }

  lemma SameNow(s: State, q: Req)
    ensures SameCredit(s, s, q)
  {
  }

  lemma DonePost(s: State, d: State, u: Update, q: Req)
    requires Done(s, q) && d.peers == Post(s.peers, u) && d.calls == s.calls && d.nextLink == s.nextLink
    ensures Done(d, q) && SameCredit(s, d, q)
  {
    hide Asks;
  }

  /** Another request gets the credit, as this one is no longer worked on. */
  lemma DoneCredit(s: State, d: State, owner: Option<Req>, q: Req)
    requires Done(d, q) && SameCredit(s, d, q) && d.calls == s.calls && MayCommit(s.calls, owner)
    ensures var t := Credited(s, d, owner); Done(t, q) && SameCredit(s, t, q)
  {
    hide Asks;
  }

  lemma {:induction false} DoneForGood(states: seq<State>, events: seq<Event>, n: nat, m: nat, q: Req)
    requires Run(states, events) && n <= m <= |events| && Done(states[n], q)
    ensures Done(states[m], q) && SameCredit(states[n], states[m], q)
  {
    hide Done, Enabled, Next;
    if n < m {
      DoneForGood(states, events, n, m - 1, q);
      DoneStays(states[m - 1], events[m - 1], q);
    }
  }

  /** Event `i` of a run commits an epoch of request `q`. */
  ghost predicate CommitsFor(states: seq<State>, events: seq<Event>, i: nat, q: Req)
    requires Run(states, events)
  {
    i < |events| && events[i].Flush? && events[i].owner == Some(q) && !Vacuous(states[i].index, events[i].changes)
  }

  /** The commit of a request is on record under the number of its own update. */
  lemma CommitIsCredited(s: State, ch: Changes, ids: map<Key, nat>, q: Req)
    requires Numbered(s, ch, ids) && !Vacuous(s.index, ch) && Reachable(s)
    ensures var t, u := Credited(s, Commit(s, ch, ids), Some(q)), UpdateOf(s, ch, ids);
      && t.log == s.log + [u] && CommitOf(t.calls, q) == |t.log| == u.id && q in t.calls.credit
      && |t.hist| == |t.log| + 1 && t.hist[|t.log|] == Apply(s.index, u)
  {
    hide Commit, Numbered, Reachable, Vacuous, Apply;
    LoggedIndexes(s);
    CommitContinues(s, ch, ids);
    FlushPast(s, ch, ids);
    CommitCalls(s, ch, ids);
    CommitApplies(s, ch, ids);
  }

  lemma CommitApplies(s: State, ch: Changes, ids: map<Key, nat>)
    ensures (s.index + Added(ch)) - Removed(s.index, ch) == Apply(s.index, UpdateOf(s, ch, ids))
  {
    hide Added, Removed;
  }

  /** A request once committed keeps its number, and its commit is no other's. */
  lemma CreditStays(s: State, ev: Event, q: Req)
    requires Enabled(s, ev) && q in s.calls.credit
    ensures q in Next(s, ev).calls.credit && Next(s, ev).calls.credit[q] == s.calls.credit[q]
  {
    hide Asks, Replies, Asked, Received, Served, Answered, Commit, Credited, AfterLink, Unpinned, WithPins, WithPeer, Acquire, Numbered, Publishable, MayCommit,
      Fits, Releasable, Placeable, SamePorts;
    match ev
    case Request(l, r) => PeerCredits(s, l, Asked(s.peers[l], r));
    case Receive(l) => PeerCredits(s, l, Received(s.peers[l]));
    case Serve(l) => ServedEnd(s, l);
    case Answer(x) => AnsweredEnd(s, x);
    case Flush(ch, ids, owner) => FlushCredits(s, ch, ids, owner, q);
    case NewLink => LinkCredits(s);
    case _ =>
      OtherSame(s, ev);
      hide Enabled, Next;
      SameCalls(s, Next(s, ev));
  }

  lemma PeerCredits(s: State, l: nat, p: Peer)
    ensures WithPeer(s, l, p).calls == s.calls
  {
  }

  /** The credit of one request is given once. */
  lemma FlushCredits(s: State, ch: Changes, ids: map<Key, nat>, owner: Option<Req>, q: Req)
    requires Numbered(s, ch, ids) && MayCommit(s.calls, owner) && q in s.calls.credit
    ensures var t := Credited(s, Commit(s, ch, ids), owner); q in t.calls.credit && t.calls.credit[q] == s.calls.credit[q]
  {
    CommitPosts(s, ch, ids);
    hide Commit, Numbered;
  }

  lemma SameCalls(s: State, t: State)
    requires SamePorts(s, t)
    ensures t.calls == s.calls
  {
  }

  lemma LinkCredits(s: State)
    ensures AfterLink(s).calls == s.calls
  {
  }

  lemma {:induction false} CreditForGood(states: seq<State>, events: seq<Event>, n: nat, m: nat, q: Req)
    requires Run(states, events) && n <= m <= |events| && q in states[n].calls.credit
    ensures q in states[m].calls.credit && states[m].calls.credit[q] == states[n].calls.credit[q]
  {
    hide Enabled, Next;
    if n < m {
      CreditForGood(states, events, n, m - 1, q);
      CreditStays(states[m - 1], events[m - 1], q);
    }
  }

  /**
   * Whatever the main kernel commits for a request, at any time, the worker has applied when it takes
   * the response: nothing is committed for it afterwards, the response names the update of the one
   * epoch committed before, and the indexes the worker has gone through include the one it produced.
   */
  lemma OwnUpdateApplied(states: seq<State>, events: seq<Event>, n: nat, l: nat, i: nat)
    requires Run(states, events) && states[0] == Initial && n <= |events|
    requires l in states[n].peers && states[n].peers[l].inbox != [] && states[n].peers[l].inbox[0].Reply?
    requires CommitsFor(states, events, i, Req(l, states[n].peers[l].inbox[0].request))
    ensures i < n
    ensures var p, s, t := states[n].peers[l], states[i], states[n];
      var c, u := p.inbox[0].commit, UpdateOf(s, events[i].changes, events[i].ids);
      && 0 < c == u.id <= p.applied <= |t.log| < |t.hist|
      && t.log[c - 1] == u && t.hist[c] == Apply(s.index, u) && p.files == t.hist[p.applied]
  {
    Prefix(states, events, n);
    ReadYourWrites(states[n], l);
    CommittedBefore(states, events, n, l, i);
    CommitKept(states, events, i, n, Req(l, states[n].peers[l].inbox[0].request));
    hide UpdateOf, Reachable, Received, Replied, Apply, Run, CommitsFor;
  }

  /** Nothing is committed for a request once its response is on the way. */
  lemma CommittedBefore(states: seq<State>, events: seq<Event>, n: nat, l: nat, i: nat)
    requires Run(states, events) && states[0] == Initial && n <= |events|
    requires l in states[n].peers && states[n].peers[l].inbox != [] && states[n].peers[l].inbox[0].Reply?
    requires CommitsFor(states, events, i, Req(l, states[n].peers[l].inbox[0].request))
    ensures i < n
  {
    var q := Req(l, states[n].peers[l].inbox[0].request);
    Prefix(states, events, n);
    AnsweredDone(states[n], l);
    assert Enabled(states[i], events[i]) && states[i + 1] == Next(states[i], events[i]);
    NotDone(states[i], events[i], q);
    hide Enabled, Next, Reachable, Done;
    if n <= i {
      DoneForGood(states, events, n, i, q);
    }
  }

  /** What was committed for a request stays on record, with its update and the index it produced. */
  lemma CommitKept(states: seq<State>, events: seq<Event>, i: nat, n: nat, q: Req)
    requires Run(states, events) && states[0] == Initial && i < n <= |events| && CommitsFor(states, events, i, q)
    ensures var t, u := states[n], UpdateOf(states[i], events[i].changes, events[i].ids);
      && q in t.calls.credit && t.calls.credit[q] == u.id && 0 < u.id <= |t.log| && u.id < |t.hist|
      && t.log[u.id - 1] == u && t.hist[u.id] == Apply(states[i].index, u)
  {
    Prefix(states, events, i);
    CommitOnRecord(states, events, i, q);
    hide CommitsFor, UpdateOf, Reachable, Apply, Enabled, Next, Continues;
    var u := UpdateOf(states[i], events[i].changes, events[i].ids);
    CreditForGood(states, events, i + 1, n, q);
    RunContinues(states, events, i + 1, n);
    PastStays(states[i + 1], states[n], u.id);
  }

  lemma CommitOnRecord(states: seq<State>, events: seq<Event>, i: nat, q: Req)
    requires Run(states, events) && CommitsFor(states, events, i, q) && Reachable(states[i])
    ensures var t, u := states[i + 1], UpdateOf(states[i], events[i].changes, events[i].ids);
      && q in t.calls.credit && t.calls.credit[q] == u.id && 0 < u.id <= |t.log| && u.id < |t.hist|
      && t.log[u.id - 1] == u && t.hist[u.id] == Apply(states[i].index, u)
  {
    hide Commit, Numbered, Vacuous, UpdateOf, Reachable, Apply, Publishable, Credited;
    CommitNext(states, events, i, q);
    hide Enabled, Next, Run;
    CommitIsCredited(states[i], events[i].changes, events[i].ids, q);
  }

  lemma CommitNext(states: seq<State>, events: seq<Event>, i: nat, q: Req)
    requires Run(states, events) && CommitsFor(states, events, i, q)
    ensures Numbered(states[i], events[i].changes, events[i].ids)
    ensures states[i + 1] == Credited(states[i], Commit(states[i], events[i].changes, events[i].ids), Some(q))
  {
    hide Commit, Numbered, Vacuous, Publishable, Credited;
    assert Enabled(states[i], events[i]) && states[i + 1] == Next(states[i], events[i]);
  }

  lemma NotDone(s: State, ev: Event, q: Req)
    requires ev.Flush? && ev.owner == Some(q) && Enabled(s, ev)
    ensures !Done(s, q)
  {
  }

  lemma AnsweredDone(s: State, l: nat)
    requires Reachable(s) && l in s.peers && s.peers[l].inbox != [] && s.peers[l].inbox[0].Reply?
    ensures Done(s, Req(l, s.peers[l].inbox[0].request))
  {
    ReachableCalls(s);
    var p := s.peers[l];
    assert Replies(p.inbox)[0] == (p.inbox[0].request, p.inbox[0].commit);
    assert Replied(Replies(p.inbox), p.inbox[0].request);
    hide Asks, Replies, Replied, Reachable;
  }

  /** Every state of a run is reachable. */
  lemma Prefix(states: seq<State>, events: seq<Event>, n: nat)
    requires Run(states, events) && states[0] == Initial && n <= |events|
    ensures Reachable(states[n])
  {
    hide Enabled, Next;
    assert Run(states[..n + 1], events[..n]);
  }
}
