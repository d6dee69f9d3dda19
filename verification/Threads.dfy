/** What one event does to the consumers of one thread. */
module Threads {
  import opened Layout
  import opened Protocol
  import opened Invariant
  import opened Safety
  import opened History

  /** The thread exists. */
  predicate Here(s: State, who: Holder) {
    who.Worker? ==> who.link in s.peers
  }

  /** The event is an action of this thread on its own consumers. */
  predicate Acts(ev: Event, who: Holder) {
    (ev.Pin? || ev.Unpin?) && ev.who == who
  }

  /** The event lets this thread apply an update, which may bind versions it reads. */
  predicate Applies(ev: Event, who: Holder) {
    if who.Main? then ev.Flush? else ev.Receive? && ev.link == who.link
  }

  ghost predicate SameEnd(s: State, t: State, l: nat) {
    l in s.peers && l in t.peers ==> t.peers[l].pins == s.peers[l].pins && t.peers[l].applied == s.peers[l].applied
  }

  /** No link is new. */
  ghost predicate NoNewLink(s: State, t: State) {
    t.peers.Keys <= s.peers.Keys && t.nextLink == s.nextLink
  }

  lemma OneEnd(s: State, m: nat, p: Peer, l: nat)
    requires m in s.peers && (m == l ==> p.pins == s.peers[m].pins && p.applied == s.peers[m].applied)
    ensures SameEnd(s, WithPeer(s, m, p), l) && WithPeer(s, m, p).pins == s.pins
    ensures WithPeer(s, m, p).peers == s.peers[m := p] && NoNewLink(s, WithPeer(s, m, p))
  {
  }

  lemma OtherPins(s: State, who: Holder, pins: Pins, l: nat)
    requires Running(s, who) && who != Worker(l)
    ensures SameEnd(s, WithPins(s, who, pins), l) && (who.Worker? ==> WithPins(s, who, pins).pins == s.pins)
    ensures who.Worker? ==> who.link in WithPins(s, who, pins).peers
    ensures WithPins(s, who, pins).peers.Keys == s.peers.Keys && WithPins(s, who, pins).nextLink == s.nextLink
  {
    if who.Worker? {
      OneEnd(s, who.link, s.peers[who.link].(pins := pins), l);
      hide WithPeer;
    }
  }

  lemma OtherUnpin(s: State, who: Holder, e: Entry, l: nat)
    requires Running(s, who) && e in PinsOf(s, who).counts && who != Worker(l)
    ensures SameEnd(s, Unpinned(s, who, e), l) && (who.Worker? ==> Unpinned(s, who, e).pins == s.pins) && NoNewLink(s, Unpinned(s, who, e))
  {
    hide WithPins, WithPeer, Drop, Freed, Send, SameEnd;
    OtherPins(s, who, Drop(PinsOf(s, who), e), l);
    var t := WithPins(s, who, Drop(PinsOf(s, who), e));
    match Freed(PinsOf(s, who), e)
    case None =>
    case Some(id) =>
      if who.Worker? {
        SentEnd(t.peers[who.link], id);
        OneEnd(t, who.link, Send(t.peers[who.link], Release(id)), l);
        SameEndThen(s, t, WithPeer(t, who.link, Send(t.peers[who.link], Release(id))), l);
      } else {
        HoldersEnd(s, t, l);
      }
  }

  lemma SentEnd(p: Peer, id: nat)
    ensures Send(p, Release(id)).pins == p.pins && Send(p, Release(id)).applied == p.applied
  {
  }

  lemma SameEndThen(s: State, t: State, u: State, l: nat)
    requires SameEnd(s, t, l) && SameEnd(t, u, l) && t.peers.Keys == s.peers.Keys
    ensures SameEnd(s, u, l)
  {
  }

  lemma HoldersEnd(s: State, t: State, l: nat)
    requires SameEnd(s, t, l)
    ensures forall holders :: SameEnd(s, t.(holders := holders), l)
  {
  }

  lemma ReceivedElsewhere(s: State, m: nat, l: nat)
    requires m in s.peers && s.peers[m].inbox != [] && m != l
    ensures var t := WithPeer(s, m, Received(s.peers[m])); SameEnd(s, t, l) && t.pins == s.pins && NoNewLink(s, t)
  {
    hide Received, WithPeer;
    OneEnd(s, m, Received(s.peers[m]), l);
  }

  lemma ServedEnd(s: State, m: nat, l: nat)
    requires m in s.peers && s.peers[m].outbox != []
    ensures SameEnd(s, Served(s, m), l) && Served(s, m).pins == s.pins && NoNewLink(s, Served(s, m))
  {
    hide Hold, Acked, Served, SameEnd, NoNewLink, AfterPop;
    PoppedEnd(s, m, l);
    PoppedThenServed(s, m);
    SamePorts(s, AfterPop(s, m), Served(s, m), l);
  }

  lemma PoppedEnd(s: State, m: nat, l: nat)
    requires m in s.peers && s.peers[m].outbox != []
    ensures var t := AfterPop(s, m); SameEnd(s, t, l) && t.pins == s.pins && NoNewLink(s, t)
  {
  }

  lemma SamePorts(s: State, v: State, t: State, l: nat)
    requires SameEnd(s, v, l) && NoNewLink(s, v) && t.peers == v.peers && t.nextLink == v.nextLink
    ensures SameEnd(s, t, l) && NoNewLink(s, t)
  {
  }

  lemma AnsweredEnd(s: State, q: Req, l: nat)
    ensures SameEnd(s, Answered(s, q), l) && Answered(s, q).pins == s.pins && NoNewLink(s, Answered(s, q))
  {
    hide CommitOf;
  }

  lemma CommittedEnd(s: State, ch: Changes, ids: map<Key, nat>, owner: Option<Req>, l: nat)
    requires Numbered(s, ch, ids)
    ensures var t := Credited(s, Commit(s, ch, ids), owner); SameEnd(s, t, l) && t.pins.counts == s.pins.counts && NoNewLink(s, t)
  {
    hide Relabel, NewRecords, HeldByMain, TrackedAcks, RetainedIds, Apply, Numbered, Vacuous, InUse, Credited, Post;
    var d := Commit(s, ch, ids);
    PostedEnd(s, d, UpdateOf(s, ch, ids), l);
    hide Commit, SameEnd, NoNewLink;
    CreditedEnd(s, d, owner, l);
  }

  lemma PostedEnd(s: State, d: State, u: Update, l: nat)
    requires (d.peers == Post(s.peers, u) || d.peers == s.peers) && d.nextLink == s.nextLink
    ensures SameEnd(s, d, l) && NoNewLink(s, d)
  {
  }

  lemma CreditedEnd(s: State, d: State, owner: Option<Req>, l: nat)
    requires SameEnd(s, d, l) && NoNewLink(s, d)
    ensures var t := Credited(s, d, owner); SameEnd(s, t, l) && NoNewLink(s, t) && t.pins == d.pins
  {
    CreditIs(s, d, owner);
    hide Credited;
  }

  lemma LinkedEnd(s: State, l: nat)
    requires l <= s.nextLink
    ensures SameEnd(s, AfterLink(s), l) && AfterLink(s).pins == s.pins
  {
  }

  lemma ExitedEnd(s: State, m: nat, l: nat)
    ensures SameEnd(s, AfterExit(s, m), l) && AfterExit(s, m).pins == s.pins && NoNewLink(s, AfterExit(s, m))
  {
    hide Unhold, ExitAcks;
  }

  lemma OwnEnd(s: State, ev: Event, l: nat)
    requires Enabled(s, ev) && (ev.Reserve? || ev.Fill? || ev.Complete? || ev.Place? || ev.Mint? || ev.Abandon? || ev.Scratch? || ev.Free?)
    ensures SameEnd(s, Next(s, ev), l) && Next(s, ev).pins == s.pins && NoNewLink(s, Next(s, ev))
  {
    hide Fits, WritesWithin, Completes, Releasable, KeepsOwned, Placeable, Extends, Mintable;
    assert Next(s, ev).peers == s.peers && Next(s, ev).nextLink == s.nextLink;
  }

  /** Only a worker's own actions and the updates it applies touch its pins. */
  lemma EndAfter(s: State, ev: Event, l: nat)
    requires Enabled(s, ev) && l <= s.nextLink && !Acts(ev, Worker(l)) && !Applies(ev, Worker(l))
    ensures SameEnd(s, Next(s, ev), l)
  {
    hide SameEnd, Received, Served, Answered, Unpinned, WithPins, WithPeer, AfterLink, AfterExit, Commit, Credited, Acquire, Asked, Numbered, Publishable,
      MayCommit, Fits, Releasable, Placeable;
    match ev
    case Flush(ch, ids, owner) => CommittedEnd(s, ch, ids, owner, l);
    case NewLink => LinkedEnd(s, l);
    case Attach(m) => OneEnd(s, m, s.peers[m].(attached := true), l);
    case Receive(m) => ReceivedElsewhere(s, m, l);
    case Pin(who, k) => OtherPins(s, who, Acquire(PinsOf(s, who), FilesOf(s, who)[k]), l);
    case Unpin(who, e) => OtherUnpin(s, who, e, l);
    case Request(m, r) =>
      AskedEnd(s.peers[m], r);
      OneEnd(s, m, Asked(s.peers[m], r), l);
    case Serve(m) => ServedEnd(s, m, l);
    case Answer(q) => AnsweredEnd(s, q, l);
    case Die(m) => OneEnd(s, m, s.peers[m].(alive := false), l);
    case Exit(m) => ExitedEnd(s, m, l);
    case _ => OwnEnd(s, ev, l);
  }

  lemma AskedEnd(p: Peer, r: nat)
    ensures Asked(p, r).pins == p.pins && Asked(p, r).applied == p.applied
  {
  }

  /** The same for the main thread, where committing an epoch changes no count. */
  lemma MainAfter(s: State, ev: Event)
    requires Enabled(s, ev) && !Acts(ev, Main)
    ensures Next(s, ev).pins.counts == s.pins.counts
  {
    hide SameEnd, Received, Served, Answered, Unpinned, WithPins, WithPeer, AfterLink, AfterExit, Commit, Credited, Acquire, Asked, Numbered, Publishable,
      MayCommit, Fits, Releasable, Placeable;
    match ev
    case Flush(ch, ids, owner) => CommittedEnd(s, ch, ids, owner, 0);
    case NewLink => LinkedEnd(s, 0);
    case Attach(m) => OneEnd(s, m, s.peers[m].(attached := true), m);
    case Receive(m) => ReceivedElsewhere(s, m, m + 1);
    case Pin(who, k) => OtherPins(s, who, Acquire(PinsOf(s, who), FilesOf(s, who)[k]), who.link + 1);
    case Unpin(who, e) => OtherUnpin(s, who, e, who.link + 1);
    case Request(m, r) =>
      AskedEnd(s.peers[m], r);
      OneEnd(s, m, Asked(s.peers[m], r), m);
    case Serve(m) => ServedEnd(s, m, m);
    case Answer(q) => AnsweredEnd(s, q, 0);
    case Die(m) => OneEnd(s, m, s.peers[m].(alive := false), m);
    case Exit(m) => ExitedEnd(s, m, m);
    case _ => OwnEnd(s, ev, 0);
  }

  function Aside(who: Holder): nat {
    if who.Worker? then who.link + 1 else 0
  }

  lemma PinnedLinks(s: State, who: Holder, pins: Pins)
    requires Running(s, who)
    ensures NoNewLink(s, WithPins(s, who, pins))
  {
    OtherPins(s, who, pins, Aside(who));
    hide WithPins;
  }

  /** No link comes back, and none is new but the next. */
  lemma LinksAfter(s: State, ev: Event)
    requires Enabled(s, ev) && !ev.NewLink?
    ensures NoNewLink(s, Next(s, ev))
  {
    hide SameEnd, NoNewLink, Received, Served, Answered, Unpinned, WithPins, WithPeer, AfterLink, AfterExit, Commit, Credited, Acquire, Asked, Numbered, Publishable,
      MayCommit, Fits, Releasable, Placeable;
    match ev
    case Flush(ch, ids, owner) => CommittedEnd(s, ch, ids, owner, s.nextLink);
    case Attach(m) => OneEnd(s, m, s.peers[m].(attached := true), m);
    case Receive(m) => ReceivedElsewhere(s, m, m + 1);
    case Pin(who, k) => PinnedLinks(s, who, Acquire(PinsOf(s, who), FilesOf(s, who)[k]));
    case Unpin(who, e) => OtherUnpin(s, who, e, Aside(who));
    case Request(m, r) =>
      AskedEnd(s.peers[m], r);
      OneEnd(s, m, Asked(s.peers[m], r), m);
    case Serve(m) => ServedEnd(s, m, m);
    case Answer(q) => AnsweredEnd(s, q, 0);
    case Die(m) => OneEnd(s, m, s.peers[m].(alive := false), m);
    case Exit(m) => ExitedEnd(s, m, m);
    case _ => OwnEnd(s, ev, s.nextLink);
  }

  lemma KnownLink(s: State, l: nat)
    requires Inv(s) && l in s.peers
    ensures l <= s.nextLink
  {
    hide LogInv, LedgerInv, RoleInv, RecordInv, AckInv, HeldForAcks, HoldersInv, VisibleInv, MainPinInv, PinnedInv, HoldInv, PeerInv;
  }
}
