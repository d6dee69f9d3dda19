/** Pending and settled requests of one client, over all runs of calls, responses and closings. */
module MutationRpc {
  import opened Layout

  datatype Outcome = Resolved | Rejected(why: string)

  /**
   * `closed` is the reason given when the link ended; the empty string reads as no reason, so as open.
   * `settled` records how the promise of each request ended.
   */
  datatype Client = Client(pending: set<nat>, nextId: nat, closed: string, refed: bool, settled: map<nat, Outcome>)

  const Opened := Client({}, 0, "", false, map[])

  datatype Event =
    | Send(postFails: Option<string>)             // a request is issued; posting it may throw
    | Message(id: nat, error: Option<string>)     // a response to request `id`
    | Close(reason: string)                       // the link ended

  // --- Steps ---

  function Settled(c: Client, id: nat, how: Outcome): Client {
    c.(pending := c.pending - {id}, settled := c.settled[id := how], refed := c.pending - {id} != {} && c.refed)
  }

  /** A request on a closed client is refused at once and gets no number. */
  function AfterSend(c: Client, postFails: Option<string>): Client {
    if c.closed != "" then c else
    var sent := c.(pending := c.pending + {c.nextId + 1}, nextId := c.nextId + 1, refed := c.refed || |c.pending + {c.nextId + 1}| == 1);
    match postFails
    case None => sent
    case Some(why) => Settled(sent, c.nextId + 1, Rejected(why))
  }

  /** A request that was posted is pending under the next number; one that was not leaves nothing pending. */
  lemma SentPending(c: Client, postFails: Option<string>)
    requires Inv(c)
    ensures var t := AfterSend(c, postFails);
      && t.nextId == (if c.closed == "" then c.nextId + 1 else c.nextId)
      && t.pending == if c.closed == "" && postFails.None? then c.pending + {c.nextId + 1} else c.pending
  {
  }

  function AfterMessage(c: Client, id: nat, error: Option<string>): Client {
    if id !in c.pending then c
    else Settled(c, id, match error case None => Resolved case Some(why) => Rejected(why))
  }

  function RejectedAll(ids: set<nat>, reason: string): map<nat, Outcome> {
    map id | id in ids :: Rejected(reason)
  }

  lemma OneMoreRejected(settled: map<nat, Outcome>, all: set<nat>, rest: set<nat>, id: nat, reason: string)
    requires id in rest && rest <= all
    ensures settled + RejectedAll(all - (rest - {id}), reason) == (settled + RejectedAll(all - rest, reason))[id := Rejected(reason)]
  {
  }

  lemma NoneRejected(settled: map<nat, Outcome>, all: set<nat>, reason: string)
    ensures settled + RejectedAll(all - all, reason) == settled
  {
    assert RejectedAll(all - all, reason) == map[];
  }

  function AfterClose(c: Client, reason: string): Client {
    c.(closed := reason, pending := {}, refed := false, settled := c.settled + RejectedAll(c.pending, reason))
  }

  function Next(c: Client, ev: Event): Client {
    match ev
    case Send(postFails) => AfterSend(c, postFails)
    case Message(id, error) => AfterMessage(c, id, error)
    case Close(reason) => AfterClose(c, reason)
  }

  function After(events: seq<Event>): Client {
    if events == [] then Opened else Next(After(events[..|events| - 1]), events[|events| - 1])
  }

  // --- What every run keeps ---

  /** Each request issued is either pending or settled, and the port is held open exactly while one is pending. */
  ghost predicate Inv(c: Client) {
    && (forall id :: id in c.pending || id in c.settled <==> 1 <= id <= c.nextId)
    && c.pending !! c.settled.Keys
    && (c.refed <==> c.pending != {})
    && (c.closed != "" ==> c.pending == {})
  }

  lemma NextKeepsInv(c: Client, ev: Event)
    requires Inv(c)
    ensures Inv(Next(c, ev))
    ensures c.settled.Keys <= Next(c, ev).settled.Keys && forall id :: id in c.settled ==> Next(c, ev).settled[id] == c.settled[id]
  {
    if ev.Send? && c.pending == {} {
      assert c.pending + {c.nextId + 1} == {c.nextId + 1};
    }
  }

  lemma {:induction false} RunKeepsInv(events: seq<Event>)
    ensures Inv(After(events))
  {
    if events != [] {
      RunKeepsInv(events[..|events| - 1]);
      NextKeepsInv(After(events[..|events| - 1]), events[|events| - 1]);
    }
  }

  /** A promise settles once: what it settled to never changes, whatever arrives later. */
  lemma {:induction false} SettlesOnce(events: seq<Event>, n: nat, id: nat)
    requires n <= |events| && id in After(events[..n]).settled
    ensures id in After(events).settled && After(events).settled[id] == After(events[..n]).settled[id] && id !in After(events).pending
  {
    hide Next;
    var last := |events| - 1;
    if n == |events| {
      assert events[..n] == events;
      RunKeepsInv(events);
    } else {
      assert events[..last][..n] == events[..n];
      SettlesOnce(events[..last], n, id);
      RunKeepsInv(events[..last]);
      NextKeepsInv(After(events[..last]), events[last]);
      RunKeepsInv(events);
    }
  }

  /** Why event `ev` settles request `id` of a client in state `c` to `how`. */
  ghost predicate Settles(c: Client, ev: Event, id: nat, how: Outcome) {
    match ev
    case Send(postFails) => c.closed == "" && id == c.nextId + 1 && postFails.Some? && how == Rejected(postFails.value)
    case Message(to, error) => id == to && id in c.pending && how == (if error.Some? then Rejected(error.value) else Resolved)
    case Close(reason) => id in c.pending && how == Rejected(reason)
  }

  lemma SettledNow(c: Client, ev: Event, id: nat)
    requires Inv(c)
    ensures id !in c.settled ==> (id in Next(c, ev).settled <==> exists how :: Settles(c, ev, id, how))
    ensures id !in c.settled && id in Next(c, ev).settled ==> Settles(c, ev, id, Next(c, ev).settled[id])
    ensures id in c.settled ==> id in Next(c, ev).settled && Next(c, ev).settled[id] == c.settled[id]
  {
    if id !in c.settled && id in Next(c, ev).settled {
      assert Settles(c, ev, id, Next(c, ev).settled[id]);
    }
  }

  lemma SettlesToThat(c: Client, ev: Event, id: nat, how: Outcome)
    requires Inv(c) && Settles(c, ev, id, how)
    ensures id in Next(c, ev).settled && Next(c, ev).settled[id] == how
  {
  }

  ghost predicate SettlesAt(events: seq<Event>, n: nat, id: nat, how: Outcome) {
    n < |events| && Settles(After(events[..n]), events[n], id, how)
  }

  /** Whatever settled a request is on record. */
  lemma {:induction false} SettledFor(events: seq<Event>, id: nat) returns (n: nat)
    requires id in After(events).settled
    ensures SettlesAt(events, n, id, After(events).settled[id])
  {
    hide Next, Settles, Inv;
    var last := |events| - 1;
    RunKeepsInv(events[..last]);
    SettledNow(After(events[..last]), events[last], id);
    if id in After(events[..last]).settled {
      n := SettledFor(events[..last], id);
      assert events[..last][..n] == events[..n] && events[..last][n] == events[n];
    } else {
      n := last;
    }
  }

  /** Whatever settles a request settles it for good. */
  lemma {:induction false} SettledForGood(events: seq<Event>, n: nat, id: nat, how: Outcome)
    requires SettlesAt(events, n, id, how)
    ensures id in After(events).settled && After(events).settled[id] == how
  {
    RunKeepsInv(events[..n]);
    assert events[..n + 1][..n] == events[..n];
    SettlesToThat(After(events[..n]), events[n], id, how);
    hide Settles, Next;
    SettlesOnce(events, n + 1, id);
  }

  /**
   * A request settles exactly when its response arrives, its posting fails or the link ends,
   * whichever comes first; so it resolves only on a response without an error.
   */
  lemma {:induction false} SettledBy(events: seq<Event>, id: nat, how: Outcome)
    ensures id in After(events).settled && After(events).settled[id] == how <==> exists n :: SettlesAt(events, n, id, how)
  {
    hide After, Settles, Next;
    if id in After(events).settled {
      var n := SettledFor(events, id);
    }
    if n :| SettlesAt(events, n, id, how) {
      SettledForGood(events, n, id, how);
    }
  }

  /** Nothing is pending, nothing can be sent, and every request has settled. */
  ghost predicate Over(c: Client) {
    c.pending == {} && c.closed != "" && !c.refed && forall id :: 1 <= id <= c.nextId ==> id in c.settled
  }

  lemma CloseIsOver(c: Client, reason: string)
    requires Inv(c) && reason != ""
    ensures Over(AfterClose(c, reason))
  {
  }

  lemma OverStays(c: Client, ev: Event)
    requires Over(c) && (ev.Close? ==> ev.reason != "")
    ensures Over(Next(c, ev))
  {
    if ev.Close? {
      assert c.settled + RejectedAll(c.pending, ev.reason) == c.settled;
    }
  }

  /** Once the link ended for a reason every request has settled, and nothing becomes pending again. */
  lemma {:induction false} ClosedSettlesAll(events: seq<Event>, n: nat)
    requires n < |events| && events[n].Close?
    requires forall i :: n <= i < |events| && events[i].Close? ==> events[i].reason != ""
    ensures Over(After(events))
  {
    var last := |events| - 1;
    RunKeepsInv(events[..last]);
    hide Over, Inv;
    if n < last {
      assert events[..last][n] == events[n];
      assert forall i :: n <= i < last ==> events[..last][i] == events[i];
      ClosedSettlesAll(events[..last], n);
      OverStays(After(events[..last]), events[last]);
    } else {
      CloseIsOver(After(events[..last]), events[last].reason);
    }
  }

  /**
   * An empty reason is no reason: the client takes a further request, which then waits for a
   * response that cannot come. It refuses further requests exactly when the reason is not empty.
   */
  lemma ClosedWithoutReason(c: Client, reason: string)
    requires Inv(c)
    ensures AfterSend(AfterClose(c, reason), None) == AfterClose(c, reason) <==> reason != ""
    ensures reason == "" ==> c.nextId + 1 in AfterSend(AfterClose(c, reason), None).pending
  {
    if reason == "" {
      assert AfterSend(AfterClose(c, reason), None).nextId == c.nextId + 1;
    }
  }

  // --- The client ---

  class MutationClient {
    var pending: set<nat>
    var nextId: nat
    var closed: string
    var refed: bool                   // whether the port keeps the worker alive
    var settled: map<nat, Outcome>    // how each promise ended

    ghost function View(): Client
      reads this
    {
      Client(pending, nextId, closed, refed, settled)
    }

    constructor ()
      ensures View() == Opened && Inv(View())
    {
      pending, nextId, closed, refed, settled := {}, 0, "", false, map[];
    }

    /** Take a request off the list; the last one lets the worker exit. */
    method Settle(id: nat, how: Outcome)
      requires id in pending
      modifies this
      ensures View() == Settled(old(View()), id, how)
    {
      pending := pending - {id};
      if |pending| == 0 {
        refed := false;
      }
      settled := settled[id := how];
    }

    /** Settle the request a response answers; a response to no pending request changes nothing. */
    method Handle(id: nat, error: Option<string>)
      requires Inv(View())
      modifies this
      ensures View() == AfterMessage(old(View()), id, error) && Inv(View())
    {
      NextKeepsInv(View(), Message(id, error));
      if id in pending {
        Settle(id, match error case None => Resolved case Some(why) => Rejected(why));
      }
    }

    /** Issue a request; none when the client is closed. */
    method Send(postFails: Option<string>) returns (id: Option<nat>)
      requires Inv(View())
      modifies this
      ensures View() == AfterSend(old(View()), postFails) && Inv(View())
      ensures id.Some? <==> old(closed) == ""
      ensures id.Some? ==> id.value == nextId && id.value !in old(pending) + old(settled).Keys
      ensures id.Some? && postFails.None? ==> id.value in pending && refed
    {
      NextKeepsInv(View(), Event.Send(postFails));
      if closed != "" {
        return None;
      }
      nextId := nextId + 1;
      id := Some(nextId);
      pending := pending + {nextId};
      if |pending| == 1 {
        refed := true;
      }
      if postFails.Some? {
        Settle(nextId, Rejected(postFails.value));
      }
    }

    /** Settle what is pending with `reason` and let the port go. */
    method Close(reason: string)
      requires Inv(View())
      modifies this
      ensures View() == AfterClose(old(View()), reason) && Inv(View())
    {
      NextKeepsInv(View(), Event.Close(reason));
      closed := reason;
      var rest := pending;
      NoneRejected(settled, pending, reason);
      pending := {};
      refed := false;
      hide RejectedAll;
      while rest != {}
        invariant rest <= old(pending) && pending == {} && !refed && closed == reason && nextId == old(nextId)
        invariant settled == old(settled) + RejectedAll(old(pending) - rest, reason)
        decreases rest
      {
        var id :| id in rest;
        OneMoreRejected(old(settled), old(pending), rest, id, reason);
        rest := rest - {id};
        settled := settled[id := Rejected(reason)];
      }
      assert old(pending) - rest == old(pending);
    }
  }
}
