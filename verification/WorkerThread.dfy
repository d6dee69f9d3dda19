/** The kernel of a worker thread: the projection it applies updates to, and its end of the port. */
module WorkerThread {
  import opened Layout
  import opened Protocol
  import opened Invariant
  import opened Consumers
  import opened Safety
  import opened ThreadPins
  import R = MutationRpc
  import Requests
  import opened Releases

  class WorkerKernel {
    var files: Files
    const pins: PinTable
    const client: R.MutationClient
    var outbox: seq<Up>         // what was posted and not yet taken by the main kernel

    /** This thread is link `l` of `s`: no request is pending here that is not under way there. */
    ghost predicate Is(s: State, l: nat)
      reads this, pins, client
    {
      && l in s.peers && s.peers[l].files == files && s.peers[l].pins == pins.View() && s.peers[l].outbox == outbox
      && pins.Leased() && R.Inv(client.View())
      && s.peers[l].asked <= client.nextId && client.pending <= s.peers[l].open
    }

    /** A projection of a snapshot, connected to its port. */
    constructor (snapshot: Files)
      ensures files == snapshot && pins.View() == EmptyPins && pins.Leased() && outbox == [] && client.View() == R.Opened
      ensures fresh(pins) && fresh(client)
    {
      files, outbox := snapshot, [];
      pins := new PinTable();
      client := new R.MutationClient();
    }

    /** `Apply` and `Bind` of the protocol at this end, with the ids the acknowledgement will carry. */
    method HandleDelta(u: Update) returns (retained: set<nat>)
      requires SeparateVersions(files, pins.View(), u)
      modifies this`files, pins`bound, pins`ever
      ensures files == Protocol.Apply(old(files), u) && pins.View() == Bind(old(files), old(pins.View()), u)
      ensures retained == RetainedIds(old(files), old(pins.View()), u) && (old(pins.Leased()) ==> pins.Leased())
    {
      retained := pins.RetainAll(files, u);
      files := files + u.entries;
      files := files - u.removals;
    }

    /** An update is applied, and acknowledged with the retired versions this thread still reads. */
    method OnUpdate(u: Update, ghost s: State, ghost l: nat)
      requires Reachable(s) && Is(s, l) && s.peers[l].inbox != [] && s.peers[l].inbox[0] == Down.Deliver(u)
      modifies this`files, this`outbox, pins`bound, pins`ever
      ensures Is(WithPeer(s, l, Received(s.peers[l])), l) && pins.SameLeases()
    {
      hide Reachable, Inv, Bind, RetainedIds, InUse, Protocol.Apply, PinTable.Leased, R.Inv;
      SeparateInWorker(s, l);
      var retained := HandleDelta(u);
      outbox := outbox + [Ack(u.id, retained)];
    }

    /**
     * A response settles its request. By then this thread has applied the update the request was
     * committed as, if any, and no second response to it will come.
     */
    method OnResponse(request: nat, ghost commit: nat, error: Option<string>, ghost s: State, ghost l: nat)
      requires Reachable(s) && Is(s, l) && s.peers[l].inbox != [] && s.peers[l].inbox[0] == Reply(request, commit)
      modifies client
      ensures Is(WithPeer(s, l, Received(s.peers[l])), l)
      ensures client.View() == R.AfterMessage(old(client.View()), request, error)
      ensures request in s.peers[l].open && request !in Received(s.peers[l]).open
      ensures var q := Req(l, request);
        && commit == CommitOf(s.calls, q) && s.peers[l].applied <= |s.log| < |s.hist| && files == s.hist[s.peers[l].applied]
        && (q in s.calls.credit ==> 0 < commit <= s.peers[l].applied && s.hist[commit] == Protocol.Apply(s.hist[commit - 1], s.log[commit - 1]))
    {
      hide Reachable, Protocol.Apply, PinTable.Leased, R.Inv;
      Requests.ReadYourWrites(s, l);
      client.Handle(request, error);
    }

    /** The message handler: this end of the link becomes what the protocol says. */
    method OnMessage(msg: Down, error: Option<string>, ghost s: State, ghost l: nat)
      requires Reachable(s) && Is(s, l) && s.peers[l].inbox != [] && s.peers[l].inbox[0] == msg
      modifies this`files, this`outbox, pins`bound, pins`ever, client
      ensures Is(WithPeer(s, l, Received(s.peers[l])), l) && pins.SameLeases()
      ensures client.View() == if msg.Reply? then R.AfterMessage(old(client.View()), msg.request, error) else old(client.View())
    {
      hide Reachable, WorkerKernel.Is, Received, WithPeer;
      match msg
      case Deliver(u) => OnUpdate(u, s, l);
      case Reply(request, commit) => OnResponse(request, commit, error, s, l);
    }

    /** A `Request` event with a fresh id, unless the client is closed or the post fails. */
    method Ask(postFails: Option<string>, ghost s: State, ghost l: nat) returns (id: Option<nat>)
      requires Is(s, l) && Live(s, l)
      modifies this`outbox, client
      ensures id.Some? <==> old(client.closed) == ""
      ensures client.View() == R.AfterSend(old(client.View()), postFails)
      ensures id.Some? && postFails.None? ==> Enabled(s, Request(l, id.value)) && Is(WithPeer(s, l, Asked(s.peers[l], id.value)), l) && id.value in client.pending
      ensures id.None? || postFails.Some? ==> Is(s, l)
    {
      hide PinTable.Leased, R.Inv, R.AfterSend, Enabled, WithPeer;
      R.SentPending(client.View(), postFails);
      MayAsk(s, l, client.nextId + 1);
      PeerSet(s, l, Asked(s.peers[l], client.nextId + 1));
      id := client.Send(postFails);
      outbox := outbox + if id.Some? && postFails.None? then [Mutate(id.value)] else [];
    }

    /** A stream or lease of this thread starts to read what `key` projects. */
    method Pin(key: Key, ghost s: State, ghost l: nat) returns (lease: nat)
      requires Is(s, l) && Live(s, l) && key in files
      modifies pins
      ensures Is(WithPins(s, Worker(l), Acquire(s.peers[l].pins, files[key])), l)
      ensures lease == old(pins.next) && pins.held == old(pins.held)[lease := files[key]]
    {
      hide PinTable.Leased, R.Inv, Acquire;
      lease := pins.Acquire(files[key]);
    }

    /**
     * A handle of this thread is released. With the last one on a retired version one release goes to
     * the main kernel; a handle released before does nothing.
     */
    method Unpin(lease: nat, ghost s: State, ghost l: nat)
      requires Is(s, l) && Live(s, l)
      modifies this`outbox, pins
      ensures lease in old(pins.held) ==> old(pins.held)[lease] in old(pins.counts) && Is(Unpinned(s, Worker(l), old(pins.held)[lease]), l)
      ensures lease !in old(pins.held) ==> Is(s, l) && outbox == old(outbox)
      ensures pins.held == old(pins.held) - {lease} && pins.next == old(pins.next)
    {
      hide Protocol.Drop, Freed, PinTable.Leased, R.Inv;
      if lease in pins.held {
        pins.HeldIsPinned(lease);
        WorkerUnpinned(s, l, pins.held[lease]);
      }
      hide Unpinned;
      var freed := pins.Release(lease);
      if freed.Some? {
        outbox := outbox + [Release(freed.value)];
      }
    }

    /** The port closed: no request stays pending. */
    method OnClose(reason: string, ghost s: State, ghost l: nat)
      requires Is(s, l)
      modifies client
      ensures client.View() == R.AfterClose(old(client.View()), reason) && Is(s, l)
    {
      hide PinTable.Leased, R.Inv;
      client.Close(reason);
    }
  }

  lemma MayAsk(s: State, l: nat, r: nat)
    requires Live(s, l) && r > s.peers[l].asked
    ensures Enabled(s, Request(l, r))
  {
  }

  lemma SeparateInWorker(s: State, l: nat)
    requires Reachable(s) && l in s.peers && s.peers[l].inbox != [] && s.peers[l].inbox[0].Deliver?
    ensures SeparateVersions(s.peers[l].files, s.peers[l].pins, s.peers[l].inbox[0].update)
  {
    hide Reachable, Inv;
    ReachableInv(s);
    NextUpdate(s, l);
  }
}
