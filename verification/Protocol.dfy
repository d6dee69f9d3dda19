/**
 * The retirement protocol between the main kernel and its linked workers, as a step system.
 *
 * Every synchronous handler of either side is built from the events below; each message port is
 * a pair of FIFO queues. `ledger`, `log`, `hist`, `applied` and `acked` are history variables:
 * they record who owns which extent, every update posted and every index it produced, and how far
 * each worker and its acknowledgements got. No event tests them except to name a fresh id.
 */
module Protocol {
  import opened Layout

  datatype Holder = Main | Worker(link: nat)

  /** One `vfs-update`. */
  datatype Update = Update(id: nat, entries: Files, removals: set<Key>, retired: map<Key, nat>)

  /** Main to worker. `commit` is the update the request was committed as, 0 when it committed none. */
  datatype Down = Deliver(update: Update) | Reply(request: nat, commit: nat)

  /** Worker to main. */
  datatype Up = Ack(updateId: nat, retained: set<nat>) | Release(retireId: nat) | Mutate(request: nat)

  /** Consumers per projected version, and the retireId of versions retired while in use. */
  datatype Pins = Pins(counts: map<Entry, nat>, bound: map<Entry, nat>)

  datatype Peer = Peer(
    alive: bool, attached: bool, files: Files, pins: Pins,
    inbox: seq<Down>, outbox: seq<Up>, applied: nat, acked: nat,
    asked: nat, open: set<nat>) // the last request that was posted, and those not yet responded to

  /** A retired version; its holders are kept in `State.holders`. */
  datatype Record = Record(key: Key, entry: Entry, updateId: nat)

  /** An update with retired versions that some link has not acknowledged. */
  datatype Pending = Pending(links: set<nat>, retired: set<nat>)

  datatype Role = Reserved | Private | Published(key: Key) | Retired(retireId: nat)

  datatype Slot = Slot(entry: Entry, role: Role)

  /** A request of a link, by the number its worker gave it. */
  datatype Req = Req(link: nat, id: nat)

  /** The requests the main kernel works on; and the update each request was ever committed as. */
  datatype Calls = Calls(serving: set<Req>, credit: map<Req, nat>)

  datatype State = State(
    index: Files, files: Files, pins: Pins,
    retired: map<nat, Record>, holders: map<nat, set<Holder>>, acks: map<nat, Pending>,
    nextRetire: nat, nextLink: nat, minted: nat,
    peers: map<nat, Peer>,
    ledger: map<nat, Slot>, mem: Memory,
    log: seq<Update>, hist: seq<Files>, calls: Calls)

  const EmptyPins := Pins(map[], map[])

  const Initial := State(
    map[], map[], EmptyPins, map[], map[], map[], 0, 0, 0, map[], map[], map[], [], [map[]], Calls({}, map[]))

  // --- Updates ---

  function Apply(files: Files, u: Update): Files {
    (files + u.entries) - u.removals
  }

  /** The keys of `u` whose replaced version this thread still reads. */
  function InUse(files: Files, pins: Pins, u: Update): set<Key> {
    set k | k in u.retired && k in files && files[k] in pins.counts
  }

  function RetainedIds(files: Files, pins: Pins, u: Update): set<nat> {
    set k | k in InUse(files, pins, u) :: u.retired[k]
  }

  /** Bind every version retired while in use to its retireId. */
  ghost function Bind(files: Files, pins: Pins, u: Update): Pins {
    var hit := InUse(files, pins, u);
    var versions := set k | k in hit :: files[k];
    pins.(bound := map e | e in pins.bound.Keys + versions ::
      if e in versions then (var k :| k in hit && files[k] == e; u.retired[k]) else pins.bound[e])
  }

  // --- Epochs ---

  type Changes = map<Key, Option<Entry>>

  /** Keys whose current version is shared and not empty, so that it must be retired. */
  function Replaced(index: Files, ch: Changes): set<Key> {
    set k | k in ch && k in index && index[k].Occupies()
  }

  function Added(ch: Changes): Files {
    map k | k in ch && ch[k].Some? :: ch[k].value
  }

  function Removed(index: Files, ch: Changes): set<Key> {
    set k | k in ch && ch[k].None? && k in index
  }

  predicate Vacuous(index: Files, ch: Changes) {
    Added(ch) == map[] && Removed(index, ch) == {}
  }

  /** `ids` numbers the replaced versions with the next retireIds. */
  ghost predicate Numbered(s: State, ch: Changes, ids: map<Key, nat>) {
    && ids.Keys == Replaced(s.index, ch)
    && (forall k :: k in ids ==> s.nextRetire < ids[k] <= s.nextRetire + |ids|)
    && Injective(ids)
  }

  /** Everything an epoch publishes is private, each version under one key. */
  predicate Publishable(s: State, ch: Changes) {
    && (forall k :: k in ch && ch[k].Some? ==>
         ch[k].value.id in s.ledger && s.ledger[ch[k].value.id] == Slot(ch[k].value, Private))
    && (forall j, k :: j in ch && k in ch && ch[j].Some? && ch[k].Some? && j != k ==>
         ch[j].value.id != ch[k].value.id)
  }

  function UpdateOf(s: State, ch: Changes, ids: map<Key, nat>): Update {
    Update(|s.log| + 1, Added(ch), Removed(s.index, ch), ids)
  }

  /** Ownership after a commit: new versions are published, replaced ones retired or forgotten. */
  ghost function Relabel(ledger: map<nat, Slot>, ch: Changes, ids: map<Key, nat>): map<nat, Slot> {
    map i | i in ledger && (ledger[i].role.Published? && ledger[i].role.key in ch ==> ledger[i].role.key in ids) ::
      var slot := ledger[i];
      if slot.role.Published? && slot.role.key in ch then slot.(role := Retired(ids[slot.role.key]))
      else if slot.role.Private? && exists k :: k in ch && ch[k] == Some(slot.entry)
      then (var k :| k in ch && ch[k] == Some(slot.entry); slot.(role := Published(k)))
      else slot
  }

  function Post(peers: map<nat, Peer>, u: Update): map<nat, Peer> {
    map l | l in peers :: Queue(peers[l], Deliver(u))
  }

  ghost predicate Injective(ids: map<Key, nat>) {
    forall j, k :: j in ids && k in ids && j != k ==> ids[j] != ids[k]
  }

  /** One record per replaced version. */
  function NewRecords(index: Files, ids: map<Key, nat>, u: nat): map<nat, Record>
    requires ids.Keys <= index.Keys && Injective(ids)
  {
    map k | k in ids :: ids[k] := Record(k, index[k], u)
  }

  /** The main thread holds the versions its own consumers still read. */
  function HeldByMain(ids: map<Key, nat>, kept: set<nat>): map<nat, set<Holder>>
    requires Injective(ids)
  {
    map k | k in ids :: ids[k] := if ids[k] in kept then {Main} else {}
  }

  /** `#track`: with a link to wait for and something to free, the update waits for every link. */
  function TrackedAcks(acks: map<nat, Pending>, links: set<nat>, u: nat, added: set<nat>): map<nat, Pending> {
    if added == {} || links == {} then acks else acks[u := Pending(links, added)]
  }

  /** Update `u` is applied and posted; `added` are retired, `ledger` is who owns what now. */
  ghost function Committed(s: State, u: Update, added: map<nat, Record>, held: map<nat, set<Holder>>, ledger: map<nat, Slot>): (t: State)
    ensures t.mem == s.mem
  {
    s.(index := Apply(s.index, u),
       files := Apply(s.files, u),
       pins := Bind(s.files, s.pins, u),
       retired := s.retired + added,
       holders := s.holders + held,
       acks := TrackedAcks(s.acks, s.peers.Keys, u.id, added.Keys),
       nextRetire := s.nextRetire + |u.retired|,
       peers := Post(s.peers, u),
       ledger := ledger,
       log := s.log + [u],
       hist := s.hist + [Apply(s.index, u)])
  }

  /** `#flush` up to the point where it settles: index, projection, retirement, posting, `#track`. */
  ghost function Commit(s: State, ch: Changes, ids: map<Key, nat>): (t: State)
    requires Numbered(s, ch, ids)
    ensures t.mem == s.mem
  {
    if Vacuous(s.index, ch) then s else
    var u := UpdateOf(s, ch, ids);
    Committed(s, u, NewRecords(s.index, ids, u.id), HeldByMain(ids, RetainedIds(s.files, s.pins, u)), Relabel(s.ledger, ch, ids))
  }

  // --- Consumers ---

  function Acquire(p: Pins, e: Entry): Pins {
    p.(counts := p.counts[e := (if e in p.counts then p.counts[e] else 0) + 1])
  }

  /** One consumer less; the last one forgets the version. */
  function Drop(p: Pins, e: Entry): Pins
    requires e in p.counts
  {
    if p.counts[e] > 1 then p.(counts := p.counts[e := p.counts[e] - 1])
    else Pins(p.counts - {e}, p.bound - {e})
  }

  /** The retireId the dropped consumer must report, if it was the last of a retired version. */
  function Freed(p: Pins, e: Entry): Option<nat>
    requires e in p.counts
  {
    if p.counts[e] <= 1 && e in p.bound then Some(p.bound[e]) else None
  }

  // --- Main kernel ---

  function Hold(holders: map<nat, set<Holder>>, ids: set<nat>, h: Holder): map<nat, set<Holder>> {
    map id | id in holders :: if id in ids then holders[id] + {h} else holders[id]
  }

  function Unhold(holders: map<nat, set<Holder>>, h: Holder): map<nat, set<Holder>> {
    map id | id in holders :: holders[id] - {h}
  }

  /** One link left the pending set of update `u`. */
  function Acked(acks: map<nat, Pending>, u: nat, l: nat): map<nat, Pending> {
    if u !in acks || l !in acks[u].links then acks
    else if acks[u].links == {l} then acks - {u}
    else acks[u := acks[u].(links := acks[u].links - {l})]
  }

  function ExitAcks(acks: map<nat, Pending>, l: nat): map<nat, Pending> {
    map u | u in acks && acks[u].links != {l} :: acks[u].(links := acks[u].links - {l})
  }

  /** No acknowledgement is pending for the record, and its holder set is empty. */
  predicate Releasable(s: State, id: nat) {
    id in s.retired && id in s.holders && s.holders[id] == {} && s.retired[id].updateId !in s.acks
  }

  // --- Events ---

  datatype Event =
    | Reserve(extent: Extent, mem: Memory) // the allocator hands out an extent
    | Fill(reserved: nat, mem: Memory)    // bytes arrive in a reserved extent
    | Complete(reserved: nat, bytes: seq<byte>) // the private entry is ready
    | Place(entry: Entry, mem: Memory)    // extent, bytes and private entry in one step
    | Mint(entry: Entry)                  // an entry without bytes of its own
    | Abandon(private: nat)               // an attempt is given up
    | Scratch(mem: Memory)                // a relocation rolled back leaves its copies behind
    | Flush(changes: Changes, ids: map<Key, nat>, owner: Option<Req>) // on behalf of a request, if any
    | Free(retireId: nat)
    | NewLink
    | Attach(link: nat)
    | Receive(link: nat)                  // a worker takes the next message of its port
    | Pin(who: Holder, key: Key)
    | Unpin(who: Holder, version: Entry)
    | Request(link: nat, request: nat)
    | Serve(link: nat)                    // the main kernel takes the next message of a port
    | Answer(req: Req)
    | Die(link: nat)
    | Exit(link: nat)                     // `close` of the port

  predicate Live(s: State, l: nat) {
    l in s.peers && s.peers[l].alive && s.peers[l].attached
  }

  function FilesOf(s: State, who: Holder): Files {
    match who
    case Main => s.files
    case Worker(l) => if l in s.peers then s.peers[l].files else map[]
  }

  function PinsOf(s: State, who: Holder): Pins {
    match who
    case Main => s.pins
    case Worker(l) => if l in s.peers then s.peers[l].pins else EmptyPins
  }

  predicate Running(s: State, who: Holder) {
    who.Worker? ==> Live(s, who.link)
  }

  ghost predicate Fits(s: State, x: Extent) {
    x.length > 0 && forall i :: i in s.ledger && s.ledger[i].entry.Shared? ==> Disjoint(s.ledger[i].entry.extent, x)
  }

  predicate Filling(s: State, id: nat) {
    id in s.ledger && s.ledger[id].role.Reserved? && s.ledger[id].entry.Shared?
  }

  /** Only bytes of the reserved extent change. */
  ghost predicate WritesWithin(s: State, id: nat, mem: Memory)
    requires Filling(s, id)
  {
    mem.Keys == s.mem.Keys && forall a :: a in mem && mem[a] != s.mem[a] ==> Covers(s.ledger[id].entry.extent, a)
  }

  /** New segments may appear; the bytes of known ones stay. */
  ghost predicate Extends(s: State, x: Extent, mem: Memory) {
    && (forall a :: a in s.mem ==> a in mem && mem[a] == s.mem[a])
    && (forall a :: Covers(x, a) ==> a in mem)
  }

  /** Bytes that belong to some entry stay. */
  ghost predicate KeepsOwned(s: State, mem: Memory) {
    && s.mem.Keys <= mem.Keys
    && forall i, a :: i in s.ledger && s.ledger[i].entry.Shared? && Covers(s.ledger[i].entry.extent, a) && a in s.mem ==>
         mem[a] == s.mem[a]
  }

  ghost predicate Placeable(s: State, e: Entry, mem: Memory) {
    && e.id == s.minted && e.Occupies() && e.WellFormed()
    && Fits(s, e.extent) && KeepsOwned(s, mem) && Intact(mem, e)
  }

  predicate Completes(s: State, id: nat, bytes: seq<byte>)
    requires Filling(s, id)
  {
    var e := s.ledger[id].entry.(bytes := bytes);
    e.WellFormed() && Intact(s.mem, e)
  }

  predicate Mintable(s: State, e: Entry) {
    e.id == s.minted && !e.Occupies() && e.WellFormed()
  }

  predicate Unpublished(s: State, id: nat) {
    id in s.ledger && (s.ledger[id].role.Reserved? || s.ledger[id].role.Private?)
  }

  ghost predicate Enabled(s: State, ev: Event) {
    match ev
    case Reserve(x, mem) => Fits(s, x) && Extends(s, x, mem)
    case Fill(id, mem) => Filling(s, id) && WritesWithin(s, id, mem)
    case Complete(id, bytes) => Filling(s, id) && Completes(s, id, bytes)
    case Place(e, mem) => Placeable(s, e, mem)
    case Mint(e) => Mintable(s, e)
    case Abandon(id) => Unpublished(s, id)
    case Scratch(mem) => KeepsOwned(s, mem)
    case Flush(ch, ids, owner) => Numbered(s, ch, ids) && Publishable(s, ch) && MayCommit(s.calls, owner)
    case Free(id) => Releasable(s, id)
    case NewLink => true
    case Attach(l) => l in s.peers && s.peers[l].alive && !s.peers[l].attached
    case Receive(l) => Live(s, l) && s.peers[l].inbox != []
    case Pin(who, k) => Running(s, who) && k in FilesOf(s, who)
    case Unpin(who, e) => Running(s, who) && e in PinsOf(s, who).counts
    case Request(l, r) => Live(s, l) && r > s.peers[l].asked
    case Serve(l) => l in s.peers && s.peers[l].outbox != []
    case Answer(q) => q in s.calls.serving
    case Die(l) => l in s.peers
    case Exit(l) => l in s.peers && !s.peers[l].alive
  }

  function WithPeer(s: State, l: nat, p: Peer): (t: State)
    ensures t.mem == s.mem
  {
    s.(peers := s.peers[l := p])
  }

  function AfterReserve(s: State, x: Extent, mem: Memory): State {
    s.(minted := s.minted + 1, ledger := s.ledger[s.minted := Slot(Shared(s.minted, s.minted, x, []), Reserved)], mem := mem)
  }

  function AfterPlace(s: State, e: Entry, mem: Memory): State {
    s.(minted := s.minted + 1, ledger := s.ledger[e.id := Slot(e, Private)], mem := mem)
  }

  function AfterComplete(s: State, id: nat, bytes: seq<byte>): (t: State)
    requires Filling(s, id)
    ensures t.mem == s.mem
  {
    s.(ledger := s.ledger[id := Slot(s.ledger[id].entry.(bytes := bytes), Private)])
  }

  function AfterMint(s: State, e: Entry): (t: State)
    ensures t.mem == s.mem
  {
    s.(minted := s.minted + 1, ledger := s.ledger[e.id := Slot(e, Private)])
  }

  function AfterAbandon(s: State, id: nat): (t: State)
    ensures t.mem == s.mem
  {
    s.(ledger := s.ledger - {id})
  }

  function AfterFree(s: State, id: nat): (t: State)
    requires id in s.retired
    ensures t.mem == s.mem
  {
    s.(retired := s.retired - {id}, holders := s.holders - {id}, ledger := s.ledger - {s.retired[id].entry.id})
  }

  /** A link starts from a snapshot of the index and gets every later update. */
  function AfterLink(s: State): (t: State)
    ensures t.mem == s.mem
  {
    s.(nextLink := s.nextLink + 1,
       peers := s.peers[s.nextLink + 1 := Peer(true, false, s.index, EmptyPins, [], [], |s.log|, |s.log|, 0, {})])
  }

  function AfterExit(s: State, l: nat): (t: State)
    ensures t.mem == s.mem
  {
    s.(peers := s.peers - {l}, holders := Unhold(s.holders, Worker(l)), acks := ExitAcks(s.acks, l))
  }

  function Queue(p: Peer, m: Down): Peer {
    p.(inbox := p.inbox + [m])
  }

  ghost function Next(s: State, ev: Event): State
    requires Enabled(s, ev)
  {
    match ev
    case Reserve(x, mem) => AfterReserve(s, x, mem)
    case Fill(id, mem) => s.(mem := mem)
    case Complete(id, bytes) => AfterComplete(s, id, bytes)
    case Place(e, mem) => AfterPlace(s, e, mem)
    case Mint(e) => AfterMint(s, e)
    case Abandon(id) => AfterAbandon(s, id)
    case Scratch(mem) => s.(mem := mem)
    case Flush(ch, ids, owner) => Credited(s, Commit(s, ch, ids), owner)
    case Free(id) => AfterFree(s, id)
    case NewLink => AfterLink(s)
    case Attach(l) => WithPeer(s, l, s.peers[l].(attached := true))
    case Receive(l) => WithPeer(s, l, Received(s.peers[l]))
    case Pin(who, k) => WithPins(s, who, Acquire(PinsOf(s, who), FilesOf(s, who)[k]))
    case Unpin(who, e) => Unpinned(s, who, e)
    case Request(l, r) => WithPeer(s, l, Asked(s.peers[l], r))
    case Serve(l) => Served(s, l)
    case Answer(q) => Answered(s, q)
    case Die(l) => WithPeer(s, l, s.peers[l].(alive := false))
    case Exit(l) => AfterExit(s, l)
  }

  function Send(p: Peer, m: Up): Peer {
    p.(outbox := p.outbox + [m])
  }

  /** A worker sends a request and waits for its response. */
  function Asked(p: Peer, r: nat): Peer {
    p.(outbox := p.outbox + [Mutate(r)], asked := r, open := p.open + {r})
  }

  /** A request commits at most one epoch, while the main kernel works on it. */
  predicate MayCommit(calls: Calls, owner: Option<Req>) {
    owner.Some? ==> owner.value in calls.serving && owner.value !in calls.credit
  }

  /** The update posted since `s` is that of the request. */
  function Credited(s: State, t: State, owner: Option<Req>): State {
    if owner.Some? && |t.log| > |s.log| then t.(calls := t.calls.(credit := t.calls.credit[owner.value := |t.log|])) else t
  }

  function CommitOf(calls: Calls, q: Req): nat {
    if q in calls.credit then calls.credit[q] else 0
  }

  /** The ports once the response to `q` is posted: nowhere, if its link is gone. */
  function Responded(peers: map<nat, Peer>, calls: Calls, q: Req): map<nat, Peer> {
    if q.link in peers then peers[q.link := Queue(peers[q.link], Reply(q.id, CommitOf(calls, q)))] else peers
  }

  /** `#serveMutation` is done: the main kernel no longer works on the request. */
  function Answered(s: State, q: Req): State {
    s.(calls := Calls(s.calls.serving - {q}, s.calls.credit), peers := Responded(s.peers, s.calls, q))
  }

  /** The worker's message handler: apply and acknowledge an update, or settle a mutation. */
  ghost function Received(p: Peer): Peer
    requires p.inbox != []
  {
    var rest := p.(inbox := p.inbox[1..]);
    match p.inbox[0]
    case Reply(r, _) => rest.(open := rest.open - {r})
    case Deliver(u) =>
      Send(rest.(files := Apply(p.files, u), pins := Bind(p.files, p.pins, u), applied := p.applied + 1),
           Ack(u.id, RetainedIds(p.files, p.pins, u)))
  }

  function WithPins(s: State, who: Holder, pins: Pins): (t: State)
    requires Running(s, who)
    ensures t.mem == s.mem
  {
    match who
    case Main => s.(pins := pins)
    case Worker(l) => WithPeer(s, l, s.peers[l].(pins := pins))
  }

  /** The release hook: a worker posts one message, the main thread drops its hold at once. */
  function Unpinned(s: State, who: Holder, e: Entry): (t: State)
    requires Running(s, who) && e in PinsOf(s, who).counts
    ensures t.mem == s.mem
  {
    var t := WithPins(s, who, Drop(PinsOf(s, who), e));
    match Freed(PinsOf(s, who), e)
    case None => t
    case Some(id) =>
      match who
      case Main => if id in t.holders then t.(holders := t.holders[id := t.holders[id] - {Main}]) else t
      case Worker(l) => WithPeer(t, l, Send(t.peers[l], Release(id)))
  }

  /** `handleAck`, `handleRelease` and the arrival of a request, up to the point where they settle. */
  function Served(s: State, l: nat): (t: State)
    requires l in s.peers && s.peers[l].outbox != []
    ensures t.mem == s.mem
  {
    var p := s.peers[l];
    var t := s.(peers := s.peers[l := p.(outbox := p.outbox[1..])]);
    match p.outbox[0]
    case Mutate(r) => t.(calls := t.calls.(serving := t.calls.serving + {Req(l, r)}))
    case Release(id) =>
      if id in t.holders then t.(holders := t.holders[id := t.holders[id] - {Worker(l)}]) else t
    case Ack(u, retained) =>
      t.(holders := Hold(s.holders, retained, Worker(l)),
         acks := Acked(s.acks, u, l),
         peers := s.peers[l := p.(outbox := p.outbox[1..], acked := p.acked + 1)])
  }
}
