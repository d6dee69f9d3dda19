/** Handles on pinned versions: each ends its hold once, and each retired version is reported once. */
module Leases {
  import opened Layout
  import P = Protocol

  /**
   * `held` maps the leases not yet released to the version they pin; a lease is named by the order
   * in which it was acquired. `bound` remembers every retireId a version in use was ever bound to,
   * `sent` the releases posted so far.
   */
  datatype Board = Board(pins: P.Pins, held: map<nat, Entry>, next: nat, bound: map<nat, Entry>, sent: seq<nat>)

  const NoLeases := Board(P.EmptyPins, map[], 0, map[], [])

  datatype Event =
    | Acquire(version: Entry)
    | Release(lease: nat)
    | Retire(version: Entry, retireId: nat)

  function AfterAcquire(b: Board, version: Entry): Board {
    b.(pins := P.Acquire(b.pins, version), held := b.held[b.next := version], next := b.next + 1)
  }

  /** Releasing a lease a second time does nothing. */
  function AfterRelease(b: Board, lease: nat): Board {
    if lease !in b.held || b.held[lease] !in b.pins.counts then b.(held := b.held - {lease}) else
    var e := b.held[lease];
    b.(pins := P.Drop(b.pins, e), held := b.held - {lease},
       sent := b.sent + match P.Freed(b.pins, e) case None => [] case Some(id) => [id])
  }

  function AfterRetire(b: Board, version: Entry, retireId: nat): Board {
    if version !in b.pins.counts then b
    else b.(pins := b.pins.(bound := b.pins.bound[version := retireId]), bound := b.bound[retireId := version])
  }

  /** A version is retired once, under a retireId of its own. */
  predicate Enabled(b: Board, ev: Event) {
    ev.Retire? ==> ev.version !in b.pins.bound && ev.retireId !in b.bound
  }

  function Next(b: Board, ev: Event): Board {
    match ev
    case Acquire(version) => AfterAcquire(b, version)
    case Release(lease) => AfterRelease(b, lease)
    case Retire(version, retireId) => AfterRetire(b, version, retireId)
  }

  // --- Counts are leases ---

  ghost function LeasesOf(held: map<nat, Entry>, e: Entry): set<nat> {
    set l | l in held && held[l] == e
  }

  /** The count of every version is the number of its leases not yet released. */
  ghost predicate Counted(b: Board) {
    && (forall l :: l in b.held ==> l < b.next)
    && (forall e :: e in b.pins.counts ==> b.pins.counts[e] > 0)
    && (forall e :: CountOf(b.pins.counts, e) == |LeasesOf(b.held, e)|)
  }

  function CountOf(counts: map<Entry, nat>, e: Entry): nat {
    if e in counts then counts[e] else 0
  }

  /**
   * Each retireId a version in use was bound to is either still bound, and then the version has a
   * lease, or was sent, once.
   */
  ghost predicate Reported(b: Board) {
    && b.pins.bound.Keys <= b.pins.counts.Keys
    && (forall e :: e in b.pins.bound ==> b.pins.bound[e] in b.bound && b.bound[b.pins.bound[e]] == e && b.pins.bound[e] !in b.sent)
    && (forall id :: id in b.bound ==> id in b.sent || (b.bound[id] in b.pins.bound && b.pins.bound[b.bound[id]] == id))
    && (forall id :: id in b.sent ==> id in b.bound)
    && (forall i, j :: 0 <= i < j < |b.sent| ==> b.sent[i] != b.sent[j])
  }

  lemma OneMoreLease(held: map<nat, Entry>, l: nat, version: Entry, e: Entry)
    requires l !in held
    ensures |LeasesOf(held[l := version], e)| == |LeasesOf(held, e)| + if e == version then 1 else 0
  {
    assert LeasesOf(held[l := version], e) == LeasesOf(held, e) + if e == version then {l} else {};
  }

  lemma OneLeaseLess(held: map<nat, Entry>, l: nat, e: Entry)
    requires l in held
    ensures |LeasesOf(held - {l}, e)| == |LeasesOf(held, e)| - if e == held[l] then 1 else 0
  {
    assert l in LeasesOf(held, e) <==> e == held[l];
    assert LeasesOf(held - {l}, e) == LeasesOf(held, e) - {l};
  }

  lemma AcquireKeepsCounted(b: Board, version: Entry)
    requires Counted(b)
    ensures Counted(AfterAcquire(b, version))
  {
    forall e ensures CountOf(P.Acquire(b.pins, version).counts, e) == |LeasesOf(b.held[b.next := version], e)| {
      OneMoreLease(b.held, b.next, version, e);
      hide LeasesOf;
    }
    hide LeasesOf;
  }

  lemma LeasedCounts(b: Board, lease: nat)
    requires Counted(b) && lease in b.held
    ensures b.held[lease] in b.pins.counts
  {
    assert lease in LeasesOf(b.held, b.held[lease]);
    assert CountOf(b.pins.counts, b.held[lease]) > 0;
  }

  lemma ReleaseKeepsCounted(b: Board, lease: nat)
    requires Counted(b)
    ensures Counted(AfterRelease(b, lease))
  {
    if lease !in b.held {
      assert b.held - {lease} == b.held;
    } else {
      LeasedCounts(b, lease);
      forall e ensures CountOf(P.Drop(b.pins, b.held[lease]).counts, e) == |LeasesOf(b.held - {lease}, e)| {
        OneLeaseLess(b.held, lease, e);
        hide LeasesOf;
      }
      hide LeasesOf;
    }
  }

  lemma ReleaseKeepsReported(b: Board, lease: nat)
    requires Counted(b) && Reported(b)
    ensures Reported(AfterRelease(b, lease))
  {
    hide LeasesOf;
  }

  lemma NextKeeps(b: Board, ev: Event)
    requires Enabled(b, ev) && Counted(b) && Reported(b)
    ensures Counted(Next(b, ev)) && Reported(Next(b, ev))
  {
    match ev
    case Acquire(version) =>
      AcquireKeepsCounted(b, version);
      hide Counted, LeasesOf;
    case Release(lease) =>
      ReleaseKeepsCounted(b, lease);
      ReleaseKeepsReported(b, lease);
      hide Counted, Reported, AfterRelease;
    case Retire(version, retireId) =>
      hide LeasesOf;
  }

  ghost predicate Run(boards: seq<Board>, events: seq<Event>) {
    && |boards| == |events| + 1 && boards[0] == NoLeases
    && forall i :: 0 <= i < |events| ==> Enabled(boards[i], events[i]) && boards[i + 1] == Next(boards[i], events[i])
  }

  lemma {:induction false} RunKeeps(boards: seq<Board>, events: seq<Event>, n: nat)
    requires Run(boards, events) && n <= |events|
    ensures Counted(boards[n]) && Reported(boards[n])
  {
    hide Counted, Reported, Enabled, Next;
    if n == 0 {
      NothingLeased();
    } else {
      RunKeeps(boards, events, n - 1);
      NextKeeps(boards[n - 1], events[n - 1]);
    }
  }

  lemma NothingLeased()
    ensures Counted(NoLeases) && Reported(NoLeases)
  {
  }

  // --- What consumers and the main kernel can rely on ---

  /** A version stays pinned exactly as long as one of its leases is not released. */
  lemma PinnedWhileLeased(boards: seq<Board>, events: seq<Event>, n: nat, e: Entry)
    requires Run(boards, events) && n <= |events|
    ensures e in boards[n].pins.counts <==> exists l :: l in boards[n].held && boards[n].held[l] == e
  {
    RunKeeps(boards, events, n);
    if e in boards[n].pins.counts {
      assert |LeasesOf(boards[n].held, e)| > 0;
      var l :| l in LeasesOf(boards[n].held, e);
    }
    if l :| l in boards[n].held && boards[n].held[l] == e {
      LeasedCounts(boards[n], l);
    }
  }

  /** However often a lease is released, its hold ends once. */
  lemma ReleaseIsIdempotent(b: Board, lease: nat)
    ensures AfterRelease(AfterRelease(b, lease), lease) == AfterRelease(b, lease)
  {
    assert b.held - {lease} - {lease} == b.held - {lease};
  }

  /** A release of a version retired in use is sent by the release of its last lease, and by nothing else. */
  lemma SentByLast(boards: seq<Board>, events: seq<Event>, n: nat)
    requires Run(boards, events) && n < |events|
    ensures boards[n + 1].sent == boards[n].sent <==>
      !(events[n].Release? && var l := events[n].lease;
        && l in boards[n].held && boards[n].held[l] in boards[n].pins.bound && LeasesOf(boards[n].held, boards[n].held[l]) == {l})
    ensures boards[n + 1].sent != boards[n].sent ==> boards[n + 1].sent == boards[n].sent + [boards[n].pins.bound[boards[n].held[events[n].lease]]]
  {
    RunKeeps(boards, events, n);
    var b := boards[n];
    if events[n].Release? && events[n].lease in b.held {
      var l := events[n].lease;
      var e := b.held[l];
      LeasedCounts(b, l);
      assert l in LeasesOf(b.held, e);
      if |LeasesOf(b.held, e)| == 1 {
        OnlyLease(LeasesOf(b.held, e), l);
      }
    }
    hide LeasesOf, Run;
  }

  lemma OnlyLease(s: set<nat>, x: nat)
    requires x in s && |s| == 1
    ensures s == {x}
  {
    assert |s - {x}| == 0;
  }

  /**
   * For every version retired in use exactly one release is sent, under the retireId it was bound
   * to, and not before its last lease is released.
   */
  lemma OneReleasePerVersion(boards: seq<Board>, events: seq<Event>, n: nat, id: nat)
    requires Run(boards, events) && n <= |events|
    ensures id in boards[n].sent ==> id in boards[n].bound
    ensures forall i, j :: 0 <= i < j < |boards[n].sent| ==> boards[n].sent[i] != boards[n].sent[j]
    ensures id in boards[n].bound && id !in boards[n].sent ==> exists l :: l in boards[n].held && boards[n].held[l] == boards[n].bound[id]
  {
    RunKeeps(boards, events, n);
    if id in boards[n].bound && id !in boards[n].sent {
      PinnedWhileLeased(boards, events, n, boards[n].bound[id]);
    }
  }
}
