/** The pin table of a thread as a board of leases. */
module ThreadPins {
  import opened Layout
  import P = Protocol
  import L = Leases
  import opened Leases

  /**
   * Streams and leases per projected version, the retireId of those retired while in use, and the
   * handles that were given out and not yet released.
   */
  class PinTable {
    var counts: map<Entry, nat>
    var bound: map<Entry, nat>
    var held: map<nat, Entry>      // the handles whose flag is still set
    var next: nat
    ghost var ever: map<nat, Entry>
    ghost var sent: seq<nat>

    ghost function View(): P.Pins
      reads this
    {
      P.Pins(counts, bound)
    }

    ghost function Board(): Board
      reads this
    {
      L.Board(View(), held, next, ever, sent)
    }

    /** Every count is the number of handles out on that version. */
    ghost predicate Leased()
      reads this
    {
      Counted(Board())
    }

    /** Handle `lease` is out on `version`. */
    predicate Holds(lease: nat, version: Entry)
      reads this
    {
      lease in held && held[lease] == version
    }

    /** No handle was given out or released. */
    twostate predicate SameLeases()
      reads this
    {
      held == old(held) && next == old(next) && counts == old(counts) && sent == old(sent)
    }

    constructor ()
      ensures Board() == NoLeases && View() == P.EmptyPins && Leased()
    {
      counts, bound, held, next, ever, sent := map[], map[], map[], 0, map[], [];
      new;
      NothingLeased();
    }

    /** A version with a handle out on it is pinned. */
    lemma HeldIsPinned(lease: nat)
      requires Leased() && lease in held
      ensures held[lease] in counts
    {
      LeasedCounts(Board(), lease);
    }

    /** Hand out a fresh handle on `version`, counted from now on. */
    method Acquire(version: Entry) returns (lease: nat)
      modifies this
      ensures Board() == AfterAcquire(old(Board()), version) && lease == old(next)
      ensures old(Leased()) ==> Leased()
    {
      if Counted(Board()) {
        AcquireKeepsCounted(Board(), version);
      }
      counts := counts[version := (if version in counts then counts[version] else 0) + 1];
      lease := next;
      held := held[next := version];
      next := next + 1;
    }

    /** One consumer less; the last one of a retired version has its retireId to report. */
    method Drop(version: Entry) returns (freed: Option<nat>)
      modifies this`counts, this`bound, this`sent
      ensures version in old(counts) ==> View() == P.Drop(old(View()), version) && freed == P.Freed(old(View()), version)
      ensures version !in old(counts) ==> View() == old(View()) && freed == None
      ensures sent == if freed.Some? then old(sent) + [freed.value] else old(sent)
    {
      if version !in counts {
        return None;
      }
      if counts[version] > 1 {
        counts := counts[version := counts[version] - 1];
        return None;
      }
      counts := counts - {version};
      if version !in bound {
        assert bound - {version} == bound;
        return None;
      }
      freed := Some(bound[version]);
      bound := bound - {version};
      sent := sent + [freed.value];
    }

    /** The first release of a handle ends its hold, every other does nothing. */
    method Release(lease: nat) returns (freed: Option<nat>)
      requires Leased()
      modifies this
      ensures Leased() && Board() == AfterRelease(old(Board()), lease)
      ensures lease !in old(held) ==> freed == None
      ensures lease in old(held) ==> old(held)[lease] in old(counts) && freed == P.Freed(old(View()), old(held)[lease])
    {
      ReleaseKeepsCounted(Board(), lease);
      if lease !in held {
        assert held - {lease} == held;
        return None;
      }
      HeldIsPinned(lease);
      var version := held[lease];
      held := held - {lease};
      freed := Drop(version);
    }

    /** Bind a version that is being retired to its retireId while consumers still read it. */
    method Retain(version: Option<Entry>, retireId: nat) returns (kept: bool)
      modifies this`bound, this`ever
      ensures kept <==> version.Some? && version.value in counts
      ensures version.Some? ==> Board() == AfterRetire(old(Board()), version.value, retireId)
      ensures bound == if kept then old(bound)[version.value := retireId] else old(bound)
    {
      if version.None? || version.value !in counts {
        return false;
      }
      bound := bound[version.value := retireId];
      ever := ever[retireId := version.value];
      return true;
    }

    /** `Bind` of the protocol, done key by key, with the ids it newly bound. */
    method RetainAll(files: Files, u: P.Update) returns (retained: set<nat>)
      requires SeparateVersions(files, View(), u)
      modifies this`bound, this`ever
      ensures View() == P.Bind(files, old(View()), u)
      ensures retained == P.RetainedIds(files, old(View()), u)
      ensures old(Leased()) ==> Leased()
    {
      ghost var pins := View();
      retained := {};
      var rest := u.retired.Keys;
      NothingBound(files, pins, u);
      while rest != {}
        invariant rest <= u.retired.Keys
        invariant counts == pins.counts
        invariant View() == P.Bind(files, pins, Only(u, u.retired.Keys - rest))
        invariant retained == P.RetainedIds(files, pins, Only(u, u.retired.Keys - rest))
        decreases rest
      {
        var key :| key in rest;
        BindMore(files, pins, u, u.retired.Keys - rest, key);
        assert u.retired.Keys - rest + {key} == u.retired.Keys - (rest - {key});
        rest := rest - {key};
        hide P.Bind, P.RetainedIds;
        var kept := Retain(if key in files then Some(files[key]) else None, u.retired[key]);
        if kept {
          retained := retained + {u.retired[key]};
        }
      }
      assert Only(u, u.retired.Keys - rest) == u;
    }
  }

  /** No version in use is retired under two keys. */
  ghost predicate SeparateVersions(files: Files, pins: P.Pins, u: P.Update) {
    forall j, k :: j in P.InUse(files, pins, u) && k in P.InUse(files, pins, u) && files[j] == files[k] ==> j == k
  }

  /** Update `u` with the retirements of `done` only. */
  ghost function Only(u: P.Update, done: set<Key>): P.Update {
    u.(retired := map k | k in u.retired && k in done :: u.retired[k])
  }

  lemma NothingBound(files: Files, pins: P.Pins, u: P.Update)
    ensures P.Bind(files, pins, Only(u, u.retired.Keys - u.retired.Keys)) == pins
    ensures P.RetainedIds(files, pins, Only(u, u.retired.Keys - u.retired.Keys)) == {}
  {
    var none := Only(u, u.retired.Keys - u.retired.Keys);
    assert P.InUse(files, pins, none) == {};
    assert P.Bind(files, pins, none).bound == pins.bound;
  }

  function Versions(files: Files, keys: set<Key>): set<Entry>
    requires keys <= files.Keys
  {
    set k | k in keys :: files[k]
  }

  /** Binding one more retired key. */
  lemma BindMore(files: Files, pins: P.Pins, u: P.Update, done: set<Key>, key: Key)
    requires SeparateVersions(files, pins, u) && key in u.retired && key !in done && done <= u.retired.Keys
    ensures var hit := key in files && files[key] in pins.counts;
      var before := P.Bind(files, pins, Only(u, done));
      P.Bind(files, pins, Only(u, done + {key})) == if hit then before.(bound := before.bound[files[key] := u.retired[key]]) else before
    ensures var hit := key in files && files[key] in pins.counts;
      P.RetainedIds(files, pins, Only(u, done + {key})) == P.RetainedIds(files, pins, Only(u, done)) + if hit then {u.retired[key]} else {}
  {
    hide P.Bind, P.InUse, P.RetainedIds, SeparateVersions;
    var less, more := Only(u, done), Only(u, done + {key});
    InUseMore(files, pins, u, done, key);
    BoundAs(files, pins, less);
    BoundAs(files, pins, more);
    var used := P.InUse(files, pins, less);
    OnlyIds(u, done, key);
    if key in files && files[key] in pins.counts {
      BoundMore(files, used, u.retired, key, pins.bound, P.Bind(files, pins, less).bound, P.Bind(files, pins, more).bound);
    } else {
      BoundSame(files, used, u.retired, pins.bound, P.Bind(files, pins, less).bound, P.Bind(files, pins, more).bound);
    }
  }

  lemma OnlyIds(u: P.Update, done: set<Key>, key: Key)
    ensures forall k :: k in Only(u, done).retired ==> k in u.retired && Only(u, done).retired[k] == u.retired[k]
    ensures forall k :: k in Only(u, done + {key}).retired ==> k in u.retired && Only(u, done + {key}).retired[k] == u.retired[k]
  {
  }

  /** `after` is `bound` with the version of every used key bound to its id. */
  ghost predicate BindsTo(files: Files, used: set<Key>, ids: map<Key, nat>, bound: map<Entry, nat>, after: map<Entry, nat>) {
    && used <= files.Keys && used <= ids.Keys
    && after.Keys == bound.Keys + Versions(files, used)
    && (forall k :: k in used ==> after[files[k]] == ids[k])
    && (forall e :: e in bound && e !in Versions(files, used) ==> after[e] == bound[e])
  }

  lemma BoundSame(files: Files, used: set<Key>, ids: map<Key, nat>, bound: map<Entry, nat>, before: map<Entry, nat>, after: map<Entry, nat>)
    requires BindsTo(files, used, ids, bound, before) && BindsTo(files, used, ids, bound, after)
    ensures before == after
  {
    forall e | e in after ensures after[e] == before[e] {
      if e in Versions(files, used) {
        var k :| k in used && files[k] == e;
      }
    }
  }

  lemma BoundMore(files: Files, used: set<Key>, ids: map<Key, nat>, key: Key, bound: map<Entry, nat>, before: map<Entry, nat>, after: map<Entry, nat>)
    requires key in files && key in ids
    requires BindsTo(files, used, ids, bound, before) && BindsTo(files, used + {key}, ids, bound, after)
    ensures after == before[files[key] := ids[key]]
  {
    assert Versions(files, used + {key}) == Versions(files, used) + {files[key]};
    forall e | e in after && e != files[key] ensures after[e] == before[e] {
      if e in Versions(files, used) {
        var k :| k in used && files[k] == e;
      }
    }
  }

  lemma InUseMore(files: Files, pins: P.Pins, u: P.Update, done: set<Key>, key: Key)
    requires SeparateVersions(files, pins, u) && key in u.retired && done <= u.retired.Keys
    ensures P.InUse(files, pins, Only(u, done + {key})) == P.InUse(files, pins, Only(u, done)) + if key in files && files[key] in pins.counts then {key} else {}
    ensures SeparateVersions(files, pins, Only(u, done)) && SeparateVersions(files, pins, Only(u, done + {key}))
    ensures var hit := key in files && files[key] in pins.counts;
      P.RetainedIds(files, pins, Only(u, done + {key})) == P.RetainedIds(files, pins, Only(u, done)) + if hit then {u.retired[key]} else {}
  {
    var less, more := Only(u, done), Only(u, done + {key});
    assert P.InUse(files, pins, more) == P.InUse(files, pins, less) + if key in files && files[key] in pins.counts then {key} else {};
    assert P.InUse(files, pins, more) <= P.InUse(files, pins, u);
  }

  lemma BoundAs(files: Files, pins: P.Pins, u: P.Update)
    requires SeparateVersions(files, pins, u)
    ensures P.Bind(files, pins, u).counts == pins.counts
    ensures BindsTo(files, P.InUse(files, pins, u), u.retired, pins.bound, P.Bind(files, pins, u).bound)
  {
  }
}
