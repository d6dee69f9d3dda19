/** The index of the kernel seen as the contents of one place: epochs of entries do what epochs of files do. */
module Abstraction {
  import opened Layout
  import opened Paths
  import opened Companion
  import opened Protocol
  import opened Upkeep
  import opened Coherence
  import P = Publication
  import S = Subtree

  /** The place holds just these files, with these bytes, all in the pool. */
  ghost predicate Shows(files: Files, place: string, contents: P.Contents) {
    forall name: string ::
      && (Key(place, name) in files <==> name in contents)
      && (name in contents ==> files[Key(place, name)].Shared? && files[Key(place, name)].bytes == contents[name].data)
  }

  /** The kernel and the store agree on which companions there are. */
  ghost predicate Configured(setup: Setup, place: string, config: P.Place) {
    && (forall name: string :: setup.flavors(Key(place, name)) == config.flavors(name))
    && setup.kinds(place) == config.kinds
  }

  /** The operation stores the file `f`, with every companion that can be built of it and no other. */
  ghost predicate Complete(op: Op, place: string, config: P.Place, key: string, f: P.File) {
    && op.Store? && op.key == Key(place, key) && op.source.Shared? && op.source.bytes == f.data
    && (forall fl :: fl in config.flavors(key) ==>
         && (fl in op.built <==> config.build(fl, key, f).Some?)
         && (fl in op.built ==> op.built[fl].Shared? && op.built[fl].bytes == config.build(fl, key, f).value))
  }

  /** What one change of a key does in both views. */
  ghost predicate SameChange(change: Option<Entry>, other: Option<P.File>) {
    if other.Some? then change.Some? && change.value.Shared? && change.value.bytes == other.value.data else change.None?
  }

  ghost predicate SameChanges(ch: Changes, place: string, other: P.Changes) {
    && (forall k :: k in ch ==> k.place == place)
    && (forall name: string :: Key(place, name) in ch <==> name in other)
    && (forall name :: name in other ==> SameChange(ch[Key(place, name)], other[name]))
  }

  /** An epoch of entries and the epoch of files it stands for lead to the same place. */
  lemma ChangesShow(files: Files, place: string, contents: P.Contents, ch: Changes, other: P.Changes)
    requires Shows(files, place, contents) && SameChanges(ch, place, other)
    ensures Shows(After(files, ch), place, P.Applied(contents, other))
  {
  }

  lemma StoreChanges(setup: Setup, place: string, config: P.Place, op: Op, key: string, f: P.File)
    requires Configured(setup, place, config) && !IsCompanionKey(key) && Complete(op, place, config, key, f)
    ensures SameChanges(Staged(setup, op), place, P.PublishChanges(config, key, f))
  {
    var ch, other := Staged(setup, op), P.PublishChanges(config, key, f);
    StagedSource(setup, op);
    forall name: string
      ensures Key(place, name) in ch <==> name in other
      ensures name in other ==> SameChange(ch[Key(place, name)], other[name])
    {
      P.ChangesAt(config, key, f, name);
      if Key(place, name) in ch && name != key {
        StagedOnly(setup, op, Key(place, name));
        var fl :| fl in setup.flavors(op.key) && Key(place, name) == Derived(op.key, fl);
        StagedCompanion(setup, op, fl);
      }
      if name in other && name != key {
        var fl :| fl in config.flavors(key) && name == CompanionKey(key, fl);
        StagedCompanion(setup, op, fl);
      }
    }
    StagedHere(setup, op);
  }

  lemma StagedHere(setup: Setup, op: Op)
    requires IsSource(op.key)
    ensures forall k :: k in Staged(setup, op) ==> k.place == op.key.place
  {
    forall k | k in Staged(setup, op) ensures k.place == op.key.place {
      StagedSource(setup, op);
      if !IsSource(k) {
        StagedOnly(setup, op, k);
      }
    }
  }

  lemma UnstageChangesSame(setup: Setup, place: string, config: P.Place, key: string)
    requires Configured(setup, place, config) && !IsCompanionKey(key)
    ensures SameChanges(Staged(setup, Unstage(Key(place, key))), place, P.UnstageChanges(config, key))
  {
    var op := Unstage(Key(place, key));
    var ch, other := Staged(setup, op), P.UnstageChanges(config, key);
    StagedSource(setup, op);
    StagedHere(setup, op);
    forall name: string
      ensures Key(place, name) in ch <==> name in other
      ensures name in other ==> SameChange(ch[Key(place, name)], other[name])
    {
      if Key(place, name) in ch && name != key {
        StagedOnly(setup, op, Key(place, name));
        var fl :| fl in setup.kinds(place) && Key(place, name) == Derived(op.key, fl);
        StagedCompanion(setup, op, fl);
        assert name == CompanionKey(key, fl);
      }
      if name in other && name != key {
        var fl :| fl in config.kinds && name == CompanionKey(key, fl);
        StagedCompanion(setup, op, fl);
        assert Key(place, name) == Derived(op.key, fl);
      }
    }
  }

  /** Storing a file in the pool publishes it in the place, if every companion found room. */
  lemma StoreShows(setup: Setup, place: string, config: P.Place, files: Files, contents: P.Contents, op: Op, key: string, f: P.File)
    requires Configured(setup, place, config) && Shows(files, place, contents) && !IsCompanionKey(key) && Complete(op, place, config, key, f)
    ensures Shows(After(files, Staged(setup, op)), place, P.Applied(contents, P.PublishChanges(config, key, f)))
  {
    StoreChanges(setup, place, config, op, key, f);
    hide Staged, Configured, Complete, P.PublishChanges, SameChanges, Shows, After, P.Applied;
    ChangesShow(files, place, contents, Staged(setup, op), P.PublishChanges(config, key, f));
  }

  lemma UnstageShows(setup: Setup, place: string, config: P.Place, files: Files, contents: P.Contents, key: string)
    requires Configured(setup, place, config) && Shows(files, place, contents) && !IsCompanionKey(key)
    ensures Shows(After(files, Staged(setup, Unstage(Key(place, key)))), place, P.Applied(contents, P.UnstageChanges(config, key)))
  {
    UnstageChangesSame(setup, place, config, key);
    hide Staged, Configured, P.UnstageChanges, SameChanges, Shows, After, P.Applied;
    ChangesShow(files, place, contents, Staged(setup, Unstage(Key(place, key))), P.UnstageChanges(config, key));
  }

  ghost predicate ShowsAt(files: Files, k: Key, contents: P.Contents, name: string) {
    (k in files <==> name in contents) && (name in contents ==> files[k].Shared? && files[k].bytes == contents[name].data)
  }

  /** Moving a subtree of entries moves the subtree of files. */
  lemma ShiftShows(place: string, config: P.Place, files: Files, contents: P.Contents, ch: Changes, from: string, to: string)
    requires Shows(files, place, contents) && Shifts(files, ch, place, from, to) && S.MayMove(config, contents, from, to) && to != from
    ensures Shows(After(files, ch), place, S.MovedContents(contents, from, to))
  {
    hide Shifts, After, S.MovedContents, S.MayMove;
    forall name: string ensures ShowsAt(After(files, ch), Key(place, name), S.MovedContents(contents, from, to), name) {
      if name in S.MovedContents(contents, from, to) {
        MovedThere(place, config, files, contents, ch, from, to, name);
      } else {
        NotThere(place, config, files, contents, ch, from, to, name);
      }
    }
  }

  /** Each file of the moved place is there among the entries. */
  lemma MovedThere(place: string, config: P.Place, files: Files, contents: P.Contents, ch: Changes, from: string, to: string, name: string)
    requires Shows(files, place, contents) && Shifts(files, ch, place, from, to) && S.MayMove(config, contents, from, to) && to != from
    requires name in S.MovedContents(contents, from, to)
    ensures ShowsAt(After(files, ch), Key(place, name), S.MovedContents(contents, from, to), name)
  {
    hide Shifts, S.MovedContents, S.MayMove, Under;
    S.MovedKeysAre(contents, from, to);
    var was :| was in contents && S.Rekey(from, to, was) == name;
    S.MovedAt(config, contents, from, to, was);
    if Under(SourceOf(was), from) {
      assert Key(place, was) in MovingKeys(files, place, from);
      ShiftedAt(files, ch, place, from, to, Key(place, was));
    } else {
      StaysPut(place, config, files, contents, ch, from, to, name);
    }
  }

  /** No other entry of the place is there. */
  lemma NotThere(place: string, config: P.Place, files: Files, contents: P.Contents, ch: Changes, from: string, to: string, name: string)
    requires Shows(files, place, contents) && Shifts(files, ch, place, from, to) && S.MayMove(config, contents, from, to) && to != from
    requires name !in S.MovedContents(contents, from, to)
    ensures Key(place, name) !in After(files, ch)
  {
    var k := Key(place, name);
    hide S.MovedContents, S.MayMove, Under, SameBytes;
    if k in After(files, ch) {
      if k in ch {
        var m :| m in MovingKeys(files, place, from) && k == Image(from, to, m);
        S.MovedAt(config, contents, from, to, m.name);
      } else {
        assert name in contents && k !in MovingKeys(files, place, from);
        S.MovedAt(config, contents, from, to, name);
      }
    }
  }

  lemma StaysPut(place: string, config: P.Place, files: Files, contents: P.Contents, ch: Changes, from: string, to: string, name: string)
    requires Shows(files, place, contents) && Shifts(files, ch, place, from, to) && S.MayMove(config, contents, from, to) && to != from
    requires name in contents && !Under(SourceOf(name), from)
    ensures Key(place, name) !in ch
  {
    if Key(place, name) in ch {
      var m :| m in MovingKeys(files, place, from) && Key(place, name) == Image(from, to, m);
      S.MovedElsewhere(config, contents, from, to, m.name, name);
    }
  }

  /** A compaction shows in no place. */
  lemma CompactionShows(files: Files, place: string, contents: P.Contents, after: Files)
    requires Shows(files, place, contents) && SameContent(files, after)
    ensures Shows(after, place, contents)
  {
  }
}
