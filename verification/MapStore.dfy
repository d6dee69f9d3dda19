/** Mutations written into the projection in place, each proved against its sequential specification. */
module MapStores {
  import opened Layout
  import opened Paths
  import opened Companion
  import opened Namespace
  import opened Publication
  import opened Subtree
  import opened Mutations
  import opened Effects
  import opened PlaceIndex
  import opened Checks

  /** A refused mutation changed nothing, an accepted one left exactly `spec`. */
  ghost predicate Did(error: Option<Refusal>, before: Contents, after: Contents, spec: Result<Contents>) {
    match spec
    case Refused(why) => error == Some(why) && after == before
    case Accepted(value) => error.None? && after == value
  }

  /** A Map place has no codecs: its configuration refuses them. */
  ghost predicate Uncompressed(place: Place) {
    forall fl :: fl in place.kinds ==> !fl.Encoded?
  }

  class MapStore {
    const place: Place
    const files: PlaceFiles<File>

    ghost predicate Valid()
      reads this, files
    {
      files.Valid() && Sound(place) && Uncompressed(place) && Coherent(place, files.files)
    }

    constructor (place: Place)
      requires Sound(place) && Uncompressed(place)
      ensures Valid() && fresh(files) && files.files == map[] && this.place == place
    {
      this.place := place;
      files := new PlaceFiles();
      new;
      EmptyCoherent(place);
    }

    // --- Publishing ---

    /** All that can be built of a canonical source, or nothing where the place refuses the whole of it. */
    method Compile(key: string, f: File) returns (ok: bool, codes: Contents)
      ensures ok <==> Compiles(place, key, f)
      ensures ok ==> codes == Built(place, key, f)
    {
      FlavorKeysApart(key);
      codes := map[];
      var rest := place.flavors(key);
      while rest != {}
        invariant rest <= place.flavors(key)
        invariant forall fl :: fl in place.flavors(key) - rest ==>
          && (fl == Script ==> place.build(fl, key, f).Some?)
          && (place.build(fl, key, f).Some? ==>
               CompanionKey(key, fl) in codes && codes[CompanionKey(key, fl)] == File(place.build(fl, key, f).value, f.mtime, None))
        invariant forall k :: k in codes ==> exists fl :: fl in place.flavors(key) - rest && place.build(fl, key, f).Some? && k == CompanionKey(key, fl)
        decreases rest
      {
        var fl :| fl in rest;
        rest := rest - {fl};
        match place.build(fl, key, f)
        case Some(data) => codes := codes[CompanionKey(key, fl) := File(data, f.mtime, None)];
        case None =>
          if fl == Script {
            return false, map[];
          }
      }
      ok := true;
      assert codes == Built(place, key, f);
    }

    /** All derived entries of `f` replace those of `key`, or, if one cannot be built, no entry changes. */
    method Publish(key: string, f: File) returns (ok: bool)
      requires files.Valid() && Canonical(key)
      modifies files
      ensures files.Valid() && (ok <==> Compiles(place, key, f))
      ensures files.files == if ok then Published(place, old(files.files), key, f) else old(files.files)
    {
      CanonicalIsSource(key);
      ghost var before := files.files;
      var codes;
      ok, codes := Compile(key, f);
      if !ok {
        return;
      }
      files.Set(key, f);
      DeleteCompanions(key);
      SetAll(codes, key);
    }

    method DeleteCompanions(key: string)
      requires files.Valid()
      modifies files
      ensures files.Valid() && files.files == old(files.files) - CompanionKeys(place, key)
    {
      var rest := place.kinds;
      while rest != {}
        invariant rest <= place.kinds && files.Valid()
        invariant files.files == old(files.files) - set fl | fl in place.kinds - rest :: CompanionKey(key, fl)
        decreases rest
      {
        var fl :| fl in rest;
        rest := rest - {fl};
        var gone := files.Delete(CompanionKey(key, fl));
      }
    }

    method SetAll(codes: Contents, ghost key: string)
      requires files.Valid() && !IsCompanionKey(key) && forall k :: k in codes ==> exists fl :: k == CompanionKey(key, fl)
      modifies files
      ensures files.Valid() && files.files == old(files.files) + codes
    {
      var rest := codes.Keys;
      while rest != {}
        invariant rest <= codes.Keys && files.Valid()
        invariant files.files == old(files.files) + (codes - rest)
        decreases rest
      {
        var k :| k in rest;
        AddedOne(old(files.files), codes, rest, k);
        rest := rest - {k};
        ghost var fl :| k == CompanionKey(key, fl);
        CompanionOf(key, fl);
        files.Set(k, codes[k]);
      }
    }

    /** The files become `Unpublished`, or stay if `key` is no source. */
    method Remove(key: string) returns (found: bool)
      requires files.Valid()
      modifies files
      ensures files.Valid() && (found <==> key in old(files.files))
      ensures files.files == if found then Unpublished(place, old(files.files), key) else old(files.files)
    {
      found := files.Delete(key);
      if found {
        DeleteCompanions(key);
      }
    }

    /** `Publish` of what the preparer makes of `raw`, or its refusal. */
    method PublishRaw(key: string, raw: seq<byte>, mtime: int) returns (error: Option<Refusal>)
      requires files.Valid() && Canonical(key)
      modifies files
      ensures files.Valid() && Did(error, old(files.files), files.files, MapPublish(place, old(files.files), key, raw, mtime))
    {
      match Input(place, key, raw, mtime)
      case None => return Some(Fs(ENOTSUP));
      case Some(f) =>
        var ok := Publish(key, f);
        return if ok then None else Some(Fs(ENOTSUP));
    }

    // --- Mutations ---

    method Write(key: string, data: seq<byte>, exclusive: bool, now: int) returns (error: Option<Refusal>)
      requires Valid() && Canonical(key)
      modifies files
      ensures Valid() && Did(error, old(files.files), files.files, MapRun(place, old(files.files), Mutation.Write(key, data, exclusive), now))
      ensures Answers(place, old(files.files), Mutation.Write(key, data, exclusive), now, error, files.files)
    {
      hide Performs, Because, Coherent, Sound, Canonical, Namespace.CheckHierarchy, MapPublish;
      KeepsCoherent(Mutation.Write(key, data, exclusive), now);
      if exclusive {
        var directory := files.IsDirectory(key);
        if key in files.files || directory {
          CanonicalIsSource(key);
          return Some(Fs(EEXIST));
        }
      }
      var code := Checks.CheckHierarchy(files, key, {});
      if code.Some? {
        return Some(Fs(code.value));
      }
      error := PublishRaw(key, data, now);
    }

    method Append(key: string, data: seq<byte>, now: int) returns (error: Option<Refusal>)
      requires Valid() && Canonical(key)
      modifies files
      ensures Valid() && Did(error, old(files.files), files.files, MapRun(place, old(files.files), Mutation.Append(key, data), now))
      ensures Answers(place, old(files.files), Mutation.Append(key, data), now, error, files.files)
    {
      hide Performs, Because, Coherent, Sound, Canonical, Namespace.CheckHierarchy, MapPublish;
      KeepsCoherent(Mutation.Append(key, data), now);
      if place.prepared(key) {
        return Some(Fs(ENOTSUP));
      }
      var code := Checks.CheckHierarchy(files, key, {});
      if code.Some? {
        return Some(Fs(code.value));
      }
      error := PublishRaw(key, if key in files.files then files.files[key].data + data else data, now);
    }

    method Unlink(key: string, directory: bool) returns (error: Option<Refusal>)
      requires Valid() && Canonical(key)
      modifies files
      ensures Valid() && Did(error, old(files.files), files.files, MapRun(place, old(files.files), Mutation.Unlink(key, directory), 0))
      ensures Answers(place, old(files.files), Mutation.Unlink(key, directory), 0, error, files.files)
    {
      hide Performs, Because, Coherent, Sound, Canonical;
      CanonicalIsSource(key);
      KeepsCoherent(Mutation.Unlink(key, directory), 0);
      if !directory {
        var found := Remove(key);
        if found {
          return None;
        }
      }
      var at := files.IsDirectory(key);
      return Some(Fs(if at then EISDIR else if key in files.files then ENOTDIR else ENOENT));
    }

    /** Directories are implicit: nothing is created, but the hierarchy is checked all the same. */
    method Mkdir(key: string, recursive: bool) returns (error: Option<Refusal>)
      requires Valid() && Canonical(key)
      ensures Did(error, files.files, files.files, MapRun(place, files.files, Mutation.Mkdir(key, recursive), 0))
      ensures Answers(place, files.files, Mutation.Mkdir(key, recursive), 0, error, files.files)
    {
      hide Performs, Because, Coherent, Sound, Canonical;
      KeepsCoherent(Mutation.Mkdir(key, recursive), 0);
      CanonicalIsSource(key);
      if key in files.files {
        return Some(Fs(EEXIST));
      }
      var above := Checks.FileAbove(files, key, {});
      if above {
        return Some(Fs(ENOTDIR));
      }
      var directory := files.IsDirectory(key);
      if !recursive && directory {
        return Some(Fs(EEXIST));
      }
      return None;
    }

    method Rm(key: string, directory: bool, recursive: bool, force: bool) returns (error: Option<Refusal>)
      requires Valid() && Canonical(key)
      modifies files
      ensures Valid() && Did(error, old(files.files), files.files, MapRun(place, old(files.files), Mutation.Rm(key, directory, recursive, force), 0))
      ensures Answers(place, old(files.files), Mutation.Rm(key, directory, recursive, force), 0, error, files.files)
    {
      hide Performs, Because, Coherent, Sound, Canonical, WithCompanions, SetOf;
      CanonicalIsSource(key);
      KeepsCoherent(Mutation.Rm(key, directory, recursive, force), 0);
      if !directory {
        var found := Remove(key);
        if found {
          return None;
        }
      }
      var children := files.KeysUnder(key);
      ListsChildren(files.files, key, children);
      hide SourcesUnder, Sources;
      if children == [] {
        return if force then None else Some(Fs(if key in files.files then ENOTDIR else ENOENT));
      }
      if !recursive {
        return Some(Fs(NotRecursive));
      }
      RemoveEach(children);
      return None;
    }

    method RemoveEach(keys: seq<string>)
      requires files.Valid() && forall k :: k in keys ==> k in files.files && !IsCompanionKey(k)
      requires forall i, j :: 0 <= i < j < |keys| ==> keys[i] != keys[j]
      modifies files
      ensures files.Valid() && files.files == old(files.files) - WithCompanions(place, SetOf(keys))
    {
      for i := 0 to |keys|
        invariant files.Valid() && files.files == old(files.files) - WithCompanions(place, SetOf(keys[..i]))
      {
        RemovedMore(place, old(files.files), keys, i);
        var found := Remove(keys[i]);
      }
      assert keys[..|keys|] == keys;
    }

    // --- Renames ---

    /** The files become `MovedContents`, or stay with the code of the refusal. */
    method MoveTree(from: string, to: string) returns (error: Option<Refusal>)
      requires Valid() && Canonical(from) && Canonical(to)
      modifies files
      ensures files.Valid()
      ensures match CheckSubtree(place, old(files.files), {}, from, to)
        case Some(code) => error == Some(Fs(code)) && files.files == old(files.files)
        case None => error.None? && files.files == MovedContents(old(files.files), from, to)
    {
      hide Coherent, Sound, Canonical, CheckMove, AllMovable, Rekey, Moving, MovedContents;
      var code, moves := Checks.SubtreeMoves(place, files, from, to, {});
      if code.Some? {
        return Some(Fs(code.value));
      }
      ghost var before := files.files;
      PlanTargets(place, before, from, to, moves);
      var entries: Contents := map[];
      for i := 0 to |moves|
        modifies {}
        invariant forall n :: n in entries <==> exists j :: 0 <= j < i && moves[j].1 == n
        invariant forall j :: 0 <= j < i ==> moves[j].1 in entries && entries[moves[j].1] == before[moves[j].0]
      {
        entries := entries[moves[i].1 := files.files[moves[i].0]];
      }
      for i := 0 to |moves|
        invariant files.Valid()
        invariant files.files == before - Olds(moves[..i])
      {
        OldsMore(moves, i);
        var gone := files.Delete(moves[i].0);
      }
      assert moves[..|moves|] == moves;
      SetMoved(entries);
      PlanDone(place, before, from, to, moves, entries);
      error := None;
    }

    method SetMoved(entries: Contents)
      requires files.Valid() && forall k :: k in entries ==> IsCompanionKey(k) || Rooted(k)
      modifies files
      ensures files.Valid() && files.files == old(files.files) + entries
    {
      var rest := entries.Keys;
      while rest != {}
        invariant rest <= entries.Keys && files.Valid()
        invariant files.files == old(files.files) + (entries - rest)
        decreases rest
      {
        var k :| k in rest;
        AddedOne(old(files.files), entries, rest, k);
        rest := rest - {k};
        files.Set(k, entries[k]);
      }
    }

    /** `MapRun` for a rename of either kind; the flag is the caller's. */
    method Rename(from: string, to: string, directory: bool) returns (error: Option<Refusal>)
      requires Valid() && Canonical(from) && Canonical(to)
      modifies files
      ensures Valid() && Did(error, old(files.files), files.files, MapRun(place, old(files.files), Mutation.Rename(from, to, directory), 0))
      ensures Answers(place, old(files.files), Mutation.Rename(from, to, directory), 0, error, files.files)
    {
      hide Performs, Because, Coherent, Sound, Canonical, Namespace.CheckHierarchy, MapPublish, CheckSubtree, MovedContents, Published;
      CanonicalIsSource(from);
      KeepsCoherent(Mutation.Rename(from, to, directory), 0);
      var found := from in files.files;
      var isDirectory := files.IsDirectory(from);
      if !found && isDirectory {
        error := MoveTree(from, to);
        return;
      }
      if found && directory {
        return Some(Fs(ENOTDIR));
      }
      if place.prepared(from) {
        return Some(Fs(ENOTSUP));
      }
      if !found {
        return Some(Fs(ENOENT));
      }
      if from == to {
        return None;
      }
      var code := Checks.CheckHierarchy(files, to, {});
      if code.Some? {
        return Some(Fs(code.value));
      }
      var current := files.files[from];
      StillThere(place, files.files, from, to, current.data, current.mtime);
      error := PublishRaw(to, current.data, current.mtime);
      if error.None? {
        var gone := Remove(from);
      }
    }

    /** Whatever an accepted mutation does keeps sources and companions together. */
    lemma KeepsCoherent(m: Mutation, now: int)
      requires Valid() && CanonicalMutation(m)
      ensures MapRun(place, files.files, m, now).Accepted? ==> Coherent(place, MapRun(place, files.files, m, now).value)
      ensures Right(place, files.files, m, now, MapRun(place, files.files, m, now))
    {
      hide MapRun, Right, Coherent, Sound;
      MapAnswers(place, files.files, m, now);
      if MapRun(place, files.files, m, now).Accepted? {
        MapRunKeepsCoherent(place, files.files, m, now);
      }
    }
  }

  lemma StillThere(place: Place, files: Contents, from: string, to: string, raw: seq<byte>, mtime: int)
    requires from in files && from != to && !IsCompanionKey(from)
    ensures MapPublish(place, files, to, raw, mtime).Accepted? ==> from in MapPublish(place, files, to, raw, mtime).value
  {
    forall fl ensures CompanionKey(to, fl) != from {
      assert CompanionKey(to, fl)[|to|] == SEP;
    }
  }

  lemma AddedOne(files: Contents, codes: Contents, rest: set<string>, k: string)
    requires k in rest && rest <= codes.Keys
    ensures files + (codes - (rest - {k})) == (files + (codes - rest))[k := codes[k]]
  {
  }

  /** Removing one more key of a list. */
  lemma RemovedMore(place: Place, files: Contents, keys: seq<string>, i: nat)
    requires i < |keys| && (forall k :: k in keys ==> k in files && !IsCompanionKey(k))
    requires forall i, j :: 0 <= i < j < |keys| ==> keys[i] != keys[j]
    ensures var now := files - WithCompanions(place, SetOf(keys[..i]));
      && keys[i] in now
      && Unpublished(place, now, keys[i]) == files - WithCompanions(place, SetOf(keys[..i + 1]))
  {
    var before, after := SetOf(keys[..i]), SetOf(keys[..i + 1]);
    assert keys[..i + 1] == keys[..i] + [keys[i]];
    assert after == before + {keys[i]};
    assert keys[i] !in before;
    OthersStay(place, before);
    assert WithCompanions(place, after) == WithCompanions(place, before) + {keys[i]} + CompanionKeys(place, keys[i]);
  }
}
