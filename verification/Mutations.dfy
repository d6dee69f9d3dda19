/** Sequential mutations on two stores, one written in place and one by epochs, and why they agree. */
module Mutations {
  import opened Layout
  import opened Paths
  import opened Companion
  import opened Namespace
  import opened Publication
  import opened Subtree

  datatype Mutation =
    | Write(key: string, data: seq<byte>, exclusive: bool)
    | Append(key: string, data: seq<byte>)
    | Unlink(key: string, directory: bool)
    | Mkdir(key: string, recursive: bool)
    | Rm(key: string, directory: bool, recursive: bool, force: bool)
    | Rename(from: string, to: string, directory: bool)

  predicate CanonicalMutation(m: Mutation) {
    if m.Rename? then Canonical(m.from) && Canonical(m.to) else Canonical(m.key)
  }

  /** Errors of both stores; a script the shared store cannot compile has no code of its own. */
  datatype Refusal = Fs(code: Code) | Uncompiled

  datatype Result<T> = Accepted(value: T) | Refused(why: Refusal)

  // --- MapStore ---

  ghost function MapPublish(place: Place, files: Contents, key: string, raw: seq<byte>, mtime: int): Result<Contents> {
    match Input(place, key, raw, mtime)
    case None => Refused(Fs(ENOTSUP))
    case Some(f) => if Compiles(place, key, f) then Accepted(Published(place, files, key, f)) else Refused(Fs(ENOTSUP))
  }

  ghost function MapRun(place: Place, files: Contents, m: Mutation, now: int): Result<Contents> {
    var sources := Sources(files);
    match m
    case Write(key, data, exclusive) =>
      if exclusive && CheckExclusive(sources, key).Some? then Refused(Fs(EEXIST))
      else (match CheckHierarchy(sources, {}, key)
        case Some(code) => Refused(Fs(code))
        case None => MapPublish(place, files, key, data, now))
    case Append(key, data) =>
      if place.prepared(key) then Refused(Fs(ENOTSUP))
      else (match CheckHierarchy(sources, {}, key)
        case Some(code) => Refused(Fs(code))
        case None => MapPublish(place, files, key, if key in files then files[key].data + data else data, now))
    case Unlink(key, directory) =>
      if !directory && key in files then Accepted(Unpublished(place, files, key))
      else Refused(Fs(if IsDirectory(sources, key) then EISDIR else AbsentCode(sources, key)))
    case Mkdir(key, recursive) =>
      (match CheckMkdir(sources, {}, key, recursive)
        case Some(code) => Refused(Fs(code))
        case None => Accepted(files))
    case Rm(key, directory, recursive, force) =>
      if !directory && key in files then Accepted(Unpublished(place, files, key))
      else if SourcesUnder(sources, key) == {} then (if force then Accepted(files) else Refused(Fs(AbsentCode(sources, key))))
      else if !recursive then Refused(Fs(NotRecursive))
      else Accepted(files - WithCompanions(place, SourcesUnder(sources, key)))
    case Rename(from, to, directory) =>
      if from !in files && IsDirectory(sources, from) then
        (match CheckSubtree(place, files, {}, from, to)
          case Some(code) => Refused(Fs(code))
          case None => Accepted(MovedContents(files, from, to)))
      else if from in files && directory then Refused(Fs(ENOTDIR))
      else if place.prepared(from) then Refused(Fs(ENOTSUP))
      else if from !in files then Refused(Fs(ENOENT))
      else if from == to then Accepted(files)
      else (match CheckHierarchy(sources, {}, to)
        case Some(code) => Refused(Fs(code))
        case None => match MapPublish(place, files, to, files[from].data, files[from].mtime)
          case Refused(why) => Refused(why)
          case Accepted(after) => Accepted(Unpublished(place, after, from)))
  }

  // --- SabStore: the same checks with the keys in flight, and one epoch instead of changes in place ---

  ghost function SabPublish(place: Place, key: string, raw: seq<byte>, mtime: int): Result<Changes> {
    match Input(place, key, raw, mtime)
    case None => Refused(Fs(ENOTSUP))
    case Some(f) => if Compiles(place, key, f) then Accepted(PublishChanges(place, key, f)) else Refused(Uncompiled)
  }

  /** `locked`: the rename locked its two keys when it arrived, as a file does. */
  ghost function SabRun(place: Place, files: Contents, creating: set<string>, m: Mutation, locked: bool, now: int): Result<Changes> {
    var sources := Sources(files);
    match m
    case Write(key, data, exclusive) =>
      if exclusive && CheckExclusive(sources, key).Some? then Refused(Fs(EEXIST))
      else (match CheckHierarchy(sources, creating, key)
        case Some(code) => Refused(Fs(code))
        case None => SabPublish(place, key, data, now))
    case Append(key, data) =>
      if place.prepared(key) then Refused(Fs(ENOTSUP))
      else (match CheckHierarchy(sources, creating, key)
        case Some(code) => Refused(Fs(code))
        case None => SabPublish(place, key, if key in files then files[key].data + data else data, now))
    case Unlink(key, directory) =>
      if !directory && key in files then Accepted(UnstageAll(place, {key}))
      else Refused(Fs(if IsDirectory(sources, key) then EISDIR else AbsentCode(sources, key)))
    case Mkdir(key, recursive) =>
      (match CheckMkdir(sources, creating, key, recursive)
        case Some(code) => Refused(Fs(code))
        case None => Accepted(map[]))
    case Rm(key, directory, recursive, force) =>
      if !directory && key in files then Accepted(UnstageAll(place, {key}))
      else if SourcesUnder(sources, key) == {} then (if force then Accepted(map[]) else Refused(Fs(AbsentCode(sources, key))))
      else if !recursive then Refused(Fs(NotRecursive))
      else Accepted(UnstageAll(place, SourcesUnder(sources, key)))
    case Rename(from, to, directory) =>
      if from !in files && !locked && IsDirectory(sources, from) then
        (match CheckSubtree(place, files, creating, from, to)
          case Some(code) => Refused(Fs(code))
          case None => Accepted(TreeChanges(files, from, to)))
      else if from in files && directory then Refused(Fs(ENOTDIR))
      else if place.prepared(from) then Refused(Fs(ENOTSUP))
      else if from !in files then Refused(Fs(ENOENT))
      else (match CheckHierarchy(sources, creating, to)
        case Some(code) => Refused(Fs(code))
        case None => match SabPublish(place, to, files[from].data, files[from].mtime)
          case Refused(why) => Refused(why)
          case Accepted(ch) => Accepted(UnstageChanges(place, from) + ch))
  }

  /** Run one after the other, a rename locks its keys exactly when it names a file. */
  ghost predicate LocksAlone(files: Contents, m: Mutation, locked: bool) {
    m.Rename? ==> (locked <==> !m.directory && m.from in files)
  }

  // --- Every mutation keeps a place coherent ---

  lemma MapPublishKeeps(place: Place, files: Contents, key: string, raw: seq<byte>, mtime: int)
    requires Sound(place) && Coherent(place, files) && Canonical(key) && CheckHierarchy(Sources(files), {}, key).None?
    requires MapPublish(place, files, key, raw, mtime).Accepted?
    ensures Coherent(place, MapPublish(place, files, key, raw, mtime).value)
    ensures Sources(MapPublish(place, files, key, raw, mtime).value) == Sources(files) + {key}
  {
    hide Coherent, Sound, Canonical, CheckHierarchy, Published, Input, Compiles;
    PublishKeepsCoherent(place, files, key, raw, mtime, Input(place, key, raw, mtime).value);
  }

  lemma UnpublishKeeps(place: Place, files: Contents, key: string)
    requires Sound(place) && Coherent(place, files) && !IsCompanionKey(key)
    ensures Coherent(place, Unpublished(place, files, key)) && Sources(Unpublished(place, files, key)) == Sources(files) - {key}
    ensures Applied(files, UnstageAll(place, {key})) == Unpublished(place, files, key)
  {
    hide Coherent, Sound;
    UnpublishKeepsCoherent(place, files, {key});
    UnstageOne(place, key);
    UnpublishedIsApplied(place, files, key);
  }

  lemma RemoveAll(place: Place, files: Contents, gone: set<string>)
    ensures Applied(files, UnstageAll(place, gone)) == files - WithCompanions(place, gone)
  {
  }

  lemma MapRunKeepsCoherent(place: Place, files: Contents, m: Mutation, now: int)
    requires Sound(place) && Coherent(place, files) && CanonicalMutation(m) && MapRun(place, files, m, now).Accepted?
    ensures Coherent(place, MapRun(place, files, m, now).value)
  {
    hide Coherent, Sound, Canonical, CheckHierarchy, CheckExclusive, CheckMkdir, CheckSubtree, IsDirectory, SourcesUnder, MapPublish, Unpublished, MovedContents, WithCompanions;
    match m
    case Write(key, data, _) => MapPublishKeeps(place, files, key, data, now);
    case Append(key, data) => MapPublishKeeps(place, files, key, if key in files then files[key].data + data else data, now);
    case Unlink(key, _) => CanonicalIsSource(key); UnpublishKeeps(place, files, key);
    case Mkdir(_, _) =>
    case Rm(key, directory, _, _) =>
      CanonicalIsSource(key);
      if !directory && key in files {
        UnpublishKeeps(place, files, key);
      } else {
        ChildrenAreSources(files, key);
        UnpublishKeepsCoherent(place, files, SourcesUnder(Sources(files), key));
        RemoveAll(place, files, SourcesUnder(Sources(files), key));
      }
    case Rename(from, to, _) => RenameKeepsCoherent(place, files, m, now);
  }

  lemma ChildrenAreSources(files: Contents, key: string)
    ensures forall k :: k in SourcesUnder(Sources(files), key) ==> k in files && !IsCompanionKey(k)
  {
  }

  lemma RenameKeepsCoherent(place: Place, files: Contents, m: Mutation, now: int)
    requires m.Rename? && Sound(place) && Coherent(place, files) && CanonicalMutation(m) && MapRun(place, files, m, now).Accepted?
    ensures Coherent(place, MapRun(place, files, m, now).value)
  {
    var from, to := m.from, m.to;
    CanonicalIsSource(from);
    if from !in files {
      assert CheckSubtree(place, files, {}, from, to).None?;
      hide Sound, Coherent, Canonical, CheckMove, AllMovable, MovedContents, IsDirectory;
      assert Subtree.MayMove(place, files, from, to);
      MoveKeepsCoherent(place, files, from, to);
    } else if from != to {
      hide Sound, Coherent, Canonical, CheckHierarchy, MapPublish, Unpublished, IsDirectory;
      MapPublishKeeps(place, files, to, files[from].data, files[from].mtime);
      UnpublishKeeps(place, MapPublish(place, files, to, files[from].data, files[from].mtime).value, from);
    }
  }

  // --- The shared store refines the Map store ---

  /** Same verdict, same error but for a script that does not compile, same content afterwards. */
  ghost predicate Agree(files: Contents, map': Result<Contents>, sab: Result<Changes>) {
    match map'
    case Refused(why) => sab.Refused? && (sab.why == why || (why == Fs(ENOTSUP) && sab.why == Uncompiled))
    case Accepted(after) => sab.Accepted? && Applied(files, sab.value) == after
  }

  lemma PublishAgrees(place: Place, files: Contents, key: string, raw: seq<byte>, mtime: int)
    requires Sound(place) && Coherent(place, files) && !IsCompanionKey(key)
    ensures Agree(files, MapPublish(place, files, key, raw, mtime), SabPublish(place, key, raw, mtime))
  {
    hide Published, PublishChanges, Applied, NoOrphans, Input, Compiles, Sound, Coherent;
    Known(place, files, key);
    if Input(place, key, raw, mtime).Some? {
      PublishedIsApplied(place, files, key, Input(place, key, raw, mtime).value);
    }
  }

  lemma Known(place: Place, files: Contents, key: string)
    requires Sound(place) && Coherent(place, files)
    ensures NoOrphans(place, files) && place.flavors(key) <= place.kinds
  {
  }

  lemma NothingApplied(files: Contents)
    ensures Applied(files, map[]) == files
  {
  }

  lemma SabRefinesMap(place: Place, files: Contents, m: Mutation, locked: bool, now: int)
    requires Sound(place) && Coherent(place, files) && CanonicalMutation(m) && LocksAlone(files, m, locked)
    ensures Agree(files, MapRun(place, files, m, now), SabRun(place, files, {}, m, locked, now))
  {
    hide Coherent, Sound, Canonical, CheckHierarchy, CheckExclusive, CheckMkdir, CheckSubtree, IsDirectory, SourcesUnder, MapPublish, SabPublish,
      Unpublished, MovedContents, TreeChanges, WithCompanions, UnstageAll, Applied;
    NothingApplied(files);
    match m
    case Write(key, data, _) => CanonicalIsSource(key); PublishAgrees(place, files, key, data, now);
    case Append(key, data) => CanonicalIsSource(key); PublishAgrees(place, files, key, if key in files then files[key].data + data else data, now);
    case Unlink(key, _) => CanonicalIsSource(key); UnpublishKeeps(place, files, key);
    case Mkdir(_, _) =>
    case Rm(key, _, _, _) =>
      CanonicalIsSource(key);
      UnpublishKeeps(place, files, key);
      RemoveAll(place, files, SourcesUnder(Sources(files), key));
    case Rename(_, _, _) => RenameAgrees(place, files, m, locked, now);
  }

  lemma RenameAgrees(place: Place, files: Contents, m: Mutation, locked: bool, now: int)
    requires m.Rename? && Sound(place) && Coherent(place, files) && CanonicalMutation(m) && LocksAlone(files, m, locked)
    ensures Agree(files, MapRun(place, files, m, now), SabRun(place, files, {}, m, locked, now))
  {
    var from, to := m.from, m.to;
    CanonicalIsSource(from);
    CanonicalIsSource(to);
    if from !in files && IsDirectory(Sources(files), from) {
      if CheckSubtree(place, files, {}, from, to).None? {
        hide Sound, Coherent, Canonical, CheckMove, AllMovable, MovedContents, TreeChanges, Applied, IsDirectory;
        assert Subtree.MayMove(place, files, from, to);
        TreeIsApplied(place, files, from, to);
      }
    } else if from in files && !m.directory && !place.prepared(from) {
      if from == to {
        SelfRename(place, files, from);
      } else if CheckHierarchy(Sources(files), {}, to).None? {
        MoveFileAgrees(place, files, from, to);
      }
    }
  }

  /** The Map store returns early when a file is renamed to itself; the shared store publishes it again, which changes nothing. */
  lemma SelfRename(place: Place, files: Contents, key: string)
    requires Sound(place) && Coherent(place, files) && Canonical(key) && key in files && !place.prepared(key)
    ensures CheckHierarchy(Sources(files), {}, key).None?
    ensures var sab := SabPublish(place, key, files[key].data, files[key].mtime);
      sab.Accepted? && Applied(files, UnstageChanges(place, key) + sab.value) == files
  {
    CanonicalIsSource(key);
    assert key in Sources(files) && Antichain(Sources(files));
    assert CompanionsOf(place, files, key);
    assert Input(place, key, files[key].data, files[key].mtime) == Some(files[key]);
    hide CompanionsOf, Canonical, NoOrphans, Published, PublishChanges, UnstageChanges, Applied, Sound;
    RenamedIsApplied(place, files, key, key, files[key]);
    RepublishedSame(place, files, key);
  }

  lemma MoveFileAgrees(place: Place, files: Contents, from: string, to: string)
    requires Sound(place) && Coherent(place, files) && !IsCompanionKey(from) && !IsCompanionKey(to) && from != to && from in files
    ensures var (map', sab) := (MapPublish(place, files, to, files[from].data, files[from].mtime), SabPublish(place, to, files[from].data, files[from].mtime));
      && (map'.Accepted? <==> sab.Accepted?)
      && (map'.Refused? ==> Agree(files, map', sab))
      && (map'.Accepted? ==> Applied(files, UnstageChanges(place, from) + sab.value) == Unpublished(place, map'.value, from))
  {
    hide Published, PublishChanges, UnstageChanges, Unpublished, Applied, Compiles, Coherent, Sound, IsCompanionKey;
    match Input(place, to, files[from].data, files[from].mtime)
    case None =>
    case Some(f) => RenamedIsApplied(place, files, from, to, f);
  }

  // --- Whole runs ---

  /** Contents after each mutation of a sequential run on a Map place, starting empty. */
  ghost function MapHistory(place: Place, ms: seq<(Mutation, int)>): Contents {
    if ms == [] then map[] else
    var before := MapHistory(place, ms[..|ms| - 1]);
    match MapRun(place, before, ms[|ms| - 1].0, ms[|ms| - 1].1)
    case Refused(_) => before
    case Accepted(after) => after
  }

  ghost function SabHistory(place: Place, ms: seq<(Mutation, int)>): Contents {
    if ms == [] then map[] else
    var before, m := SabHistory(place, ms[..|ms| - 1]), ms[|ms| - 1];
    match SabRun(place, before, {}, m.0, m.0.Rename? && !m.0.directory && m.0.from in before, m.1)
    case Refused(_) => before
    case Accepted(ch) => Applied(before, ch)
  }

  /** Every sequential run leaves both stores with the same keys and the same content. */
  lemma {:induction false} HistoriesAgree(place: Place, ms: seq<(Mutation, int)>)
    requires Sound(place) && forall m :: m in ms ==> CanonicalMutation(m.0)
    ensures SabHistory(place, ms) == MapHistory(place, ms) && Coherent(place, MapHistory(place, ms))
  {
    hide Coherent, Sound, MapRun, SabRun, Applied, CanonicalMutation;
    if ms == [] {
      EmptyCoherent(place);
    } else {
      HistoriesAgree(place, ms[..|ms| - 1]);
      var before, m := MapHistory(place, ms[..|ms| - 1]), ms[|ms| - 1];
      assert m in ms;
      var locked := m.0.Rename? && !m.0.directory && m.0.from in before;
      SabRefinesMap(place, before, m.0, locked, m.1);
      if MapRun(place, before, m.0, m.1).Accepted? {
        MapRunKeepsCoherent(place, before, m.0, m.1);
      }
    }
  }

  lemma EmptyCoherent(place: Place)
    ensures Coherent(place, map[])
  {
  }
}
