/** What a mutation does to the sources of a place, and what a refusal says, without the functions that decide it. */
module Effects {
  import opened Layout
  import opened Paths
  import opened Companion
  import opened Namespace
  import opened Publication
  import opened Subtree
  import opened Mutations

  /** `f` is what the preparer of `key` makes of the bytes, or the bytes themselves where there is none. */
  ghost predicate MadeOf(place: Place, key: string, raw: seq<byte>, mtime: int, f: File) {
    && f.mtime == mtime
    && if place.prepared(key) then place.prepare(key, raw) == Some((f.data, f.extras)) else f.data == raw && f.extras.None?
  }

  /** The bytes can be prepared, and compiled if they have to be. */
  ghost predicate Storable(place: Place, key: string, raw: seq<byte>, mtime: int) {
    exists f :: MadeOf(place, key, raw, mtime, f) && (Script in place.flavors(key) ==> place.build(Script, key, f).Some?)
  }

  ghost predicate IsFile(files: Contents, key: string) {
    key in files && !IsCompanionKey(key)
  }

  ghost predicate FileBelow(files: Contents, key: string) {
    exists s :: IsFile(files, s) && Under(s, key)
  }

  /** A file, or a key in flight, which counts as one, lies above. */
  ghost predicate FileOver(files: Contents, creating: set<string>, key: string) {
    exists s :: (IsFile(files, s) || s in creating) && s != "" && Under(key, s)
  }

  ghost predicate FlightBelow(creating: set<string>, key: string) {
    exists s :: s in creating && Under(s, key)
  }

  /** Files other than those in `keys` are as they were. */
  ghost predicate SameBut(before: Contents, after: Contents, keys: set<string>) {
    forall s :: !IsCompanionKey(s) && s !in keys ==> (s in after <==> s in before) && (s in before ==> after[s] == before[s])
  }

  ghost predicate Stored(place: Place, before: Contents, after: Contents, key: string, raw: seq<byte>, mtime: int, gone: set<string>) {
    && key in after && MadeOf(place, key, raw, mtime, after[key])
    && SameBut(before, after, {key} + gone) && forall s :: s in gone && s != key ==> s !in after
  }

  ghost predicate RemovedUnder(before: Contents, after: Contents, key: string) {
    forall s :: !IsCompanionKey(s) ==> (s in after <==> s in before && !Under(s, key)) && (s in after ==> after[s] == before[s])
  }

  /** File `s` is where the move of `from` to `to` puts it: below `to` if it was below `from`. */
  ghost predicate MovedAt(before: Contents, after: Contents, from: string, to: string, s: string)
    requires s in before
  {
    var n := if Under(s, from) then to + s[|from|..] else s; n in after && after[n] == before[s]
  }

  ghost predicate CameFrom(before: Contents, from: string, to: string, n: string) {
    (IsFile(before, n) && !Under(n, from)) || exists s :: IsFile(before, s) && Under(s, from) && n == to + s[|from|..]
  }

  /** Each file below `from` is at the same place below `to`, and there is nothing else but the others. */
  ghost predicate MovedTree(before: Contents, after: Contents, from: string, to: string) {
    && (forall s :: IsFile(before, s) ==> MovedAt(before, after, from, to, s))
    && (forall n :: IsFile(after, n) ==> CameFrom(before, from, to, n))
  }

  /** Nothing of the file was made for the path it has. */
  ghost predicate MovesAsIs(place: Place, files: Contents, key: string) {
    key in files && !place.prepared(key) && Require !in place.flavors(key) && Script !in place.flavors(key) && files[key].extras.None?
  }

  /** What an accepted mutation found, and what it left. */
  ghost predicate Performs(place: Place, before: Contents, m: Mutation, now: int, after: Contents) {
    match m
    case Write(key, data, exclusive) =>
      (exclusive ==> key !in before && !FileBelow(before, key)) && Stored(place, before, after, key, data, now, {})
    case Append(key, data) =>
      !place.prepared(key) && Stored(place, before, after, key, if key in before then before[key].data + data else data, now, {})
    case Unlink(key, directory) =>
      !directory && key in before && key !in after && SameBut(before, after, {key})
    case Mkdir(key, recursive) =>
      after == before && key !in before && !FileOver(before, {}, key) && (recursive || !FileBelow(before, key))
    case Rm(key, directory, recursive, force) =>
      if !directory && key in before then key !in after && SameBut(before, after, {key})
      else RemovedUnder(before, after, key) && if FileBelow(before, key) then recursive else force
    case Rename(from, to, directory) =>
      if from in before then
        && !directory && !place.prepared(from)
        && if from == to then after == before else Stored(place, before, after, to, before[from].data, before[from].mtime, {from})
      else
        && FileBelow(before, from) && MovedTree(before, after, from, to)
        && (from == to || (!Under(to, from) && to !in before && !FileBelow(before, to)
            && forall s :: IsFile(before, s) && Under(s, from) ==> MovesAsIs(place, before, s)))
  }

  /**
   * The error a refused mutation ends with is true of what it found, keys in flight included. A rename
   * that locked its two keys when it arrived looks for a file only.
   */
  ghost predicate Because(place: Place, before: Contents, creating: set<string>, m: Mutation, locked: bool, now: int, why: Refusal) {
    match why
    case Uncompiled => Unstorable(place, before, m, now)
    case Fs(code) =>
      var at := if m.Rename? then m.to else m.key;
      match code
      case ENOENT =>
        (m.Unlink? || (m.Rm? && !m.force) || m.Rename?)
        && var key := if m.Rename? then m.from else m.key; key !in before && (locked || !FileBelow(before, key))
      case ENOTDIR =>
        || (!m.Unlink? && !m.Rm? && FileOver(before, creating, at))
        || (m.Rename? && m.from !in before && m.to in before)
        || (((m.Unlink? || m.Rm?) && m.directory && m.key in before) || (m.Rename? && m.directory && m.from in before))
      case EISDIR => !m.Mkdir? && !m.Rm? && (FileBelow(before, at) || (!m.Unlink? && FlightBelow(creating, at)))
      case ENOTEMPTY => m.Rename? && m.from !in before && FileBelow(before, m.to)
      case EEXIST =>
        || (m.Write? && m.exclusive && (m.key in before || FileBelow(before, m.key)))
        || (m.Mkdir? && (m.key in before || m.key in creating || (!m.recursive && FileBelow(before, m.key))))
      case ENOTSUP =>
        || Unstorable(place, before, m, now)
        || (m.Append? && place.prepared(m.key)) || (m.Rename? && place.prepared(m.from))
        || (m.Rename? && m.from !in before && exists s :: IsFile(before, s) && Under(s, m.from) && !MovesAsIs(place, before, s))
      case EINVAL => m.Rename? && Under(m.to, m.from)
      case NotRecursive => m.Rm? && !m.recursive && FileBelow(before, m.key)
  }

  /** What the mutation is to store cannot be prepared or compiled. */
  ghost predicate Unstorable(place: Place, before: Contents, m: Mutation, now: int) {
    match m
    case Write(key, data, _) => !Storable(place, key, data, now)
    case Append(key, data) => !Storable(place, key, if key in before then before[key].data + data else data, now)
    case Rename(from, to, _) => from in before && !Storable(place, to, before[from].data, before[from].mtime)
    case _ => false
  }

  /** An accepted mutation did what it says, a refused one nothing, for a reason that is true. */
  ghost predicate Answers(place: Place, before: Contents, m: Mutation, now: int, error: Option<Refusal>, after: Contents) {
    match error
    case None => Performs(place, before, m, now, after)
    case Some(why) => after == before && Because(place, before, {}, m, false, now, why)
  }

  // --- What the checks look at ---

  lemma Looked(files: Contents, creating: set<string>, key: string)
    requires Canonical(key)
    ensures IsDirectory(Sources(files), key) <==> FileBelow(files, key)
    ensures SourcesUnder(Sources(files), key) == {} <==> !FileBelow(files, key)
    ensures Namespace.FileAbove(Sources(files), creating, key) <==> FileOver(files, creating, key)
    ensures key in Sources(files) <==> key in files
    ensures forall s :: s in SourcesUnder(Sources(files), key) <==> IsFile(files, s) && Under(s, key)
  {
    CanonicalIsDir(key);
    CanonicalIsSource(key);
    hide Under, Canonical;
    if FileBelow(files, key) {
      var s :| IsFile(files, s) && Under(s, key);
      assert s in SourcesUnder(Sources(files), key);
    }
    if FileOver(files, creating, key) {
      var s :| (IsFile(files, s) || s in creating) && s != "" && Under(key, s);
      assert s in Sources(files) + creating;
    }
  }

  /** The verdict on the names of a key to be created. */
  lemma Checked(files: Contents, creating: set<string>, key: string)
    requires Canonical(key)
    ensures var code := Namespace.CheckHierarchy(Sources(files), creating, key);
      match code
      case None => true
      case Some(ENOTDIR) => FileOver(files, creating, key)
      case Some(EISDIR) => FileBelow(files, key) || FlightBelow(creating, key)
      case _ => false
  {
    Looked(files, creating, key);
    hide Under, Canonical, IsDirectory, Namespace.FileAbove, FileOver, FileBelow;
  }

  lemma Prepared(place: Place, key: string, raw: seq<byte>, mtime: int)
    ensures var f := Input(place, key, raw, mtime);
      && (f.Some? ==> MadeOf(place, key, raw, mtime, f.value))
      && (f.Some? && Compiles(place, key, f.value) <==> Storable(place, key, raw, mtime))
  {
    var f := Input(place, key, raw, mtime);
    forall g | MadeOf(place, key, raw, mtime, g) ensures f == Some(g) {
    }
  }

  // --- Publications and removals ---

  lemma PublishStores(place: Place, files: Contents, key: string, raw: seq<byte>, mtime: int)
    requires Publication.Sound(place) && Canonical(key)
    ensures var r := MapPublish(place, files, key, raw, mtime);
      && (r.Accepted? <==> Storable(place, key, raw, mtime))
      && (r.Accepted? ==> Stored(place, files, r.value, key, raw, mtime, {}))
      && (r.Refused? ==> r.why == Fs(ENOTSUP))
  {
    Prepared(place, key, raw, mtime);
    CanonicalIsSource(key);
    var f := Input(place, key, raw, mtime);
    if f.Some? {
      PublishedSources(place, files, key, f.value);
      var after := Published(place, files, key, f.value);
      PublishedAt(place, files, key, f.value, key);
      hide Published, Compiles, Input, Storable, MadeOf, Canonical;
      forall s | !IsCompanionKey(s) && s != key ensures (s in after <==> s in files) && (s in files ==> after[s] == files[s]) {
        assert s in Sources(after) <==> s in Sources(files) + {key};
      }
    }
  }

  lemma UnpublishRemoves(place: Place, files: Contents, key: string)
    requires !IsCompanionKey(key)
    ensures key !in Unpublished(place, files, key) && SameBut(files, Unpublished(place, files, key), {key})
  {
    forall s | !IsCompanionKey(s) ensures s !in CompanionKeys(place, key) {
      NoCompanionHere(place, key, s);
    }
  }

  lemma NoCompanionHere(place: Place, key: string, s: string)
    requires !IsCompanionKey(key) && !IsCompanionKey(s)
    ensures s !in CompanionKeys(place, key)
  {
    forall fl ensures CompanionKey(key, fl) != s {
      CompanionOf(key, fl);
    }
  }

  lemma UnstageRemoves(place: Place, files: Contents, keys: set<string>, s: string)
    requires (forall k :: k in keys ==> !IsCompanionKey(k)) && !IsCompanionKey(s)
    ensures s in WithCompanions(place, keys) <==> s in keys
  {
    forall k, fl | k in keys ensures CompanionKey(k, fl) != s {
      CompanionOf(k, fl);
    }
  }

  // --- What each mutation does ---

  /** A result that is an answer of the mutation. */
  ghost predicate Right(place: Place, files: Contents, m: Mutation, now: int, r: Result<Contents>) {
    match r
    case Accepted(after) => Performs(place, files, m, now, after)
    case Refused(why) => Because(place, files, {}, m, false, now, why)
  }

  lemma WriteRight(place: Place, files: Contents, m: Mutation, now: int)
    requires m.Write? && Publication.Sound(place) && Canonical(m.key)
    ensures Right(place, files, m, now, MapRun(place, files, m, now))
  {    hide Publication.Sound, Canonical, Namespace.CheckHierarchy, IsDirectory, FileBelow, FileOver, FlightBelow, MapPublish, Storable, Stored, Sources;

    Looked(files, {}, m.key);
    Checked(files, {}, m.key);
    PublishStores(place, files, m.key, m.data, now);
  }

  lemma AppendRight(place: Place, files: Contents, m: Mutation, now: int)
    requires m.Append? && Publication.Sound(place) && Canonical(m.key)
    ensures Right(place, files, m, now, MapRun(place, files, m, now))
  {    hide Publication.Sound, Canonical, Namespace.CheckHierarchy, IsDirectory, FileBelow, FileOver, FlightBelow, MapPublish, Storable, Stored, Sources;

    Checked(files, {}, m.key);
    PublishStores(place, files, m.key, if m.key in files then files[m.key].data + m.data else m.data, now);
  }

  lemma UnlinkRight(place: Place, files: Contents, m: Mutation, now: int)
    requires m.Unlink? && Canonical(m.key)
    ensures Right(place, files, m, now, MapRun(place, files, m, now))
  {    hide Canonical, IsDirectory, FileBelow, SameBut, Unpublished, Sources;

    Looked(files, {}, m.key);
    CanonicalIsSource(m.key);
    UnpublishRemoves(place, files, m.key);
  }

  lemma MkdirRight(place: Place, files: Contents, m: Mutation, now: int)
    requires m.Mkdir? && Canonical(m.key)
    ensures Right(place, files, m, now, MapRun(place, files, m, now))
  {    hide Canonical, IsDirectory, Namespace.FileAbove, FileBelow, FileOver, Sources;

    Looked(files, {}, m.key);
  }

  lemma RmRight(place: Place, files: Contents, m: Mutation, now: int)
    requires m.Rm? && Canonical(m.key)
    ensures Right(place, files, m, now, MapRun(place, files, m, now))
  {    hide Canonical, FileBelow, SameBut, RemovedUnder, Unpublished, WithCompanions, SourcesUnder, Sources, Under;

    Looked(files, {}, m.key);
    CanonicalIsSource(m.key);
    UnpublishRemoves(place, files, m.key);
    RmUnder(place, files, m.key);
  }

  lemma RmUnder(place: Place, files: Contents, key: string)
    requires Canonical(key)
    ensures RemovedUnder(files, files - WithCompanions(place, SourcesUnder(Sources(files), key)), key)
    ensures !FileBelow(files, key) ==> RemovedUnder(files, files, key)
  {
    Looked(files, {}, key);
    var gone := SourcesUnder(Sources(files), key);
    forall s | !IsCompanionKey(s) ensures s in WithCompanions(place, gone) <==> s in gone {
      UnstageRemoves(place, files, gone, s);
    }
    hide WithCompanions, SourcesUnder, Canonical, Under;
  }

  lemma RenameRight(place: Place, files: Contents, m: Mutation, now: int)
    requires m.Rename? && Publication.Sound(place) && Coherent(place, files) && CanonicalMutation(m)
    ensures Right(place, files, m, now, MapRun(place, files, m, now))
  {
    Looked(files, {}, m.from);
    if m.from in files {
      RenameFileRight(place, files, m, now);
    } else if FileBelow(files, m.from) {
      RenameTreeRight(place, files, m, now);
    } else {
      hide Publication.Sound, Coherent, Canonical, FileBelow, Sources;
    }
  }

  lemma RenameFileRight(place: Place, files: Contents, m: Mutation, now: int)
    requires m.Rename? && Publication.Sound(place) && CanonicalMutation(m) && m.from in files
    ensures Right(place, files, m, now, MapRun(place, files, m, now))
  {    hide Publication.Sound, Canonical, Namespace.CheckHierarchy, IsDirectory, FileBelow, FileOver, FlightBelow, MapPublish, Storable, Stored, Sources, Unpublished, SameBut;

    var from, to := m.from, m.to;
    Checked(files, {}, to);
    CanonicalIsSource(from);
    CanonicalIsSource(to);
    PublishStores(place, files, to, files[from].data, files[from].mtime);
    var r := MapPublish(place, files, to, files[from].data, files[from].mtime);
    if r.Accepted? && from != to {
      UnpublishRemoves(place, r.value, from);
      StoredThenGone(place, files, r.value, Unpublished(place, r.value, from), to, files[from].data, files[from].mtime, from);
    }
  }

  lemma StoredThenGone(place: Place, before: Contents, mid: Contents, after: Contents, key: string, raw: seq<byte>, mtime: int, from: string)
    requires Stored(place, before, mid, key, raw, mtime, {}) && from !in after && SameBut(mid, after, {from}) && from != key && !IsCompanionKey(key)
    ensures Stored(place, before, after, key, raw, mtime, {from})
  {
    hide MadeOf;
  }

  /** What the check of a subtree found. */
  lemma SubtreeChecked(place: Place, files: Contents, creating: set<string>, from: string, to: string)
    requires Canonical(from) && Canonical(to) && FileBelow(files, from)
    ensures var why := CheckSubtree(place, files, creating, from, to);
      match why
      case None =>
        from == to || (!Under(to, from) && to !in files && !FileBelow(files, to)
          && forall s :: IsFile(files, s) && Under(s, from) ==> MovesAsIs(place, files, s))
      case Some(EINVAL) => Under(to, from)
      case Some(ENOTDIR) => to in files || FileOver(files, creating, to)
      case Some(ENOTEMPTY) => FileBelow(files, to)
      case Some(EISDIR) => FileBelow(files, to) || FlightBelow(creating, to)
      case Some(ENOTSUP) => exists s :: IsFile(files, s) && Under(s, from) && !MovesAsIs(place, files, s)
      case _ => false
  {
    Looked(files, creating, from);
    Looked(files, creating, to);
    Checked(files, creating, to);
    MovableIs(place, files, from);
    hide Canonical, Namespace.CheckHierarchy, FlightBelow, AllMovable, FileBelow, FileOver, MovesAsIs, SourcesUnder, Sources, Under, IsFile;
  }

  lemma RenameTreeRight(place: Place, files: Contents, m: Mutation, now: int)
    requires m.Rename? && Publication.Sound(place) && Coherent(place, files) && CanonicalMutation(m) && m.from !in files && FileBelow(files, m.from)
    ensures Right(place, files, m, now, MapRun(place, files, m, now))
  {
    hide Publication.Sound, Coherent, Canonical, CheckMove, AllMovable, FileBelow, FileOver, MovesAsIs, MovedContents, MovedTree, SourcesUnder, Sources, Under, IsDirectory, IsFile;
    var from, to := m.from, m.to;
    Looked(files, {}, from);
    SubtreeChecked(place, files, {}, from, to);
    if CheckSubtree(place, files, {}, from, to).None? {
      TreeMoved(place, files, from, to);
    }
  }

  lemma MovableIs(place: Place, files: Contents, from: string)
    requires Canonical(from)
    ensures AllMovable(place, files, from) <==> forall s :: IsFile(files, s) && Under(s, from) ==> MovesAsIs(place, files, s)
  {
    Looked(files, {}, from);
    hide SourcesUnder, Under, Canonical;
  }

  lemma TreeMoved(place: Place, files: Contents, from: string, to: string)
    requires MayMove(place, files, from, to)
    ensures MovedTree(files, MovedContents(files, from, to), from, to)
  {
    hide MovedContents, Rekey, Under, IsCompanionKey, MovedAt, CameFrom, Canonical, Coherent, CheckMove;
    SubtreeRenameIsBijection(place, files, from, to);
    CanonicalIsSource(to);
    var after := MovedContents(files, from, to);
    forall s | IsFile(files, s) ensures MovedAt(files, after, from, to, s) {
      FileMoves(files, after, from, to, s);
    }
    forall n | IsFile(after, n) ensures CameFrom(files, from, to, n) {
      var k :| k in files && Rekey(from, to, k) == n;
      FileCame(files, from, to, k);
    }
  }

  lemma FileMoves(files: Contents, after: Contents, from: string, to: string, s: string)
    requires IsFile(files, s) && Rekey(from, to, s) in after && after[Rekey(from, to, s)] == files[s]
    ensures MovedAt(files, after, from, to, s)
  {
    SourceOfSource(s);
  }

  lemma FileCame(files: Contents, from: string, to: string, k: string)
    requires k in files && !IsCompanionKey(to) && !IsCompanionKey(Rekey(from, to, k))
    ensures CameFrom(files, from, to, Rekey(from, to, k))
  {
    RekeyKeepsSource(from, to, k);
    SourceOfSource(k);
  }

  /** Every mutation of the sequential store is answered as it should be. */
  lemma MapAnswers(place: Place, files: Contents, m: Mutation, now: int)
    requires Publication.Sound(place) && Coherent(place, files) && CanonicalMutation(m)
    ensures Right(place, files, m, now, MapRun(place, files, m, now))
  {
    hide Publication.Sound, Coherent, Canonical, MapRun, Right;
    match m
    case Write(_, _, _) => WriteRight(place, files, m, now);
    case Append(_, _) => AppendRight(place, files, m, now);
    case Unlink(_, _) => UnlinkRight(place, files, m, now);
    case Mkdir(_, _) => MkdirRight(place, files, m, now);
    case Rm(_, _, _, _) => RmRight(place, files, m, now);
    case Rename(_, _, _) => RenameRight(place, files, m, now);
  }
}
