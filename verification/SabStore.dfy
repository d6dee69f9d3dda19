/** Mutations in two halves, the check at the turn and the epoch at the end, with others in between. */
module SabStores {
  import opened Layout
  import opened Paths
  import opened Companion
  import opened Namespace
  import opened Publication
  import opened Subtree
  import opened Mutations
  import opened Effects
  import opened PlaceIndex
  import opened Checks
  import H = Hierarchy

  /** What a mutation does once its checks are made; a publication and a subtree move take their time. */
  datatype Turn =
    | Refuse(why: Refusal)
    | Nothing
    | Unpublish(keys: set<string>)
    | Create(key: string, gone: Option<string>, raw: seq<byte>, mtime: int)
    | Move(from: string, to: string)

  /** The synchronous part of a mutation, in its turn. */
  ghost function TurnOf(place: Place, files: Contents, creating: set<string>, m: Mutation, locked: bool, now: int): Turn {
    var sources := Sources(files);
    match m
    case Write(key, data, exclusive) =>
      if exclusive && CheckExclusive(sources, key).Some? then Refuse(Fs(EEXIST))
      else Creation(sources, creating, Create(key, None, data, now))
    case Append(key, data) =>
      if place.prepared(key) then Refuse(Fs(ENOTSUP))
      else Creation(sources, creating, Create(key, None, if key in files then files[key].data + data else data, now))
    case Unlink(key, directory) =>
      if !directory && key in files then Unpublish({key})
      else Refuse(Fs(if IsDirectory(sources, key) then EISDIR else AbsentCode(sources, key)))
    case Mkdir(key, recursive) =>
      (match CheckMkdir(sources, creating, key, recursive)
        case Some(code) => Refuse(Fs(code))
        case None => Nothing)
    case Rm(key, directory, recursive, force) =>
      if !directory && key in files then Unpublish({key})
      else if SourcesUnder(sources, key) == {} then (if force then Nothing else Refuse(Fs(AbsentCode(sources, key))))
      else if !recursive then Refuse(Fs(NotRecursive))
      else Unpublish(SourcesUnder(sources, key))
    case Rename(from, to, directory) =>
      if from !in files && !locked && IsDirectory(sources, from) then
        (match CheckSubtree(place, files, creating, from, to)
          case Some(code) => Refuse(Fs(code))
          case None => Move(from, to))
      else if from in files && directory then Refuse(Fs(ENOTDIR))
      else if place.prepared(from) then Refuse(Fs(ENOTSUP))
      else if from !in files then Refuse(Fs(ENOENT))
      else Creation(sources, creating, Create(to, Some(from), files[from].data, files[from].mtime))
  }

  ghost function Creation(sources: set<string>, creating: set<string>, t: Turn): Turn
    requires t.Create?
  {
    match Namespace.CheckHierarchy(sources, creating, t.key)
    case Some(code) => Refuse(Fs(code))
    case None => t
  }

  /** The epoch a turn leads to, or the error it ends with. */
  ghost function Outcome(place: Place, files: Contents, t: Turn): Result<Changes> {
    match t
    case Refuse(why) => Refused(why)
    case Nothing => Accepted(map[])
    case Unpublish(keys) => Accepted(UnstageAll(place, keys))
    case Move(from, to) => Accepted(TreeChanges(files, from, to))
    case Create(key, gone, raw, mtime) =>
      match SabPublish(place, key, raw, mtime)
      case Refused(why) => Refused(why)
      case Accepted(ch) => Accepted((if gone.Some? then UnstageChanges(place, gone.value) else map[]) + ch)
  }

  lemma TurnRuns(place: Place, files: Contents, creating: set<string>, m: Mutation, locked: bool, now: int)
    ensures Outcome(place, files, TurnOf(place, files, creating, m, locked, now)) == SabRun(place, files, creating, m, locked, now)
  {
    hide Namespace.CheckHierarchy, CheckExclusive, CheckMkdir, CheckSubtree, IsDirectory, SourcesUnder, UnstageAll, UnstageChanges, TreeChanges, PublishChanges, Input, Compiles;
    forall ch: Changes ensures map[] + ch == ch {
    }
  }

  // --- What a turn finds, and what it leads to ---

  /** What the turn of `m` found among the files and the keys in flight, and what it is to do. */
  ghost predicate Turned(place: Place, files: Contents, creating: set<string>, m: Mutation, locked: bool, now: int, t: Turn) {
    match t
    case Refuse(why) => Because(place, files, creating, m, locked, now, why)
    case Nothing =>
      || (m.Mkdir? && m.key !in files && m.key !in creating && !FileOver(files, creating, m.key) && (m.recursive || !FileBelow(files, m.key)))
      || (m.Rm? && m.force && !FileBelow(files, m.key) && (m.directory || m.key !in files))
    case Unpublish(keys) =>
      || ((m.Unlink? || m.Rm?) && !m.directory && m.key in files && keys == {m.key})
      || (m.Rm? && m.recursive && (m.directory || m.key !in files) && FileBelow(files, m.key)
          && forall s :: s in keys <==> IsFile(files, s) && Under(s, m.key))
    case Create(key, gone, raw, mtime) =>
      && !FileOver(files, creating, key) && (key in files || (!FileBelow(files, key) && !FlightBelow(creating, key)))
      && Asked(place, files, m, now, t)
    case Move(from, to) =>
      && m.Rename? && !locked && from == m.from && to == m.to && from !in files && FileBelow(files, from)
      && (from == to || (!Under(to, from) && to !in files && !FileBelow(files, to)
          && forall s :: IsFile(files, s) && Under(s, from) ==> MovesAsIs(place, files, s)))
  }

  /** What is to be published, and which file goes when it is. */
  ghost predicate Asked(place: Place, files: Contents, m: Mutation, now: int, t: Turn)
    requires t.Create?
  {
    match m
    case Write(key, data, exclusive) =>
      t == Create(key, None, data, now) && (exclusive ==> key !in files && !FileBelow(files, key))
    case Append(key, data) =>
      !place.prepared(key) && t == Create(key, None, if key in files then files[key].data + data else data, now)
    case Rename(from, to, directory) =>
      from in files && !directory && !place.prepared(from) && t == Create(to, Some(from), files[from].data, files[from].mtime)
    case _ => false
  }

  lemma CreationChecked(files: Contents, creating: set<string>, t: Turn)
    requires t.Create? && Canonical(t.key)
    ensures var r := Creation(Sources(files), creating, t);
      && (r == t || r.Refuse?)
      && (r == t ==> !FileOver(files, creating, t.key) && (t.key in files || (!FileBelow(files, t.key) && !FlightBelow(creating, t.key))))
      && (r.Refuse? ==>
           || (r.why == Fs(ENOTDIR) && FileOver(files, creating, t.key))
           || (r.why == Fs(EISDIR) && (FileBelow(files, t.key) || FlightBelow(creating, t.key))))
  {
    Looked(files, creating, t.key);
    Checked(files, creating, t.key);
    hide Canonical, IsDirectory, Namespace.FileAbove, FileOver, FileBelow, Under;
  }

  lemma TurnIsRight(place: Place, files: Contents, creating: set<string>, m: Mutation, locked: bool, now: int)
    requires CanonicalMutation(m)
    ensures Turned(place, files, creating, m, locked, now, TurnOf(place, files, creating, m, locked, now))
  {
    hide Canonical, Namespace.CheckHierarchy, Creation, IsDirectory, SourcesUnder, CheckSubtree, FileOver, FileBelow, FlightBelow, Namespace.FileAbove, Sources, Under, IsFile, MovesAsIs, Storable;
    match m
    case Write(key, data, _) =>
      Looked(files, creating, key);
      CreationChecked(files, creating, Create(key, None, data, now));
    case Append(key, data) =>
      CreationChecked(files, creating, Create(key, None, if key in files then files[key].data + data else data, now));
    case Rename(from, to, _) =>
      Looked(files, creating, from);
      if from in files {
        CreationChecked(files, creating, Create(to, Some(from), files[from].data, files[from].mtime));
      } else if FileBelow(files, from) {
        SubtreeChecked(place, files, creating, from, to);
      }
    case _ => Looked(files, creating, m.key);
  }

  /** The epoch of a publication stores what was asked for, and takes away what goes with it. */
  lemma CreateStores(place: Place, files: Contents, t: Turn)
    requires t.Create? && Canonical(t.key) && (t.gone.Some? ==> Canonical(t.gone.value))
    ensures Outcome(place, files, t).Accepted? <==> Storable(place, t.key, t.raw, t.mtime)
    ensures Outcome(place, files, t).Accepted? ==>
      Stored(place, files, Applied(files, Outcome(place, files, t).value), t.key, t.raw, t.mtime, if t.gone.Some? then {t.gone.value} else {})
  {
    hide Canonical, Storable, MadeOf, Input, Compiles, Applied, Outcome, IsCompanionKey;
    Prepared(place, t.key, t.raw, t.mtime);
    CanonicalIsSource(t.key);
    CreateOutcome(place, files, t);
    if Outcome(place, files, t).Accepted? {
      var after := Applied(files, Outcome(place, files, t).value);
      forall k | !IsCompanionKey(k)
        ensures k in after <==> k == t.key || (k in files && t.gone != Some(k))
        ensures k in after ==> after[k] == if k == t.key then Input(place, t.key, t.raw, t.mtime).value else files[k]
      {
        CreateCommitsAt(place, files, t, k);
      }
      if t.gone.Some? {
        CanonicalIsSource(t.gone.value);
      }
    }
  }

  lemma CreateOutcome(place: Place, files: Contents, t: Turn)
    requires t.Create?
    ensures var f := Input(place, t.key, t.raw, t.mtime);
      Outcome(place, files, t).Accepted? <==> f.Some? && Compiles(place, t.key, f.value)
  {
    hide Input, Compiles, PublishChanges, UnstageChanges;
  }

  // --- A turn is a step of the overlap model ---

  /** The names a mutation is about. */
  function NamesOf(m: Mutation): H.Op {
    match m
    case Write(key, _, _) => H.Write(key)
    case Append(key, _) => H.Write(key)
    case Unlink(key, directory) => H.Unlink(key, directory)
    case Mkdir(key, _) => H.Mkdir(key)
    case Rm(key, directory, recursive, _) => H.Rm(key, directory, recursive)
    case Rename(from, to, directory) => H.Rename(from, to, directory)
  }

  /** What a turn counts as in flight. */
  ghost function FlightOf(t: Turn): H.Flight {
    match t
    case Create(key, gone, _, _) => H.Creating(key, if gone.Some? then {gone.value} else {})
    case Move(from, to) => H.Moving(from, to)
    case _ => H.Finished
  }

  /** The sources once what happens at once has happened. */
  ghost function SourcesAfter(sources: set<string>, t: Turn): set<string> {
    if t.Unpublish? then sources - t.keys else sources
  }

  /** The turn of a mutation does to the names just what a step of the overlap model does. */
  lemma TurnIsStep(place: Place, files: Contents, m: Mutation, locked: bool, now: int, s: H.State, i: nat)
    requires CanonicalMutation(m) && s.sources == Sources(files) && i < |s.queue.tasks| && (m.Rename? ==> (s.queue.tasks[i].exclusive <==> !locked))
    ensures var t := TurnOf(place, files, s.creating, m, locked, now);
      H.Begun(s, i, NamesOf(m), t.Refuse?) == H.Fly(s.(sources := SourcesAfter(s.sources, t)), i, FlightOf(t))
  {
    hide Namespace.CheckHierarchy, CheckExclusive, CheckMkdir, IsDirectory, SourcesUnder, CheckMove, AllMovable, Canonical, H.Fly;
    SourceNames(files, m);
    if m.Rm? {
      assert s.sources - {} == s.sources;
    }
    assert s.(sources := s.sources) == s;
  }

  /** A canonical key is stored exactly when it is a source. */
  lemma SourceNames(files: Contents, m: Mutation)
    requires CanonicalMutation(m)
    ensures if m.Rename? then m.from in files <==> m.from in Sources(files) else m.key in files <==> m.key in Sources(files)
  {
    CanonicalIsSource(if m.Rename? then m.from else m.key);
  }

  /** A key of an epoch that is no companion is the source it is about. */
  lemma EpochSources(place: Place, key: string, f: File, gone: string, k: string)
    requires Canonical(key) && Canonical(gone) && !IsCompanionKey(k)
    ensures k in PublishChanges(place, key, f) <==> k == key
    ensures k == key ==> PublishChanges(place, key, f)[k] == Some(f)
    ensures k in UnstageChanges(place, gone) <==> k == gone
  {
    CanonicalIsSource(key);
    CanonicalIsSource(gone);
    ChangesAt(place, key, f, k);
    OwnCompanionsOnly(place, gone);
    forall fl ensures IsCompanionKey(CompanionKey(key, fl)) {
      CompanionOf(key, fl);
    }
    hide PublishChanges, CompanionKey, IsCompanionKey;
  }

  lemma CreateCommitsAt(place: Place, files: Contents, t: Turn, k: string)
    requires t.Create? && Canonical(t.key) && (t.gone.Some? ==> Canonical(t.gone.value)) && Outcome(place, files, t).Accepted?
    requires !IsCompanionKey(k)
    ensures var after := Applied(files, Outcome(place, files, t).value);
      && (k in after <==> k == t.key || (k in files && t.gone != Some(k)))
      && (k in after ==> after[k] == if k == t.key then Input(place, t.key, t.raw, t.mtime).value else files[k])
  {
    EpochSources(place, t.key, Input(place, t.key, t.raw, t.mtime).value, if t.gone.Some? then t.gone.value else t.key, k);
    hide PublishChanges, UnstageChanges, Canonical, IsCompanionKey, Input, Compiles;
  }

  /** The end of a publication does to the names just what the commit of the overlap model does. */
  lemma CreateCommits(place: Place, files: Contents, t: Turn)
    requires t.Create? && Canonical(t.key) && (t.gone.Some? ==> Canonical(t.gone.value)) && Outcome(place, files, t).Accepted?
    ensures Sources(Applied(files, Outcome(place, files, t).value)) == Sources(files) - (if t.gone.Some? then {t.gone.value} else {}) + {t.key}
  {
    hide Applied, Outcome, Canonical;
    CanonicalIsSource(t.key);
    hide IsCompanionKey;
    forall k | !IsCompanionKey(k) ensures k in Applied(files, Outcome(place, files, t).value) <==> k == t.key || (k in files && t.gone != Some(k)) {
      CreateCommitsAt(place, files, t, k);
    }
  }

  // --- The store ---

  class SabStore {
    const place: Place
    const files: PlaceFiles<File>     // what the main thread projects
    var creating: set<string>         // sources being published: checked, not yet committed or failed

    ghost predicate Valid()
      reads this, files
    {
      files.Valid() && Sound(place) && Coherent(place, files.files)
    }

    constructor (place: Place)
      requires Sound(place)
      ensures Valid() && fresh(files) && files.files == map[] && creating == {} && this.place == place
    {
      this.place := place;
      files := new PlaceFiles();
      creating := {};
      new;
      EmptyCoherent(place);
    }

    /** The keys a rename locks: both when a file moves, none when it may name a subtree. */
    method LocksOf(m: Mutation) returns (keys: Option<set<string>>)
      requires CanonicalMutation(m)
      ensures keys == H.KeysOf(Sources(files.files), NamesOf(m))
    {
      SourceNames(files.files, m);
      match m
      case Rm(_, _, _, _) => keys := None;
      case Rename(from, to, directory) => keys := if !directory && from in files.files then Some({from, to}) else None;
      case _ => keys := Some({m.key});
    }

    /** Count a publication from its check on. */
    method BeginCreate(t: Turn) returns (r: Turn)
      requires files.Valid() && t.Create? && Canonical(t.key)
      modifies this`creating
      ensures r == Creation(Sources(files.files), old(creating), t)
      ensures creating == if r.Create? then old(creating) + {t.key} else old(creating)
    {
      var code := Checks.CheckHierarchy(files, t.key, creating);
      match code
      case Some(why) => r := Refuse(Fs(why));
      case None =>
        creating := creating + {t.key};
        r := t;
    }

    /** A mutation in its turn, up to its first wait. */
    method Begin(m: Mutation, locked: bool, now: int) returns (t: Turn)
      requires Valid() && CanonicalMutation(m)
      modifies this`creating
      ensures t == TurnOf(place, files.files, old(creating), m, locked, now)
      ensures Turned(place, files.files, old(creating), m, locked, now, t)
      ensures creating == if t.Create? then old(creating) + {t.key} else old(creating)
    {
      hide Turned, Coherent, Sound, Canonical, Namespace.CheckHierarchy, CheckSubtree;
      SourceNames(files.files, m);
      TurnIsRight(place, files.files, creating, m, locked, now);
      match m
      case Write(key, data, exclusive) =>
        if exclusive {
          var directory := files.IsDirectory(key);
          if key in files.files || directory {
            return Refuse(Fs(EEXIST));
          }
        }
        t := BeginCreate(Create(key, None, data, now));
      case Append(key, data) =>
        if place.prepared(key) {
          return Refuse(Fs(ENOTSUP));
        }
        t := BeginCreate(Create(key, None, if key in files.files then files.files[key].data + data else data, now));
      case Unlink(key, directory) =>
        if !directory && key in files.files {
          return Unpublish({key});
        }
        var isDirectory := files.IsDirectory(key);
        t := Refuse(Fs(if isDirectory then EISDIR else if key in files.files then ENOTDIR else ENOENT));
      case Mkdir(key, recursive) =>
        t := BeginMkdir(key, recursive);
      case Rm(key, directory, recursive, force) =>
        t := BeginRm(key, directory, recursive, force);
      case Rename(from, to, directory) =>
        t := BeginRename(from, to, directory, locked);
    }

    method BeginMkdir(key: string, recursive: bool) returns (t: Turn)
      requires files.Valid() && Canonical(key)
      ensures t == TurnOf(place, files.files, creating, Mkdir(key, recursive), false, 0) && !t.Create?
    {
      hide Canonical;
      SourceNames(files.files, Mkdir(key, recursive));
      CanonicalIsSource(key);
      if key in files.files || key in creating {
        return Refuse(Fs(EEXIST));
      }
      var above := Checks.FileAbove(files, key, creating);
      if above {
        return Refuse(Fs(ENOTDIR));
      }
      var directory := files.IsDirectory(key);
      return if !recursive && directory then Refuse(Fs(EEXIST)) else Nothing;
    }

    method BeginRm(key: string, directory: bool, recursive: bool, force: bool) returns (t: Turn)
      requires files.Valid() && Canonical(key)
      ensures t == TurnOf(place, files.files, creating, Rm(key, directory, recursive, force), false, 0) && !t.Create?
    {
      hide Canonical;
      SourceNames(files.files, Rm(key, directory, recursive, force));
      if !directory && key in files.files {
        return Unpublish({key});
      }
      var children := files.KeysUnder(key);
      ListsChildren(files.files, key, children);
      hide SourcesUnder, Sources;
      if children == [] {
        return if force then Nothing else Refuse(Fs(if key in files.files then ENOTDIR else ENOENT));
      }
      if !recursive {
        return Refuse(Fs(NotRecursive));
      }
      return Unpublish(SetOf(children));
    }

    method BeginRename(from: string, to: string, directory: bool, locked: bool) returns (t: Turn)
      requires Valid() && Canonical(from) && Canonical(to)
      modifies this`creating
      ensures t == TurnOf(place, files.files, old(creating), Rename(from, to, directory), locked, 0)
      ensures creating == if t.Create? then old(creating) + {t.key} else old(creating)
    {
      hide Coherent, Sound, Canonical, Namespace.CheckHierarchy, CheckSubtree, Planned;
      SourceNames(files.files, Rename(from, to, directory));
      var found := from in files.files;
      var isDirectory := files.IsDirectory(from);
      if !found && !locked && isDirectory {
        var code, moves := Checks.SubtreeMoves(place, files, from, to, creating);
        return if code.Some? then Refuse(Fs(code.value)) else Move(from, to);
      }
      if found && directory {
        return Refuse(Fs(ENOTDIR));
      }
      if place.prepared(from) {
        return Refuse(Fs(ENOTSUP));
      }
      if !found {
        return Refuse(Fs(ENOENT));
      }
      t := BeginCreate(Create(to, Some(from), files.files[from].data, files.files[from].mtime));
    }

    // --- The end of a turn ---

    /** The update of an epoch reaches this thread: new entries are set, removed keys are deleted. */
    method ApplyUpdate(entries: Contents, removals: set<string>)
      requires files.Valid() && forall k :: k in entries ==> IsCompanionKey(k) || Rooted(k)
      modifies files
      ensures files.Valid() && files.files == old(files.files) + entries - removals
    {
      var rest := entries.Keys;
      while rest != {}
        invariant rest <= entries.Keys && files.Valid()
        invariant files.files == old(files.files) + (entries - rest)
        decreases rest
      {
        var k :| k in rest;
        OneMoreSet(old(files.files), entries, rest, k);
        rest := rest - {k};
        files.Set(k, entries[k]);
      }
      assert entries - rest == entries;
      var gone := removals;
      while gone != {}
        invariant gone <= removals && files.Valid()
        invariant files.files == old(files.files) + entries - (removals - gone)
        decreases gone
      {
        var k :| k in gone;
        OneMoreGone(old(files.files) + entries, removals, gone, k);
        gone := gone - {k};
        var found := files.Delete(k);
      }
      assert removals - gone == removals;
    }

    /** Commit an epoch. */
    method Flush(ch: Changes)
      requires files.Valid() && forall k :: k in ch ==> IsCompanionKey(k) || Rooted(k)
      modifies files
      ensures files.Valid() && files.files == Applied(old(files.files), ch)
    {
      AppliedParts(files.files, ch);
      ApplyUpdate(Comings(ch), Goings(ch));
    }

    /** The publication ends: it is committed or has failed, and its key is no longer counted. */
    method EndCreate(t: Turn) returns (error: Option<Refusal>)
      requires files.Valid() && t.Create? && Canonical(t.key) && (t.gone.Some? ==> Canonical(t.gone.value))
      modifies this`creating, files
      ensures files.Valid() && creating == old(creating) - {t.key}
      ensures match Outcome(place, old(files.files), t)
        case Refused(why) => error == Some(why) && files.files == old(files.files)
        case Accepted(ch) => error.None? && files.files == Applied(old(files.files), ch)
      ensures error.None? <==> Storable(place, t.key, t.raw, t.mtime)
      ensures error.None? ==>
        Stored(place, old(files.files), files.files, t.key, t.raw, t.mtime, if t.gone.Some? then {t.gone.value} else {})
    {
      hide Storable, Stored, Canonical, PublishChanges, UnstageChanges, Applied;
      CreateStores(place, files.files, t);
      creating := creating - {t.key};
      match Input(place, t.key, t.raw, t.mtime)
      case None => error := Some(Fs(ENOTSUP));
      case Some(f) =>
        if !Compiles(place, t.key, f) {
          return Some(Uncompiled);
        }
        error := None;
        var gone := if t.gone.Some? then UnstageChanges(place, t.gone.value) else map[];
        EpochKeys(place, t, f);
        Flush(gone + PublishChanges(place, t.key, f));
    }

    /** The epoch of a removal: the files lose the given sources and what is derived from them. */
    method EndUnpublish(keys: set<string>)
      requires files.Valid() && forall k :: k in keys ==> Rooted(k) && !IsCompanionKey(k)
      modifies files
      ensures files.Valid() && files.files == Applied(old(files.files), UnstageAll(place, keys))
      ensures SameBut(old(files.files), files.files, keys) && forall key :: key in keys ==> key !in files.files
    {
      UnstagedKeys(place, keys);
      KeysGone(place, files.files, keys);
      hide UnstageAll, Applied, SameBut;
      Flush(UnstageAll(place, keys));
    }

    /** Move the files of a subtree in one epoch. */
    method EndMove(from: string, to: string)
      requires Valid() && Canonical(from) && Canonical(to) && CheckSubtree(place, files.files, {}, from, to).None?
      modifies files
      ensures files.Valid() && files.files == MovedContents(old(files.files), from, to)
      ensures MovedTree(old(files.files), files.files, from, to)
    {
      hide MovedTree, Coherent, Sound, Canonical, CheckMove, AllMovable, Rekey, Moving, MovedContents;
      var code, moves := Checks.SubtreeMoves(place, files, from, to, {});
      ghost var before := files.files;
      PlanTargets(place, before, from, to, moves);
      var entries: Contents, olds: set<string> := map[], {};
      for i := 0 to |moves|
        modifies {}
        invariant forall n :: n in entries <==> exists j :: 0 <= j < i && moves[j].1 == n
        invariant forall j :: 0 <= j < i ==> moves[j].1 in entries && entries[moves[j].1] == before[moves[j].0]
        invariant olds == Olds(moves[..i])
      {
        OldsMore(moves, i);
        entries := entries[moves[i].1 := files.files[moves[i].0]];
        olds := olds + {moves[i].0};
      }
      assert moves[..|moves|] == moves;
      PlanDone(place, before, from, to, moves, entries);
      MovesElsewhere(place, before, from, to, moves, entries);
      TreeMoved(place, before, from, to);
      ApplyUpdate(entries, olds);
    }

    /** One mutation with nothing else under way: the Map store would do the same. */
    method Run(m: Mutation, now: int) returns (error: Option<Refusal>)
      requires Valid() && CanonicalMutation(m) && creating == {}
      modifies this`creating, files
      ensures Valid() && creating == {}
      ensures match MapRun(place, old(files.files), m, now)
        case Refused(why) => files.files == old(files.files) && (error == Some(why) || (why == Fs(ENOTSUP) && error == Some(Uncompiled)))
        case Accepted(after) => error.None? && files.files == after
      ensures Answers(place, old(files.files), m, now, error, files.files)
    {
      hide Performs, Because, Storable, Stored, Turned, SameBut, MovedTree, Coherent, Sound, Canonical, MapRun, SabRun, TurnOf, Applied, UnstageAll, TreeChanges, CheckSubtree;
      ghost var before := files.files;
      SourceNames(before, m);
      var locked := m.Rename? && !m.directory && m.from in files.files;
      MapAnswers(place, before, m, now);
      SabRefinesMap(place, before, m, locked, now);
      TurnRuns(place, before, {}, m, locked, now);
      TurnKeys(place, before, m, locked, now);
      if MapRun(place, before, m, now).Accepted? {
        MapRunKeepsCoherent(place, before, m, now);
      }
      NothingApplied(before);
      var t := Begin(m, locked, now);
      match t
      case Refuse(why) =>
        TurnRefuses(place, before, m, locked, now);
        error := Some(why);
      case Nothing => error := None;
      case Unpublish(keys) =>
        EndUnpublish(keys);
        error := None;
      case Create(_, _, _, _) =>
        error := EndCreate(t);
        if error.Some? {
          NotStored(place, before, m, locked, now, t);
        }
        assert creating == {};
      case Move(from, to) =>
        EndMove(from, to);
        error := None;
    }
  }

  function Comings(ch: Changes): Contents {
    map k | k in ch && ch[k].Some? :: ch[k].value
  }

  function Goings(ch: Changes): set<string> {
    set k | k in ch && ch[k].None?
  }

  lemma AppliedParts(files: Contents, ch: Changes)
    ensures Applied(files, ch) == files + Comings(ch) - Goings(ch)
  {
  }

  lemma OneMoreSet(files: Contents, entries: Contents, rest: set<string>, k: string)
    requires k in rest && rest <= entries.Keys
    ensures files + (entries - (rest - {k})) == (files + (entries - rest))[k := entries[k]]
  {
  }

  lemma OneMoreGone(files: Contents, removals: set<string>, rest: set<string>, k: string)
    requires k in rest && rest <= removals
    ensures files - (removals - (rest - {k})) == files - (removals - rest) - {k}
  {
  }

  lemma TurnRefuses(place: Place, files: Contents, m: Mutation, locked: bool, now: int)
    requires TurnOf(place, files, {}, m, locked, now).Refuse?
    ensures TurnOf(place, files, {}, m, locked, now).why.Fs?
  {
    hide Namespace.CheckHierarchy, CheckExclusive, CheckMkdir, CheckSubtree, IsDirectory, SourcesUnder;
  }

  lemma NotStored(place: Place, files: Contents, m: Mutation, locked: bool, now: int, t: Turn)
    requires t.Create? && Turned(place, files, {}, m, locked, now, t) && !Storable(place, t.key, t.raw, t.mtime)
    ensures Because(place, files, {}, m, false, now, Uncompiled) && Because(place, files, {}, m, false, now, Fs(ENOTSUP))
  {
    hide Storable, FileOver, FileBelow, FlightBelow, MovesAsIs, IsFile;
  }

  lemma KeysGone(place: Place, files: Contents, keys: set<string>)
    requires forall k :: k in keys ==> !IsCompanionKey(k)
    ensures var after := Applied(files, UnstageAll(place, keys));
      SameBut(files, after, keys) && forall key :: key in keys ==> key !in after
  {
    forall s | !IsCompanionKey(s) ensures s in WithCompanions(place, keys) <==> s in keys {
      UnstageRemoves(place, files, keys, s);
    }
    hide WithCompanions, IsCompanionKey;
  }

  lemma UnstagedKeys(place: Place, keys: set<string>)
    requires forall k :: k in keys ==> Rooted(k) && !IsCompanionKey(k)
    ensures forall k :: k in UnstageAll(place, keys) ==> IsCompanionKey(k) || Rooted(k)
  {
    forall key, fl | key in keys ensures IsCompanionKey(CompanionKey(key, fl)) {
      CompanionOf(key, fl);
    }
    hide CompanionKey, IsCompanionKey;
  }

  /** An epoch names sources and companions only. */
  lemma EpochKeys(place: Place, t: Turn, f: File)
    requires t.Create? && Canonical(t.key) && (t.gone.Some? ==> Canonical(t.gone.value))
    ensures forall k :: k in PublishChanges(place, t.key, f) ==> IsCompanionKey(k) || Rooted(k)
    ensures t.gone.Some? ==> forall k :: k in UnstageChanges(place, t.gone.value) ==> IsCompanionKey(k) || Rooted(k)
  {
    CanonicalIsSource(t.key);
    forall k | k in PublishChanges(place, t.key, f) ensures IsCompanionKey(k) || Rooted(k) {
      ChangesAt(place, t.key, f, k);
      if k != t.key {
        var fl :| fl in place.flavors(t.key) && k == CompanionKey(t.key, fl);
        CompanionOf(t.key, fl);
      }
    }
    if t.gone.Some? {
      UnstageOne(place, t.gone.value);
      UnstagedKeys(place, {t.gone.value});
    }
  }

  /** The keys of a turn are canonical, and a subtree moves only when it may. */
  lemma TurnKeys(place: Place, files: Contents, m: Mutation, locked: bool, now: int)
    requires CanonicalMutation(m) && Coherent(place, files)
    ensures var t := TurnOf(place, files, {}, m, locked, now);
      && (t.Create? ==> Canonical(t.key) && (t.gone.Some? ==> Canonical(t.gone.value)))
      && (t.Unpublish? ==> forall k :: k in t.keys ==> Rooted(k) && !IsCompanionKey(k))
      && (t.Move? ==> Canonical(t.from) && Canonical(t.to) && CheckSubtree(place, files, {}, t.from, t.to).None?)
      && (t.Move? ==> Applied(files, TreeChanges(files, t.from, t.to)) == MovedContents(files, t.from, t.to))
  {
    var t := TurnOf(place, files, {}, m, locked, now);
    CanonicalIsSource(if m.Rename? then m.from else m.key);
    if t.Move? {
      assert CheckSubtree(place, files, {}, t.from, t.to).None?;
      hide Coherent, Canonical, CheckMove, AllMovable, MovedContents, TreeChanges, Applied, IsDirectory;
      assert Subtree.MayMove(place, files, t.from, t.to);
      TreeIsApplied(place, files, t.from, t.to);
    }
  }

  /** What moves lands where nothing was, so new keys may be set before old ones go. */
  lemma MovesElsewhere(place: Place, files: Contents, from: string, to: string, moves: seq<(string, string)>, entries: Contents)
    requires Subtree.MayMove(place, files, from, to)
    requires if to == from then moves == [] else Planned(files, from, to, moves)
    requires forall n :: n in entries <==> exists j :: 0 <= j < |moves| && moves[j].1 == n
    ensures files + entries - Olds(moves) == (files - Olds(moves)) + entries
  {
    hide Subtree.MayMove, Rekey;
    forall n | n in entries ensures n !in Olds(moves) {
      var j :| 0 <= j < |moves| && moves[j].1 == n;
      assert (moves[j].0, moves[j].1) in moves;
      if n in Olds(moves) {
        var i :| 0 <= i < |moves| && moves[i].0 == n;
        assert (moves[i].0, moves[i].1) in moves;
        MovedElsewhere(place, files, from, to, moves[j].0, n);
      }
    }
  }
}
