/** An index of directories under `Set` and `Delete`, against its definition by quantification. */
module PlaceIndex {
  import opened Paths

  type Dirs = map<string, set<string>>

  ghost predicate Named(dirs: Dirs, dir: string, name: string) {
    dir in dirs && name in dirs[dir]
  }

  /** A name is listed in a directory exactly when some source is called that or lies below it. */
  ghost predicate Indexes(dirs: Dirs, sources: set<string>) {
    && (forall dir, name :: Named(dirs, dir, name) <==> NoSlash(name) && Bears(sources, Join(dir, name)))
    && (forall dir :: dir in dirs ==> dirs[dir] != {})
  }

  /** Keys a scan or a canonical mutation can name. */
  predicate Rooted(key: string) {
    key != "" && key[0] == '/'
  }

  class PlaceFiles<Entry> {
    var files: map<string, Entry>
    var dirs: Dirs

    ghost function Sources(): set<string>
      reads this
    {
      set k | k in files && !IsCompanionKey(k)
    }

    ghost predicate Valid()
      reads this
    {
      && (forall k :: k in Sources() ==> Rooted(k))
      && Indexes(dirs, Sources())
    }

    constructor ()
      ensures Valid() && files == map[]
    {
      files, dirs := map[], map[];
    }

    method Set(key: string, entry: Entry)
      requires Valid() && (IsCompanionKey(key) || Rooted(key))
      modifies this
      ensures Valid() && files == old(files)[key := entry]
    {
      if !IsCompanionKey(key) && key !in files {
        Link(key);
      }
      ghost var sources := Sources();
      files := files[key := entry];
      assert Sources() == if IsCompanionKey(key) then sources else sources + {key};
    }

    method Delete(key: string) returns (found: bool)
      requires Valid()
      modifies this
      ensures Valid() && files == old(files) - {key} && (found <==> key in old(files))
    {
      if key !in files {
        return false;
      }
      ghost var sources := Sources();
      files := files - {key};
      assert Sources() == sources - {key};
      if !IsCompanionKey(key) {
        Unlink(key);
      }
      return true;
    }

    method Clear()
      modifies this
      ensures Valid() && files == map[]
    {
      files, dirs := map[], map[];
    }

    /** The index answers what a scan of the sources would. */
    method HasDirectory(dir: string) returns (has: bool)
      requires Valid()
      ensures has <==> exists k :: k in Sources() && Under(k, dir)
    {
      has := dir in dirs;
      DirectoryIndexed(dirs, Sources(), dir);
    }

    method Name(dir: string, name: string)
      modifies this`dirs
      ensures dirs == old(dirs)[dir := (if dir in old(dirs) then old(dirs)[dir] else {}) + {name}]
    {
      dirs := dirs[dir := (if dir in dirs then dirs[dir] else {}) + {name}];
    }

    /** Bring the index up to date with a key that was just added: walk towards the root. */
    method Link(key: string)
      requires Indexes(dirs, Sources()) && Rooted(key)
      modifies this`dirs
      ensures Indexes(dirs, Sources() + {key})
    {
      hide Under, AtOrUnder, Join, NoSlash, IndexOf;
      ghost var sources := Sources();
      var at, next := 0, IndexOf(key, 1);
      while next != -1
        invariant 0 <= at < |key| && key[at] == '/' && next == IndexOf(key, at + 1)
        invariant LinkedTo(dirs, sources, key, at)
        decreases |key| - at
      {
        LinkMore(dirs, sources, key, at);
        Name(key[..at], key[at + 1..next]);
        at := next;
        next := IndexOf(key, at + 1);
      }
      LinkMore(dirs, sources, key, at);
      Name(key[..at], key[at + 1..]);
      LinkedAll(dirs, sources, key);
    }

    /** Bring the index up to date with a key that was just removed: walk towards the root. */
    method Unlink(key: string)
      requires Rooted(key) && key !in files && !IsCompanionKey(key) && Indexes(dirs, Sources() + {key})
      requires forall k :: k in Sources() ==> Rooted(k)
      modifies this`dirs
      ensures Indexes(dirs, Sources())
    {
      hide Under, AtOrUnder, Join, NoSlash, Bears;
      ghost var sources := Sources();
      var child := key;
      WithoutKey(dirs, sources, key);
      while child != "" && child !in files && child !in dirs
        invariant UnlinkedFrom(dirs, sources, child)
        invariant child == "" || (Rooted(child) && !IsCompanionKey(child))
        decreases |child|
      {
        var at := LastIndexOf(child);
        var dir, name := child[..at], child[at + 1..];
        UnlinkChild(dirs, sources, child);
        var names := dirs[dir] - {name};
        if names != {} {
          dirs := dirs[dir := names];
          return;
        }
        dirs := dirs - {dir};
        child := dir;
      }
      UnlinkedAll(dirs, sources, child);
    }

    /** What `dir` holds directly, each as a file, a directory or both. */
    method Children(dir: string) returns (found: seq<Item>)
      requires Valid()
      ensures Unique(found)
      ensures forall k, d :: Item(k, d) in found <==> ChildOf(dirs, Sources(), dir, k, d)
    {
      hide NoSlash, Join, Bears, Indexes;
      found := [];
      if dir !in dirs {
        return;
      }
      var rest := dirs[dir];
      while rest != {}
        invariant rest <= dirs[dir] && Unique(found)
        invariant forall k, d :: Item(k, d) in found <==>
          (exists name :: Named(dirs, dir, name) && name !in rest && k == Join(dir, name)) && InPlace(dirs, Sources(), k, d)
        decreases rest
      {
        var name :| name in rest;
        var key := Join(dir, name);
        SourceNamed(dirs, Sources(), dir, name);
        NamesApart(dirs, Sources(), dir, name);
        rest := rest - {name};
        if key in files {
          found := found + [Item(key, false)];
        }
        if key in dirs {
          found := found + [Item(key, true)];
        }
      }
    }

    /** A stack of directories still to be listed; each listing pushes those it meets. */
    method Below(dir: string, ghost bound: nat) returns (found: seq<Item>)
      requires Valid() && forall k :: k in Sources() ==> |k| <= bound
      ensures Unique(found)
      ensures forall k, d :: Item(k, d) in found <==> Under(k, dir) && InPlace(dirs, Sources(), k, d)
      decreases bound - |dir|, 0
    {
      hide NoSlash, Join, Bears, Indexes, Under, Yields, YieldedBy, ChildOf, InPlace;
      found := [];
      var children := Children(dir);
      NothingYielded(dirs, Sources(), children);
      for i := 0 to |children|
        invariant Unique(found)
        invariant forall k, d :: Item(k, d) in found <==> YieldedBy(dirs, Sources(), children[..i], k, d)
      {
        ChildDeeper(dirs, Sources(), dir, children[i], bound);
        var more := Expand(children[i], bound);
        YieldedMore(dirs, Sources(), dir, children, i);
        UniqueBoth(found, more);
        found := found + more;
      }
      assert children[..|children|] == children;
      ChildrenYieldAll(dirs, Sources(), dir, children);
    }

    /** One child of a directory, and all below it. */
    method Expand(child: Item, ghost bound: nat) returns (found: seq<Item>)
      requires Valid() && forall k :: k in Sources() ==> |k| <= bound
      ensures Unique(found)
      ensures forall k, d :: Item(k, d) in found <==> Yields(dirs, Sources(), child, k, d)
      decreases bound - |child.key|, 1
    {
      found := [child];
      if child.isDirectory {
        var deeper := Below(child.key, bound);
        NothingUnderEmpty(child.key, child.key);
        UniqueBoth(found, deeper);
        found := found + deeper;
      }
    }

    /** Every source under a directory, however the caller spells it. */
    method KeysUnder(dir: string) returns (keys: seq<string>)
      requires Valid()
      ensures forall i, j :: 0 <= i < j < |keys| ==> keys[i] != keys[j]
      ensures forall k :: k in keys <==> k in Sources() && Under(k, DirOf(dir))
    {
      ghost var bound := LengthBound(Sources());
      var found := Below(DirOf(dir), bound);
      keys := [];
      for i := 0 to |found|
        invariant forall k :: k in keys <==> Item(k, false) in found[..i]
        invariant forall i, j :: 0 <= i < j < |keys| ==> keys[i] != keys[j]
      {
        if !found[i].isDirectory {
          keys := keys + [found[i].key];
        }
      }
    }

    /** True iff `key` names the root or a directory some source implies. */
    method IsDirectory(key: string) returns (yes: bool)
      requires Valid()
      ensures yes <==> DirOf(key) == "" || exists k :: k in Sources() && Under(k, DirOf(key))
    {
      var has := HasDirectory(DirOf(key));
      yes := DirOf(key) == "" || has;
    }
  }

  // --- Listing ---

  datatype Item = Item(key: string, isDirectory: bool)

  ghost predicate Unique(items: seq<Item>) {
    forall i, j :: 0 <= i < j < |items| ==> items[i] != items[j]
  }

  ghost predicate InPlace(dirs: Dirs, sources: set<string>, key: string, isDirectory: bool) {
    if isDirectory then key in dirs else key in sources
  }

  ghost predicate ChildOf(dirs: Dirs, sources: set<string>, dir: string, key: string, isDirectory: bool) {
    (exists name :: Named(dirs, dir, name) && key == Join(dir, name)) && InPlace(dirs, sources, key, isDirectory)
  }

  /** What one child adds to a deep listing: itself and, for a directory, all below it. */
  ghost predicate Yields(dirs: Dirs, sources: set<string>, child: Item, key: string, isDirectory: bool) {
    || child == Item(key, isDirectory)
    || (child.isDirectory && Under(key, child.key) && InPlace(dirs, sources, key, isDirectory))
  }

  lemma UniqueBoth(a: seq<Item>, b: seq<Item>)
    requires Unique(a) && Unique(b) && forall x :: x in b ==> x !in a
    ensures Unique(a + b)
  {
    forall i, j | 0 <= i < j < |a + b| ensures (a + b)[i] != (a + b)[j] {
      if i < |a| <= j {
        assert (a + b)[j] in b && (a + b)[i] in a;
      }
    }
  }

  ghost predicate YieldedBy(dirs: Dirs, sources: set<string>, children: seq<Item>, key: string, isDirectory: bool) {
    exists j :: 0 <= j < |children| && Yields(dirs, sources, children[j], key, isDirectory)
  }

  lemma NothingYielded(dirs: Dirs, sources: set<string>, children: seq<Item>)
    ensures forall k, d :: !YieldedBy(dirs, sources, children[..0], k, d)
  {
  }

  /** One more child adds what it yields, none of it yielded before. */
  lemma YieldedMore(dirs: Dirs, sources: set<string>, dir: string, children: seq<Item>, i: nat)
    requires Indexes(dirs, sources) && Unique(children) && i < |children|
    requires forall c :: c in children ==> ChildOf(dirs, sources, dir, c.key, c.isDirectory)
    ensures forall k, d :: YieldedBy(dirs, sources, children[..i + 1], k, d) <==>
      YieldedBy(dirs, sources, children[..i], k, d) || Yields(dirs, sources, children[i], k, d)
    ensures forall k, d :: !(YieldedBy(dirs, sources, children[..i], k, d) && Yields(dirs, sources, children[i], k, d))
  {
    var less, more := children[..i], children[..i + 1];
    assert more == less + [children[i]];
    hide Yields, ChildOf, Indexes;
    forall k, d
      ensures YieldedBy(dirs, sources, more, k, d) <==> YieldedBy(dirs, sources, less, k, d) || Yields(dirs, sources, children[i], k, d)
    {
      if YieldedBy(dirs, sources, less, k, d) {
        var j :| 0 <= j < |less| && Yields(dirs, sources, less[j], k, d);
        assert more[j] == less[j];
      }
      assert more[i] == children[i];
    }
    forall k, d | YieldedBy(dirs, sources, less, k, d) ensures !Yields(dirs, sources, children[i], k, d) {
      var j :| 0 <= j < |less| && Yields(dirs, sources, less[j], k, d);
      assert children[j] in children && children[i] in children;
      ChildrenApart(dirs, sources, dir, children[j], children[i], k, d);
    }
  }

  /** What lies at a listed name has no NUL in it: if it is a file, it is a source. */
  lemma SourceNamed(dirs: Dirs, sources: set<string>, dir: string, name: string)
    requires Indexes(dirs, sources) && Named(dirs, dir, name) && forall k :: k in sources ==> !IsCompanionKey(k)
    ensures !IsCompanionKey(Join(dir, name))
  {
    var k :| k in sources && AtOrUnder(k, Join(dir, name));
    assert forall c :: c in Join(dir, name) ==> c in k;
  }

  lemma NamesApart(dirs: Dirs, sources: set<string>, dir: string, name: string)
    requires Indexes(dirs, sources) && Named(dirs, dir, name)
    ensures forall other :: Named(dirs, dir, other) && other != name ==> Join(dir, other) != Join(dir, name)
  {
    hide Join, NoSlash, Bears;
    forall other | Named(dirs, dir, other) && other != name ensures Join(dir, other) != Join(dir, name) {
      JoinInjective(dir, other, dir, name);
    }
  }

  /** Children are longer than their directory and no longer than the longest source. */
  lemma ChildDeeper(dirs: Dirs, sources: set<string>, dir: string, child: Item, bound: nat)
    requires Indexes(dirs, sources) && ChildOf(dirs, sources, dir, child.key, child.isDirectory)
    requires forall k :: k in sources ==> |k| <= bound
    ensures |dir| < |child.key| <= bound
  {
    var name :| Named(dirs, dir, name) && child.key == Join(dir, name);
    var k :| k in sources && AtOrUnder(k, Join(dir, name));
  }

  /** No item belongs to two children. */
  lemma ChildrenApart(dirs: Dirs, sources: set<string>, dir: string, a: Item, b: Item, key: string, isDirectory: bool)
    requires Indexes(dirs, sources) && a != b
    requires ChildOf(dirs, sources, dir, a.key, a.isDirectory) && ChildOf(dirs, sources, dir, b.key, b.isDirectory)
    ensures !(Yields(dirs, sources, a, key, isDirectory) && Yields(dirs, sources, b, key, isDirectory))
  {
    var m :| Named(dirs, dir, m) && a.key == Join(dir, m);
    var n :| Named(dirs, dir, n) && b.key == Join(dir, n);
    if AtOrUnder(key, Join(dir, m)) && AtOrUnder(key, Join(dir, n)) {
      hide Join, AtOrUnder;
      NameUnique(key, dir, m);
      NameUnique(key, dir, n);
    }
    NothingUnderEmpty(key, key);
  }

  /** Whatever lies below a directory is one of its children or below one that is a directory. */
  lemma ChildrenYieldAll(dirs: Dirs, sources: set<string>, dir: string, children: seq<Item>)
    requires Indexes(dirs, sources)
    requires forall k, d :: Item(k, d) in children <==> ChildOf(dirs, sources, dir, k, d)
    ensures forall k, d :: YieldedBy(dirs, sources, children, k, d) <==> Under(k, dir) && InPlace(dirs, sources, k, d)
  {
    hide Yields, ChildOf, Indexes, InPlace, Under;
    forall k, d
      ensures YieldedBy(dirs, sources, children, k, d) <==> Under(k, dir) && InPlace(dirs, sources, k, d)
    {
      if YieldedBy(dirs, sources, children, k, d) {
        var j :| 0 <= j < |children| && Yields(dirs, sources, children[j], k, d);
        assert Item(children[j].key, children[j].isDirectory) in children;
        YieldedUnder(dirs, sources, dir, children[j], k, d);
      }
      if Under(k, dir) && InPlace(dirs, sources, k, d) {
        var child := YieldingChild(dirs, sources, dir, k, d);
        assert Item(child.key, child.isDirectory) in children;
        var j :| 0 <= j < |children| && children[j] == child;
      }
    }
  }

  lemma YieldedUnder(dirs: Dirs, sources: set<string>, dir: string, child: Item, key: string, isDirectory: bool)
    requires ChildOf(dirs, sources, dir, child.key, child.isDirectory) && Yields(dirs, sources, child, key, isDirectory)
    ensures Under(key, dir) && InPlace(dirs, sources, key, isDirectory)
  {
    var name :| Named(dirs, dir, name) && child.key == Join(dir, name);
    JoinUnder(dir, name);
    UnderTransitive(key, child.key, dir);
  }

  lemma YieldingChild(dirs: Dirs, sources: set<string>, dir: string, key: string, isDirectory: bool) returns (child: Item)
    requires Indexes(dirs, sources) && Under(key, dir) && InPlace(dirs, sources, key, isDirectory)
    ensures ChildOf(dirs, sources, dir, child.key, child.isDirectory) && Yields(dirs, sources, child, key, isDirectory)
  {
    var name := NameIn(key, dir);
    var path := Join(dir, name);
    var k := key;
    if isDirectory {
      DirectoryIndexed(dirs, sources, key);
      k :| k in sources && Under(k, key);
      if key != path {
        UnderTransitive(k, key, path);
      }
    }
    assert AtOrUnder(k, path);
    assert Named(dirs, dir, name);
    child := if key == path then Item(key, isDirectory) else Item(path, true);
    DirectoryIndexed(dirs, sources, path);
  }

  lemma LengthBound(sources: set<string>) returns (bound: nat)
    ensures forall k :: k in sources ==> |k| <= bound
  {
    bound := 0;
    var rest := sources;
    while rest != {}
      invariant rest <= sources && forall k :: k in sources - rest ==> |k| <= bound
      decreases rest
    {
      var k :| k in rest;
      rest := rest - {k};
      if |k| > bound {
        bound := |k|;
      }
    }
  }

  // --- Linking a key ---

  /** The directories of `key` shorter than `upto` hold their names. */
  ghost predicate LinkedTo(dirs: Dirs, sources: set<string>, key: string, upto: int) {
    && (forall dir, name :: Named(dirs, dir, name) <==>
         NoSlash(name) && (Bears(sources, Join(dir, name)) || (|dir| < upto && AtOrUnder(key, Join(dir, name)))))
    && (forall dir :: dir in dirs ==> dirs[dir] != {})
  }

  function Segment(key: string, at: nat): string
    requires at < |key|
  {
    var next := IndexOf(key, at + 1);
    if next == -1 then key[at + 1..] else key[at + 1..next]
  }

  function WithName(dirs: Dirs, dir: string, name: string): Dirs {
    dirs[dir := (if dir in dirs then dirs[dir] else {}) + {name}]
  }

  /** The directories of a key end at its slashes, and each holds one name of it. */
  lemma SlashesOnly(key: string, at: nat, dir: string, name: string)
    requires at < |key| && key[at] == '/' && NoSlash(name) && AtOrUnder(key, Join(dir, name))
    ensures |dir| < |key| && key[|dir|] == '/'
    ensures |dir| == at ==> dir == key[..at] && name == Segment(key, at)
    ensures IndexOf(key, at + 1) == -1 ==> |dir| <= at
    ensures IndexOf(key, at + 1) != -1 ==> |dir| <= at || |dir| >= IndexOf(key, at + 1)
  {
    NameUnique(key, dir, name);
  }

  lemma LinkMore(dirs: Dirs, sources: set<string>, key: string, at: nat)
    requires at < |key| && key[at] == '/' && LinkedTo(dirs, sources, key, at)
    ensures LinkedTo(WithName(dirs, key[..at], Segment(key, at)), sources, key, if IndexOf(key, at + 1) == -1 then |key| else IndexOf(key, at + 1))
  {
    var d, n := key[..at], Segment(key, at);
    var after, next := WithName(dirs, d, n), IndexOf(key, at + 1);
    var upto := if next == -1 then |key| else next;
    assert Under(key, d);
    assert NameIn(key, d) == n;
    hide Bears, Join, IndexOf;
    forall dir, name
      ensures Named(after, dir, name) <==> Named(dirs, dir, name) || (dir == d && name == n)
      ensures NoSlash(name) && AtOrUnder(key, Join(dir, name)) && |dir| < upto ==> |dir| < at || (dir == d && name == n)
    {
      if NoSlash(name) && AtOrUnder(key, Join(dir, name)) {
        SlashesOnly(key, at, dir, name);
      }
    }
    hide WithName, AtOrUnder, Under, NoSlash, Named;
  }

  lemma LinkedAll(dirs: Dirs, sources: set<string>, key: string)
    requires LinkedTo(dirs, sources, key, |key|)
    ensures Indexes(dirs, sources + {key})
  {
    forall dir, name
      ensures NoSlash(name) && Bears(sources + {key}, Join(dir, name)) <==>
        NoSlash(name) && (Bears(sources, Join(dir, name)) || (|dir| < |key| && AtOrUnder(key, Join(dir, name))))
    {
      BearsMore(sources, key, Join(dir, name));
      assert AtOrUnder(key, Join(dir, name)) ==> |dir| < |key|;
    }
    hide Bears, AtOrUnder, Join, NoSlash, Named;
  }

  lemma BearsMore(sources: set<string>, key: string, path: string)
    ensures Bears(sources + {key}, path) <==> Bears(sources, path) || AtOrUnder(key, path)
  {
  }

  // --- Unlinking a key ---

  /** Beside what the sources bear, the paths at or above `child` are still listed. */
  ghost predicate UnlinkedFrom(dirs: Dirs, sources: set<string>, child: string) {
    && (forall dir, name :: Named(dirs, dir, name) <==>
         NoSlash(name) && (Bears(sources, Join(dir, name)) || AtOrUnder(child, Join(dir, name))))
    && (forall dir :: dir in dirs ==> dirs[dir] != {})
  }

  lemma WithoutKey(dirs: Dirs, sources: set<string>, key: string)
    requires Indexes(dirs, sources + {key})
    ensures UnlinkedFrom(dirs, sources, key)
  {
    forall dir, name
      ensures Bears(sources + {key}, Join(dir, name)) <==> Bears(sources, Join(dir, name)) || AtOrUnder(key, Join(dir, name))
    {
      BearsMore(sources, key, Join(dir, name));
    }
    hide Bears, AtOrUnder, Join, NoSlash, Named;
  }

  /** A directory is present exactly while something lies below it. */
  lemma DirectoryBears(dirs: Dirs, sources: set<string>, child: string, dir: string)
    requires UnlinkedFrom(dirs, sources, child)
    ensures dir in dirs <==> Under(child, dir) || exists k :: k in sources && Under(k, dir)
  {
    hide Under, AtOrUnder, Join;
    if dir in dirs {
      var name :| name in dirs[dir];
      assert Named(dirs, dir, name);
      JoinUnder(dir, name);
      if Bears(sources, Join(dir, name)) {
        var k :| k in sources && AtOrUnder(k, Join(dir, name));
        UnderTransitive(k, Join(dir, name), dir);
      } else {
        UnderTransitive(child, Join(dir, name), dir);
      }
    }
    if Under(child, dir) {
      assert Named(dirs, dir, NameIn(child, dir));
    }
    if k :| k in sources && Under(k, dir) {
      assert Bears(sources, Join(dir, NameIn(k, dir)));
      assert Named(dirs, dir, NameIn(k, dir));
    }
  }

  /** Paths above a borne path are borne. */
  lemma BearsAbove(sources: set<string>, path: string, above: string)
    requires Bears(sources, path) && Under(path, above)
    ensures Bears(sources, above)
  {
    hide Under, AtOrUnder;
    var k :| k in sources && AtOrUnder(k, path);
    UnderTransitive(k, path, above);
    AtOrUnderOf(k, above);
  }

  lemma AtOrUnderOf(k: string, path: string)
    requires Under(k, path)
    ensures AtOrUnder(k, path)
  {
  }

  lemma DirectoryIndexed(dirs: Dirs, sources: set<string>, dir: string)
    requires Indexes(dirs, sources)
    ensures dir in dirs <==> exists k :: k in sources && Under(k, dir)
  {
    forall d, n ensures !AtOrUnder("", Join(d, n)) {
    }
    hide Bears, AtOrUnder, Join, NoSlash, Named, Under;
    assert UnlinkedFrom(dirs, sources, "");
    hide Indexes, UnlinkedFrom;
    DirectoryBears(dirs, sources, "", dir);
    NothingUnderEmpty("", dir);
  }

  lemma NothingUnderEmpty(key: string, dir: string)
    requires |key| <= |dir|
    ensures !Under(key, dir)
  {
  }

  lemma LastOfJoin(dir: string, name: string)
    requires NoSlash(name)
    ensures LastIndexOf(Join(dir, name)) == |dir| && Join(dir, name)[..|dir|] == dir && Join(dir, name)[|dir| + 1..] == name
  {
    var path := Join(dir, name);
    assert path[|dir|] == '/';
    assert forall i :: |dir| < i < |path| ==> path[i] == name[i - |dir| - 1] && path[i] in name;
  }

  /** A path is joined in one way only. */
  lemma JoinInjective(d: string, n: string, dir: string, name: string)
    requires NoSlash(n) && NoSlash(name)
    ensures Join(d, n) == Join(dir, name) <==> d == dir && n == name
    ensures !AtOrUnder(dir, Join(dir, n))
  {
    LastOfJoin(d, n);
    LastOfJoin(dir, name);
  }

  /** Nothing bears a path that is neither a source nor a directory. */
  lemma Unborne(dirs: Dirs, sources: set<string>, child: string)
    requires UnlinkedFrom(dirs, sources, child) && child !in sources && child !in dirs
    ensures !Bears(sources, child)
  {
    DirectoryBears(dirs, sources, child, child);
  }

  lemma LastSegment(child: string)
    requires Rooted(child)
    ensures var at := LastIndexOf(child);
      && at >= 0
      && var dir, name := child[..at], child[at + 1..];
      && NoSlash(name) && Join(dir, name) == child && (dir == "" || Rooted(dir)) && (forall c :: c in dir ==> c in child)
  {
    var at := LastIndexOf(child);
    assert forall i {:trigger child[at + 1..][i]} :: 0 <= i < |child[at + 1..]| ==> child[at + 1..][i] == child[at + 1 + i] != '/';
  }

  /** The paths at or above `child`, told apart: `child` itself, or at or above its directory. */
  lemma AboveChild(dir: string, name: string)
    requires NoSlash(name)
    ensures forall d, n :: NoSlash(n) ==> (AtOrUnder(Join(dir, name), Join(d, n)) <==> (d == dir && n == name) || AtOrUnder(dir, Join(d, n)))
    ensures forall n :: NoSlash(n) ==> !AtOrUnder(dir, Join(dir, n))
  {
    forall d, n | NoSlash(n)
      ensures AtOrUnder(Join(dir, name), Join(d, n)) <==> (d == dir && n == name) || AtOrUnder(dir, Join(d, n))
    {
      AboveJoin(dir, name, Join(d, n));
      JoinInjective(d, n, dir, name);
    }
    forall n | NoSlash(n) ensures !AtOrUnder(dir, Join(dir, n)) {
      JoinInjective(dir, n, dir, name);
    }
  }

  /** The directory of `child` keeps another name: everything above it is still borne. */
  lemma OthersBearAbove(dirs: Dirs, sources: set<string>, dir: string, name: string, other: string, path: string)
    requires UnlinkedFrom(dirs, sources, Join(dir, name)) && NoSlash(name)
    requires Named(dirs, dir, other) && other != name && AtOrUnder(dir, path)
    ensures Bears(sources, path)
  {
    AboveChild(dir, name);
    JoinUnder(dir, other);
    hide Join, Bears, NoSlash;
    assert Bears(sources, Join(dir, other));
    if dir != path {
      UnderTransitive(Join(dir, other), dir, path);
    }
    BearsAbove(sources, Join(dir, other), path);
  }

  /** One round of the loop: the name of `child` goes, and either the rest stays or its directory goes too. */
  lemma UnlinkChild(dirs: Dirs, sources: set<string>, child: string)
    requires UnlinkedFrom(dirs, sources, child) && Rooted(child) && child !in sources && child !in dirs
    ensures var at := LastIndexOf(child);
      && at >= 0
      && var dir, name := child[..at], child[at + 1..];
      && Named(dirs, dir, name)
      && (dirs[dir] - {name} != {} ==> Indexes(dirs[dir := dirs[dir] - {name}], sources))
      && (dirs[dir] - {name} == {} ==> UnlinkedFrom(dirs - {dir}, sources, dir))
      && (dir == "" || Rooted(dir)) && (forall c :: c in dir ==> c in child)
  {
    LastSegment(child);
    var at := LastIndexOf(child);
    var dir, name := child[..at], child[at + 1..];
    Unborne(dirs, sources, child);
    AboveChild(dir, name);
    assert Named(dirs, dir, name);
    hide Bears, AtOrUnder, Join, NoSlash, Under;
    var names := dirs[dir] - {name};
    if names != {} {
      var other :| other in names;
      var after := dirs[dir := names];
      forall d, n ensures Named(after, d, n) <==> NoSlash(n) && Bears(sources, Join(d, n)) {
        if NoSlash(n) && AtOrUnder(dir, Join(d, n)) {
          OthersBearAbove(dirs, sources, dir, name, other, Join(d, n));
        }
      }
    } else {
      OnlyName(dirs[dir], name);
      LastNameGone(dirs, sources, dir, name);
    }
  }

  lemma OnlyName(names: set<string>, name: string)
    requires name in names && names - {name} == {}
    ensures names == {name}
  {
    forall n | n in names ensures n == name {
      assert n in names - {name} || n == name;
    }
  }

  lemma LastNameGone(dirs: Dirs, sources: set<string>, dir: string, name: string)
    requires UnlinkedFrom(dirs, sources, Join(dir, name)) && NoSlash(name) && !Bears(sources, Join(dir, name))
    requires dir in dirs && dirs[dir] == {name}
    ensures UnlinkedFrom(dirs - {dir}, sources, dir)
  {
    AboveChild(dir, name);
    hide Bears, AtOrUnder, Join, NoSlash, Under;
    forall d, n
      ensures Named(dirs - {dir}, d, n) <==> NoSlash(n) && (Bears(sources, Join(d, n)) || AtOrUnder(dir, Join(d, n)))
    {
      assert Named(dirs, d, n) <==> NoSlash(n) && (Bears(sources, Join(d, n)) || AtOrUnder(Join(dir, name), Join(d, n)));
    }
  }

  lemma UnlinkedAll(dirs: Dirs, sources: set<string>, child: string)
    requires UnlinkedFrom(dirs, sources, child)
    requires child == "" || child in sources || child in dirs
    ensures Indexes(dirs, sources)
  {
    forall dir, name | AtOrUnder(child, Join(dir, name)) ensures Bears(sources, Join(dir, name)) {
      DirectoryBears(dirs, sources, child, child);
      if child !in sources {
        var k :| k in sources && Under(k, child);
        if child != Join(dir, name) {
          UnderTransitive(k, child, Join(dir, name));
        }
        AtOrUnderOf(k, Join(dir, name));
      }
    }
    hide Bears, AtOrUnder, Join, NoSlash, Under, Named;
  }
}
