/** The checks both stores make against the index of a place, and the plan of a subtree rename. */
module Checks {
  import opened Layout
  import opened Paths
  import opened Companion
  import opened Namespace
  import opened Publication
  import opened Subtree
  import opened PlaceIndex

  /** The walk from `key` towards the root meets a source or a key in flight iff there is one above. */
  method FileAbove(files: PlaceFiles<File>, key: string, creating: set<string>) returns (above: bool)
    requires !IsCompanionKey(key)
    ensures above <==> Namespace.FileAbove(Sources(files.files), creating, key)
  {
    var at := LastIndexOf(key);
    while at > 0
      invariant -1 <= at < |key| && (at >= 0 ==> key[at] == '/')
      invariant forall p :: Under(key, p) && |p| > at ==> p !in Sources(files.files) + creating
      decreases at
    {
      var parent := key[..at];
      assert forall c :: c in parent ==> c in key;
      if parent in files.files || parent in creating {
        assert Under(key, parent);
        return true;
      }
      at := LastIndexOf(parent);
      assert forall i :: at < i < |parent| ==> parent[i] == key[i];
      assert forall p :: Under(key, p) && |p| == |parent| ==> p == parent;
    }
    above := false;
  }

  method CheckHierarchy(files: PlaceFiles<File>, key: string, creating: set<string>) returns (code: Option<Code>)
    requires files.Valid() && Canonical(key)
    ensures code == Namespace.CheckHierarchy(Sources(files.files), creating, key)
  {
    CanonicalIsSource(key);
    CanonicalIsDir(key);
    var above := FileAbove(files, key, creating);
    if above {
      return Some(ENOTDIR);
    }
    if key in files.files {
      return None;
    }
    var directory := files.IsDirectory(key);
    if directory {
      return Some(EISDIR);
    }
    var rest := creating;
    while rest != {}
      invariant rest <= creating && forall other :: other in creating - rest ==> !Under(other, key)
      decreases rest
    {
      var other :| other in rest;
      rest := rest - {other};
      UnderIsPrefix(other, key);
      if key + "/" <= other {
        return Some(EISDIR);
      }
    }
    return None;
  }

  // --- The plan of a subtree rename ---

  /** The plan names each key that moves, and only those, with its key after the move. */
  ghost predicate Planned(files: Contents, from: string, to: string, moves: seq<(string, string)>) {
    && (forall k, n :: (k, n) in moves ==> k in Moving(files, from) && n == Rekey(from, to, k))
    && (forall k :: k in Moving(files, from) ==> (k, Rekey(from, to, k)) in moves)
  }

  /** The same for the sources done so far. */
  ghost predicate PlannedFor(files: Contents, from: string, to: string, done: seq<string>, moves: seq<(string, string)>) {
    && (forall k, n :: (k, n) in moves ==> k in Moving(files, from) && n == Rekey(from, to, k))
    && (forall k :: k in files && SourceOf(k) in done ==> (k, Rekey(from, to, k)) in moves)
  }

  lemma NothingPlanned(files: Contents, from: string, to: string, sources: seq<string>)
    ensures PlannedFor(files, from, to, sources[..0], [])
  {
  }

  lemma PlanMore(place: Place, files: Contents, from: string, to: string, sources: seq<string>, i: nat, moves: seq<(string, string)>, companions: seq<(string, string)>)
    requires Sound(place) && Coherent(place, files) && Canonical(from) && Canonical(to)
    requires i < |sources| && sources[i] in files && !IsCompanionKey(sources[i]) && Under(sources[i], from)
    requires PlannedFor(files, from, to, sources[..i], moves)
    requires CompanionsListed(place, files, sources[i], to + sources[i][|from|..], companions)
    ensures PlannedFor(files, from, to, sources[..i + 1], moves + [(sources[i], to + sources[i][|from|..])] + companions)
  {
    hide CompanionsListed, Coherent, Sound, PlannedFor, Canonical, IsCompanionKey, Under;
    var s := sources[i];
    SourceMoves(files, from, to, s);
    assert sources[..i + 1] == sources[..i] + [s];
    ListedMove(place, files, from, to, s, companions);
    hide Rekey, Moving;
    PlanStep(files, from, to, sources[..i], s, moves, companions);
  }

  lemma SourceMoves(files: Contents, from: string, to: string, s: string)
    requires s in files && !IsCompanionKey(s) && Under(s, from)
    ensures s in Moving(files, from) && Rekey(from, to, s) == to + s[|from|..]
  {
    SourceOfSource(s);
  }

  lemma PlanStep(files: Contents, from: string, to: string, done: seq<string>, s: string, moves: seq<(string, string)>, companions: seq<(string, string)>)
    requires PlannedFor(files, from, to, done, moves) && s in Moving(files, from)
    requires forall k, n :: (k, n) in companions ==> k in Moving(files, from) && n == Rekey(from, to, k)
    requires forall k :: k in files && SourceOf(k) == s && k != s ==> (k, Rekey(from, to, k)) in companions
    ensures PlannedFor(files, from, to, done + [s], moves + [(s, Rekey(from, to, s))] + companions)
  {
    hide Rekey, SourceOf, Moving;
    var after := moves + [(s, Rekey(from, to, s))] + companions;
    assert after[|moves|] == (s, Rekey(from, to, s));
  }

  /** What `CompanionMoves` lists. */
  ghost predicate CompanionsListed(place: Place, files: Contents, key: string, newKey: string, companions: seq<(string, string)>) {
    forall k, n :: (k, n) in companions <==>
      exists fl :: fl in place.kinds && k == CompanionKey(key, fl) && k in files && n == newKey + k[|key|..]
  }

  /** The companions listed for a moving source are all it has, each with its key after the move. */
  lemma ListedMove(place: Place, files: Contents, from: string, to: string, s: string, companions: seq<(string, string)>)
    requires Sound(place) && Coherent(place, files)
    requires s in files && !IsCompanionKey(s) && Under(s, from)
    requires CompanionsListed(place, files, s, to + s[|from|..], companions)
    ensures forall k, n :: (k, n) in companions ==> k in Moving(files, from) && n == Rekey(from, to, k)
    ensures forall k :: k in files && SourceOf(k) == s && k != s ==> (k, Rekey(from, to, k)) in companions
  {
    SourceOfSource(s);
    forall fl ensures var c := CompanionKey(s, fl); SourceOf(c) == s && |s| <= |c| && Rekey(from, to, c) == to + s[|from|..] + c[|s|..] {
      CompanionOf(s, fl);
      RekeyCompanion(from, to, s, fl);
      Rekeyed(s, fl, to + s[|from|..]);
    }
    hide Canonical, Antichain, CompanionsOf, CompanionKey, Rekey, IsCompanionKey;
    forall k, n | (k, n) in companions ensures k in Moving(files, from) && n == Rekey(from, to, k) {
      var fl :| fl in place.kinds && k == CompanionKey(s, fl) && k in files && n == to + s[|from|..] + k[|s|..];
    }
    forall k | k in files && SourceOf(k) == s && k != s ensures (k, Rekey(from, to, k)) in companions {
      SourcePrefix(k);
      KnownCompanion(place, files, s, k);
      var fl :| fl in place.kinds && k == CompanionKey(s, fl);
      assert Rekey(from, to, k) == to + s[|from|..] + k[|s|..];
    }
  }

  lemma KnownCompanion(place: Place, files: Contents, s: string, k: string)
    requires Sound(place) && NoOrphans(place, files) && k in files && IsCompanionKey(k) && SourceOf(k) == s
    ensures exists fl :: fl in place.kinds && k == CompanionKey(s, fl)
  {
    assert Belongs(place, files, k);
    var t, fl :| t in files && !IsCompanionKey(t) && fl in place.flavors(t) && k == CompanionKey(t, fl);
    CompanionOf(t, fl);
  }

  lemma PlanAll(place: Place, files: Contents, from: string, to: string, sources: seq<string>, moves: seq<(string, string)>)
    requires Coherent(place, files) && Canonical(from) && PlannedFor(files, from, to, sources, moves)
    requires SourcesUnder(Sources(files), from) == SetOf(sources)
    ensures Planned(files, from, to, moves)
  {
    CanonicalIsDir(from);
    hide Canonical, Antichain, CompanionsOf, Rekey;
    forall k | k in Moving(files, from) ensures SourceOf(k) in sources {
      SourceIn(place, files, k);
      assert SourceOf(k) in SourcesUnder(Sources(files), from);
    }
  }

  function SetOf(keys: seq<string>): set<string> {
    set k | k in keys
  }

  /** The listed children are the sources under the key. */
  lemma ListsChildren(files: Contents, key: string, children: seq<string>)
    requires forall k :: k in children <==> k in files && !IsCompanionKey(k) && Under(k, DirOf(key))
    ensures SourcesUnder(Sources(files), key) == SetOf(children)
    ensures children == [] <==> SourcesUnder(Sources(files), key) == {}
    ensures forall k :: k in children ==> k in files && !IsCompanionKey(k)
  {
    if children != [] {
      assert children[0] in SourcesUnder(Sources(files), key);
    }
  }

  /** No key is listed twice. */
  ghost predicate Once(moves: seq<(string, string)>) {
    forall i, j :: 0 <= i < j < |moves| ==> moves[i].0 != moves[j].0
  }

  lemma NothingOnce()
    ensures Once([])
  {
  }

  /** Listing one more source and its companions lists no key twice. */
  lemma OnceMore(sources: seq<string>, n: nat, moves: seq<(string, string)>, newKey: string, companions: seq<(string, string)>)
    requires n < |sources| && !IsCompanionKey(sources[n]) && forall i :: 0 <= i < n ==> sources[i] != sources[n]
    requires Once(moves) && forall i :: 0 <= i < |moves| ==> SourceOf(moves[i].0) in sources[..n]
    requires Once(companions) && forall i :: 0 <= i < |companions| ==> IsCompanionKey(companions[i].0) && SourceOf(companions[i].0) == sources[n]
    ensures var all := moves + [(sources[n], newKey)] + companions;
      Once(all) && forall i :: 0 <= i < |all| ==> SourceOf(all[i].0) in sources[..n + 1]
  {
    SourceOfSource(sources[n]);
    assert sources[..n + 1] == sources[..n] + [sources[n]];
    assert sources[n] !in sources[..n];
    hide SourceOf, IsCompanionKey;
  }

  /** The companions of one moving source, re-keyed. */
  method CompanionMoves(place: Place, files: PlaceFiles<File>, key: string, newKey: string) returns (moves: seq<(string, string)>)
    ensures CompanionsListed(place, files.files, key, newKey, moves) && Once(moves)
  {
    FlavorKeysApart(key);
    moves := [];
    var rest := place.kinds;
    while rest != {}
      invariant rest <= place.kinds && Once(moves)
      invariant forall i :: 0 <= i < |moves| ==> exists fl :: fl in place.kinds - rest && moves[i].0 == CompanionKey(key, fl)
      invariant forall k, n :: (k, n) in moves <==>
        exists fl :: fl in place.kinds - rest && k == CompanionKey(key, fl) && k in files.files && n == newKey + k[|key|..]
      decreases rest
    {
      var fl :| fl in rest;
      rest := rest - {fl};
      var companion := CompanionKey(key, fl);
      if companion in files.files {
        moves := moves + [(companion, newKey + companion[|key|..])];
      }
    }
  }

  lemma CompanionsOfSource(place: Place, files: Contents, key: string, newKey: string, companions: seq<(string, string)>)
    requires !IsCompanionKey(key) && CompanionsListed(place, files, key, newKey, companions)
    ensures forall i :: 0 <= i < |companions| ==> IsCompanionKey(companions[i].0) && SourceOf(companions[i].0) == key
  {
    forall i | 0 <= i < |companions| ensures IsCompanionKey(companions[i].0) && SourceOf(companions[i].0) == key {
      assert (companions[i].0, companions[i].1) in companions;
      var fl :| fl in place.kinds && companions[i].0 == CompanionKey(key, fl);
      CompanionOf(key, fl);
    }
  }

  /** List the new key of every source and companion, unless one of the sources cannot move. */
  method PlanMoves(place: Place, files: PlaceFiles<File>, from: string, to: string, sources: seq<string>) returns (ok: bool, moves: seq<(string, string)>)
    requires files.Valid() && Sound(place) && Coherent(place, files.files) && Canonical(from) && Canonical(to)
    requires forall i, j :: 0 <= i < j < |sources| ==> sources[i] != sources[j]
    requires forall s :: s in sources ==> s in files.files && !IsCompanionKey(s) && Under(s, from)
    ensures ok <==> forall s :: s in sources ==> Movable(place, files.files, s)
    ensures ok ==> Once(moves) && PlannedFor(files.files, from, to, sources, moves)
  {
    hide Coherent, Sound, Canonical, CompanionKey, Rekey, Moving, Once, PlannedFor, SourcesUnder, Sources;
    NothingOnce();
    NothingPlanned(files.files, from, to, sources);
    ok, moves := true, [];
    for i := 0 to |sources|
      invariant ok && forall s :: s in sources[..i] ==> Movable(place, files.files, s)
      invariant PlannedFor(files.files, from, to, sources[..i], moves)
      invariant Once(moves) && forall j :: 0 <= j < |moves| ==> SourceOf(moves[j].0) in sources[..i]
    {
      var key := sources[i];
      assert key in sources;
      if !Movable(place, files.files, key) {
        return false, [];
      }
      var newKey := to + key[|from|..];
      var companions := CompanionMoves(place, files, key, newKey);
      PlanMore(place, files.files, from, to, sources, i, moves, companions);
      CompanionsOfSource(place, files.files, key, newKey, companions);
      OnceMore(sources, i, moves, newKey, companions);
      moves := moves + [(key, newKey)] + companions;
    }
    assert sources[..|sources|] == sources;
  }

  /** The complete list of moves of a directory rename, or the code that refuses it. Nothing is written. */
  method SubtreeMoves(place: Place, files: PlaceFiles<File>, from: string, to: string, creating: set<string>) returns (code: Option<Code>, moves: seq<(string, string)>)
    requires files.Valid() && Sound(place) && Coherent(place, files.files) && Canonical(from) && Canonical(to)
    ensures code == CheckSubtree(place, files.files, creating, from, to)
    ensures code.None? ==> Once(moves) && if to == from then moves == [] else Planned(files.files, from, to, moves)
  {
    hide Coherent, Sound, Canonical, Namespace.CheckHierarchy, CompanionKey, Rekey, Moving, Once;
    NothingOnce();
    CanonicalIsDir(from);
    moves := [];
    var sources := files.KeysUnder(from);
    ListsChildren(files.files, from, sources);
    if sources == [] {
      return Some(ENOENT), [];
    }
    if to == from {
      return None, [];
    }
    UnderIsPrefix(to, from);
    if from + "/" <= to {
      return Some(EINVAL), [];
    }
    CanonicalIsSource(to);
    if to in files.files {
      return Some(ENOTDIR), [];
    }
    var directory := files.IsDirectory(to);
    if directory {
      return Some(ENOTEMPTY), [];
    }
    code := CheckHierarchy(files, to, creating);
    if code.Some? {
      return;
    }
    hide IsDirectory, SourcesUnder, Sources;
    var ok;
    ok, moves := PlanMoves(place, files, from, to, sources);
    if !ok {
      return Some(ENOTSUP), [];
    }
    PlanAll(place, files.files, from, to, sources, moves);
  }

  // --- Carrying out the plan of a subtree rename ---

  ghost function Olds(moves: seq<(string, string)>): set<string> {
    set i | 0 <= i < |moves| :: moves[i].0
  }

  lemma OldsMore(moves: seq<(string, string)>, i: nat)
    requires i < |moves|
    ensures Olds(moves[..0]) == {} && Olds(moves[..i + 1]) == Olds(moves[..i]) + {moves[i].0}
  {
    var less, more := moves[..i], moves[..i + 1];
    forall k ensures k in Olds(more) <==> k in Olds(less) || k == moves[i].0 {
      if k in Olds(less) {
        var j :| 0 <= j < |less| && less[j].0 == k;
        assert more[j].0 == k;
      }
      if k == moves[i].0 {
        assert more[i].0 == k;
      }
    }
  }

  /** Every planned key is stored, no two go to one, and each goes where a key may be. */
  lemma PlanTargets(place: Place, files: Contents, from: string, to: string, moves: seq<(string, string)>)
    requires Sound(place) && Subtree.MayMove(place, files, from, to)
    requires if to == from then moves == [] else Planned(files, from, to, moves)
    ensures Olds(moves[..0]) == {}
    ensures forall i :: 0 <= i < |moves| ==> moves[i].0 in files && (IsCompanionKey(moves[i].1) || Rooted(moves[i].1))
    ensures forall i, j :: 0 <= i < |moves| && 0 <= j < |moves| && moves[i].1 == moves[j].1 ==> moves[i].0 == moves[j].0
  {
    forall i | 0 <= i < |moves| ensures moves[i].0 in files && (IsCompanionKey(moves[i].1) || Rooted(moves[i].1)) {
      assert (moves[i].0, moves[i].1) in moves;
      CanonicalIsSource(to);
      RekeyKeepsSource(from, to, moves[i].0);
      if !IsCompanionKey(moves[i].0) {
        CanonicalMoved(place, files, from, to, moves[i].0);
      }
    }
    forall i, j | 0 <= i < |moves| && 0 <= j < |moves| && moves[i].1 == moves[j].1 ensures moves[i].0 == moves[j].0 {
      assert (moves[i].0, moves[i].1) in moves && (moves[j].0, moves[j].1) in moves;
      RekeyInjective(place, files, from, to, moves[i].0, moves[j].0);
    }
  }

  /** Deleting the old keys and setting the new ones is the move. */
  lemma PlanDone(place: Place, files: Contents, from: string, to: string, moves: seq<(string, string)>, entries: Contents)
    requires Subtree.MayMove(place, files, from, to)
    requires if to == from then moves == [] else Planned(files, from, to, moves)
    requires forall i :: 0 <= i < |moves| ==> moves[i].0 in files
    requires forall n :: n in entries <==> exists j :: 0 <= j < |moves| && moves[j].1 == n
    requires forall j :: 0 <= j < |moves| ==> moves[j].1 in entries && entries[moves[j].1] == files[moves[j].0]
    ensures (files - Olds(moves)) + entries == MovedContents(files, from, to)
  {
    hide Subtree.MayMove, MovedContents, Planned;
    if to == from {
      PlanNowhere(place, files, from, to, entries);
      assert Olds(moves) == {};
    } else {
      PlanOlds(files, from, to, moves);
      PlanElsewhere(place, files, from, to, moves, entries);
    }
  }

  lemma PlanNowhere(place: Place, files: Contents, from: string, to: string, entries: Contents)
    requires Subtree.MayMove(place, files, from, to) && to == from && forall n :: n !in entries
    ensures (files - {}) + entries == MovedContents(files, from, to)
  {
    hide Subtree.MayMove, MovedContents;
    TreeIsApplied(place, files, from, to);
    assert entries == map[];
    assert Applied(files, map[]) == files;
    assert files - {} == files && files + map[] == files;
  }

  lemma PlanOlds(files: Contents, from: string, to: string, moves: seq<(string, string)>)
    requires Planned(files, from, to, moves)
    ensures Olds(moves) == Moving(files, from)
  {
    hide Rekey, Moving;
    forall k ensures k in Olds(moves) <==> k in Moving(files, from) {
      if k in Olds(moves) {
        var i :| 0 <= i < |moves| && moves[i].0 == k;
        assert (k, moves[i].1) in moves;
      }
      if k in Moving(files, from) {
        var i :| 0 <= i < |moves| && moves[i] == (k, Rekey(from, to, k));
        assert moves[i].0 == k;
      }
    }
  }

  lemma PlanElsewhere(place: Place, files: Contents, from: string, to: string, moves: seq<(string, string)>, entries: Contents)
    requires Subtree.MayMove(place, files, from, to) && to != from && Planned(files, from, to, moves)
    requires forall i :: 0 <= i < |moves| ==> moves[i].0 in files
    requires forall n :: n in entries <==> exists j :: 0 <= j < |moves| && moves[j].1 == n
    requires forall j :: 0 <= j < |moves| ==> moves[j].1 in entries && entries[moves[j].1] == files[moves[j].0]
    ensures (files - Moving(files, from)) + entries == MovedContents(files, from, to)
  {
    var a, b := (files - Moving(files, from)) + entries, MovedContents(files, from, to);
    hide Subtree.MayMove, MovedContents, Rekey, Moving, Planned;
    forall n
      ensures n in entries ==> n in b && entries[n] == b[n]
      ensures n in files && n !in Moving(files, from) ==> n in b && b[n] == files[n]
      ensures n in b ==> n in entries || (n in files && n !in Moving(files, from))
    {
      if n in entries {
        PlannedThere(place, files, from, to, moves, n);
      }
      if n in files && n !in Moving(files, from) {
        Unmoved(files, from, to);
        MovedAt(place, files, from, to, n);
      }
      if n in b {
        MovedPlanned(files, from, to, moves, n);
      }
    }
  }

  lemma PlannedThere(place: Place, files: Contents, from: string, to: string, moves: seq<(string, string)>, n: string)
    requires Subtree.MayMove(place, files, from, to) && Planned(files, from, to, moves)
    requires forall i :: 0 <= i < |moves| ==> moves[i].0 in files
    requires exists j :: 0 <= j < |moves| && moves[j].1 == n
    ensures n in MovedContents(files, from, to)
    ensures forall j :: 0 <= j < |moves| && moves[j].1 == n ==> files[moves[j].0] == MovedContents(files, from, to)[n]
  {
    hide Subtree.MayMove, MovedContents, Rekey, Moving;
    forall j | 0 <= j < |moves| && moves[j].1 == n ensures n in MovedContents(files, from, to) && files[moves[j].0] == MovedContents(files, from, to)[n] {
      assert (moves[j].0, moves[j].1) in moves;
      MovedAt(place, files, from, to, moves[j].0);
    }
  }

  lemma MovedPlanned(files: Contents, from: string, to: string, moves: seq<(string, string)>, n: string)
    requires Planned(files, from, to, moves) && n in MovedContents(files, from, to)
    ensures (exists j :: 0 <= j < |moves| && moves[j].1 == n) || (n in files && n !in Moving(files, from))
  {
    MovedKeysAre(files, from, to);
    Unmoved(files, from, to);
    hide MovedContents, Rekey, Moving;
    var k := OldKey(files, from, to, n);
    if k in Moving(files, from) {
      var j :| 0 <= j < |moves| && moves[j] == (k, Rekey(from, to, k));
      assert moves[j].1 == n;
    }
  }

  lemma Unmoved(files: Contents, from: string, to: string)
    ensures forall k :: k in files && k !in Moving(files, from) ==> Rekey(from, to, k) == k
    ensures forall k :: k in Moving(files, from) ==> k in files
  {
  }
}
