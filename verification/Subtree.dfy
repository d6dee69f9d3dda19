/** Renaming a directory: every source under it moves with its companions, bytes untouched, or none does. */
module Subtree {
  import opened Layout
  import opened Paths
  import opened Companion
  import opened Namespace
  import opened Publication

  /** The key after the move: sources under `from` and their companions are re-based under `to`. */
  function Rekey(from: string, to: string, key: string): string {
    if Under(SourceOf(key), from) then to + key[|from|..] else key
  }

  /** A source that moves as it is: raw, not compiled, nothing attached that may name its path. */
  predicate Movable(place: Place, files: Contents, key: string)
    requires key in files
  {
    !place.prepared(key) && Require !in place.flavors(key) && Script !in place.flavors(key) && files[key].extras.None?
  }

  ghost predicate AllMovable(place: Place, files: Contents, from: string) {
    forall k :: k in SourcesUnder(Sources(files), from) ==> Movable(place, files, k)
  }

  /** Why a subtree may not move, if so; a move onto itself asks for nothing. */
  ghost function CheckSubtree(place: Place, files: Contents, creating: set<string>, from: string, to: string): Option<Code> {
    match CheckMove(Sources(files), creating, from, to)
    case Some(code) => Some(code)
    case None => if to == from || AllMovable(place, files, from) then None else Some(ENOTSUP)
  }

  ghost function MovedContents(files: Contents, from: string, to: string): Contents {
    map n | n in NewKeys(files, from, to) :: files[OldKey(files, from, to, n)]
  }

  ghost function NewKeys(files: Contents, from: string, to: string): set<string> {
    set k | k in files :: Rekey(from, to, k)
  }

  ghost function OldKey(files: Contents, from: string, to: string, n: string): (k: string)
    requires n in NewKeys(files, from, to)
    ensures k in files && Rekey(from, to, k) == n
  {
    var k :| k in files && Rekey(from, to, k) == n;
    k
  }

  /** The keys that move, sources and companions. */
  ghost function Moving(files: Contents, from: string): set<string> {
    set k | k in files && Under(SourceOf(k), from)
  }

  /** The changes of a subtree rename: `None` at each moving key, its file at the image of the key. */
  ghost function TreeChanges(files: Contents, from: string, to: string): Changes {
    if to == from then map[] else
    map k | k in Moving(files, from) + (set m | m in Moving(files, from) :: Rekey(from, to, m)) ::
      if k in MovedContents(files, from, to) && k !in Moving(files, from) then Some(MovedContents(files, from, to)[k]) else None
  }

  // --- Re-keying ---

  lemma SourcePrefix(key: string)
    ensures |SourceOf(key)| <= |key| && key[..|SourceOf(key)|] == SourceOf(key)
    ensures !IsCompanionKey(SourceOf(key))
    ensures |SourceOf(key)| < |key| <==> IsCompanionKey(key)
  {
    var at := FirstSep(key);
    assert forall i :: 0 <= i < at ==> SourceOf(key)[i] == key[i];
    if IsCompanionKey(key) {
      var i :| 0 <= i < |key| && key[i] == SEP;
    }
  }

  /** A companion is re-keyed as its source is. */
  lemma RekeyKeepsSource(from: string, to: string, key: string)
    requires !IsCompanionKey(to)
    ensures SourceOf(Rekey(from, to, key)) == Rekey(from, to, SourceOf(key))
    ensures IsCompanionKey(Rekey(from, to, key)) <==> IsCompanionKey(key)
  {
    SourcePrefix(key);
    SourceOfSource(SourceOf(key));
    if Under(SourceOf(key), from) {
      var r, at := Rekey(from, to, key), |to| + FirstSep(key) - |from|;
      assert forall i :: 0 <= i < |to| ==> r[i] == to[i] && to[i] in to;
      assert forall i :: |to| <= i < |r| ==> r[i] == key[i - |to| + |from|];
      FirstSepIs(r, at);
      assert r[..at] == to + SourceOf(key)[|from|..];
      SourcePrefix(r);
    }
  }

  lemma RekeyCompanion(from: string, to: string, s: string, fl: Flavor)
    requires !IsCompanionKey(s)
    ensures Rekey(from, to, CompanionKey(s, fl)) == CompanionKey(Rekey(from, to, s), fl)
  {
    CompanionOf(s, fl);
    SourceOfSource(s);
    if Under(s, from) {
      assert CompanionKey(s, fl)[|from|..] == s[|from|..] + [SEP] + Tag(fl);
      assert to + (s[|from|..] + [SEP] + Tag(fl)) == to + s[|from|..] + [SEP] + Tag(fl);
    }
  }

  /** Whatever is stored belongs to a stored source. */
  lemma SourceIn(place: Place, files: Contents, k: string)
    requires NoOrphans(place, files) && k in files
    ensures SourceOf(k) in Sources(files)
  {
    if IsCompanionKey(k) {
      assert Belongs(place, files, k);
      var s, fl :| s in files && !IsCompanionKey(s) && fl in place.flavors(s) && k == CompanionKey(s, fl);
      CompanionOf(s, fl);
    } else {
      SourceOfSource(k);
    }
  }

  ghost predicate MayMove(place: Place, files: Contents, from: string, to: string) {
    && Coherent(place, files)
    && Canonical(from) && Canonical(to)
    && CheckMove(Sources(files), {}, from, to).None?
  }

  /** No two keys become one: the move merges nothing and overwrites nothing. */
  lemma RekeyInjective(place: Place, files: Contents, from: string, to: string, a: string, b: string)
    requires MayMove(place, files, from, to) && a in files && b in files
    ensures Rekey(from, to, a) == Rekey(from, to, b) <==> a == b
  {
    hide Canonical, Antichain, CompanionsOf, CheckMove;
    SourcePrefix(a);
    SourcePrefix(b);
    if to == from {
      RekeyNowhere(from, a);
      RekeyNowhere(from, b);
    } else if Under(SourceOf(a), from) && Under(SourceOf(b), from) {
      SameSuffix(from, to, a, b);
    } else if Under(SourceOf(a), from) {
      MovedElsewhere(place, files, from, to, a, b);
    } else if Under(SourceOf(b), from) {
      MovedElsewhere(place, files, from, to, b, a);
    }
  }

  lemma RekeyNowhere(from: string, key: string)
    ensures Rekey(from, from, key) == key
  {
    SourcePrefix(key);
    if Under(SourceOf(key), from) {
      assert key[..|from|] == key[..|SourceOf(key)|][..|from|] == from;
      assert key == key[..|from|] + key[|from|..];
    }
  }

  lemma SameSuffix(from: string, to: string, a: string, b: string)
    requires Under(SourceOf(a), from) && Under(SourceOf(b), from)
    ensures Rekey(from, to, a) == Rekey(from, to, b) ==> a == b
  {
    SourcePrefix(a);
    SourcePrefix(b);
    assert a[..|from|] == a[..|SourceOf(a)|][..|from|] == from;
    assert b[..|from|] == b[..|SourceOf(b)|][..|from|] == from;
    assert a == a[..|from|] + a[|from|..] && b == b[..|from|] + b[|from|..];
    assert Rekey(from, to, a)[|to|..] == a[|from|..] && Rekey(from, to, b)[|to|..] == b[|from|..];
  }

  /** What moves lands where nothing that stays is. */
  lemma MovedElsewhere(place: Place, files: Contents, from: string, to: string, a: string, b: string)
    requires MayMove(place, files, from, to) && to != from && a in files && b in files
    requires Under(SourceOf(a), from)
    ensures Rekey(from, to, a) != b
  {
    SourceIn(place, files, a);
    SourceIn(place, files, b);
    CanonicalIsSource(to);
    RekeyKeepsSource(from, to, a);
    SourceOfSource(SourceOf(a));
    SourcePrefix(a);
    UnmovedAside(Sources(files), from, to, SourceOf(a), SourceOf(b));
  }

  lemma MovedAt(place: Place, files: Contents, from: string, to: string, k: string)
    requires MayMove(place, files, from, to) && k in files
    ensures Rekey(from, to, k) in MovedContents(files, from, to) && MovedContents(files, from, to)[Rekey(from, to, k)] == files[k]
  {
    hide MayMove;
    var n := Rekey(from, to, k);
    RekeyInjective(place, files, from, to, k, OldKey(files, from, to, n));
  }

  /** The move is a bijection on contents. */
  lemma SubtreeRenameIsBijection(place: Place, files: Contents, from: string, to: string)
    requires MayMove(place, files, from, to)
    ensures forall a, b :: a in files && b in files && Rekey(from, to, a) == Rekey(from, to, b) ==> a == b
    ensures forall a, b :: a in files && Under(SourceOf(a), from) && b in files && to != from ==> Rekey(from, to, a) != b
    ensures forall k :: k in files ==>
      Rekey(from, to, k) in MovedContents(files, from, to) && MovedContents(files, from, to)[Rekey(from, to, k)] == files[k]
    ensures forall n :: n in MovedContents(files, from, to) ==> exists k :: k in files && Rekey(from, to, k) == n
    ensures |MovedContents(files, from, to)| == |files|
  {
    hide MayMove, MovedContents;
    forall a, b | a in files && b in files && Rekey(from, to, a) == Rekey(from, to, b) ensures a == b {
      RekeyInjective(place, files, from, to, a, b);
    }
    forall a, b | a in files && Under(SourceOf(a), from) && b in files && to != from ensures Rekey(from, to, a) != b {
      MovedElsewhere(place, files, from, to, a, b);
    }
    forall k | k in files
      ensures Rekey(from, to, k) in MovedContents(files, from, to) && MovedContents(files, from, to)[Rekey(from, to, k)] == files[k]
    {
      MovedAt(place, files, from, to, k);
    }
    MovedKeysAre(files, from, to);
    ImageSize(files.Keys, from, to);
    assert |MovedContents(files, from, to)| == |MovedContents(files, from, to).Keys|;
  }

  lemma MovedKeysAre(files: Contents, from: string, to: string)
    ensures MovedContents(files, from, to).Keys == NewKeys(files, from, to)
    ensures NewKeys(files, from, to) == set k | k in files.Keys :: Rekey(from, to, k)
  {
  }

  lemma {:induction false} ImageSize(keys: set<string>, from: string, to: string)
    requires forall a, b :: a in keys && b in keys && Rekey(from, to, a) == Rekey(from, to, b) ==> a == b
    ensures |set k | k in keys :: Rekey(from, to, k)| == |keys|
    decreases keys
  {
    hide Rekey;
    if keys != {} {
      var one :| one in keys;
      ImageSize(keys - {one}, from, to);
      var rest := set k | k in keys - {one} :: Rekey(from, to, k);
      assert (set k | k in keys :: Rekey(from, to, k)) == rest + {Rekey(from, to, one)};
    }
  }

  /** The companions of a source are those of the same source after the move. */
  lemma CompanionsMove(place: Place, files: Contents, from: string, to: string, s: string, fl: Flavor)
    requires MayMove(place, files, from, to) && s in files && !IsCompanionKey(s)
    ensures var after, n := MovedContents(files, from, to), CompanionKey(Rekey(from, to, s), fl);
      && (n in after <==> CompanionKey(s, fl) in files)
      && (n in after ==> after[n] == files[CompanionKey(s, fl)])
  {
    var after, c := MovedContents(files, from, to), CompanionKey(s, fl);
    CanonicalIsSource(to);
    RekeyCompanion(from, to, s, fl);
    MovedKeysAre(files, from, to);
    if c in files {
      MovedAt(place, files, from, to, c);
    }
    if Rekey(from, to, c) in after {
      var k :| k in files && Rekey(from, to, k) == Rekey(from, to, c);
      SameCompanion(place, files, from, to, s, fl, k);
    }
  }

  lemma SameCompanion(place: Place, files: Contents, from: string, to: string, s: string, fl: Flavor, k: string)
    requires MayMove(place, files, from, to) && s in files && !IsCompanionKey(s) && k in files
    requires Rekey(from, to, k) == Rekey(from, to, CompanionKey(s, fl))
    ensures k == CompanionKey(s, fl)
  {
    var c := CompanionKey(s, fl);
    CanonicalIsSource(to);
    CompanionOf(s, fl);
    SourceOfSource(s);
    RekeyKeepsSource(from, to, c);
    RekeyKeepsSource(from, to, k);
    hide Rekey, Canonical, Antichain, CompanionsOf, CheckMove, CompanionKey, MovedContents;
    assert Rekey(from, to, SourceOf(k)) == Rekey(from, to, s);
    SourceIn(place, files, k);
    RekeyInjective(place, files, from, to, SourceOf(k), s);
    assert Belongs(place, files, k);
    var t, x :| t in files && !IsCompanionKey(t) && x in place.flavors(t) && k == CompanionKey(t, x);
    CompanionOf(t, x);
    RekeyCompanion(from, to, s, x);
    RekeyCompanion(from, to, s, fl);
    CanonicalMoved(place, files, from, to, s);
    CompanionsApart(Rekey(from, to, s), x, Rekey(from, to, s), fl);
  }

  /** A moved source has a canonical key with the same last name. */
  lemma CanonicalMoved(place: Place, files: Contents, from: string, to: string, s: string)
    requires MayMove(place, files, from, to) && s in files && !IsCompanionKey(s)
    ensures Canonical(Rekey(from, to, s)) && !IsCompanionKey(Rekey(from, to, s))
    ensures BaseName(Rekey(from, to, s)) == BaseName(s)
  {
    SourceOfSource(s);
    assert s in files && !IsCompanionKey(s) && Canonical(s);
    CanonicalIsSource(to);
    RekeyKeepsSource(from, to, s);
    if Under(s, from) {
      MovedCanonical(from, to, s);
      SameBaseName(from, to, s);
    }
  }

  lemma SameBaseName(from: string, to: string, s: string)
    requires Under(s, from)
    ensures BaseName(to + s[|from|..]) == BaseName(s)
  {
    var n := to + s[|from|..];
    assert forall i :: |to| <= i < |n| ==> n[i] == s[i - |to| + |from|];
    assert s[|from|] == '/' && n[|to|] == '/';
    var at := LastIndexOf(s);
    assert at >= |from|;
    LastIs(n, at - |from| + |to|);
    assert n[at - |from| + |to| + 1..] == s[at + 1..];
  }

  lemma LastIs(s: string, at: nat)
    requires at < |s| && s[at] == '/' && forall i :: at < i < |s| ==> s[i] != '/'
    ensures LastIndexOf(s) == at
  {
    var last := LastIndexOf(s);
    assert last >= at && last <= at;
  }

  lemma MoveKeepsCoherent(place: Place, files: Contents, from: string, to: string)
    requires Sound(place) && MayMove(place, files, from, to) && (to == from || AllMovable(place, files, from))
    ensures Coherent(place, MovedContents(files, from, to))
    ensures Sources(MovedContents(files, from, to)) == MovedSources(Sources(files), from, to)
  {
    var after := MovedContents(files, from, to);
    MovedSourcesAre(place, files, from, to);
    MoveKeepsAntichain(Sources(files), from, to);
    forall n | n in after && !IsCompanionKey(n)
      ensures Canonical(n) && (!place.prepared(n) ==> after[n].extras.None?) && CompanionsOf(place, after, n)
    {
      var s := OldKey(files, from, to, n);
      MovedSource(place, files, from, to, s);
    }
    forall n | n in after && IsCompanionKey(n) ensures Belongs(place, after, n) {
      MovedBelongs(place, files, from, to, OldKey(files, from, to, n));
    }
  }

  lemma MovedSourcesAre(place: Place, files: Contents, from: string, to: string)
    requires MayMove(place, files, from, to)
    ensures Sources(MovedContents(files, from, to)) == MovedSources(Sources(files), from, to)
    ensures AllCanonical(Sources(files)) && Antichain(Sources(files))
  {
    CanonicalIsSource(to);
    hide MovedContents, Rekey, IsCompanionKey, Canonical, MovedSources, Under;
    MovedKeysAre(files, from, to);
    forall n ensures n in Sources(MovedContents(files, from, to)) <==> n in MovedSources(Sources(files), from, to) {
      MovedSourceIs(files, from, to, n);
    }
    hide CheckMove, CompanionsOf, NoOrphans, Antichain;
  }

  /** The sources after a move are the re-keyed sources. */
  lemma MovedSourceIs(files: Contents, from: string, to: string, n: string)
    requires !IsCompanionKey(to)
    ensures n in NewKeys(files, from, to) && !IsCompanionKey(n) <==> n in MovedSources(Sources(files), from, to)
  {
    hide IsCompanionKey;
    if n in NewKeys(files, from, to) && !IsCompanionKey(n) {
      var k := OldKey(files, from, to, n);
      SourceRekeyed(from, to, k);
    }
    if n in MovedSources(Sources(files), from, to) {
      var k :| k in Sources(files) && n == if Under(k, from) then MovedKey(from, to, k) else k;
      SourceRekeyed(from, to, k);
    }
  }

  lemma SourceRekeyed(from: string, to: string, k: string)
    requires !IsCompanionKey(to)
    ensures IsCompanionKey(Rekey(from, to, k)) <==> IsCompanionKey(k)
    ensures !IsCompanionKey(k) ==> Rekey(from, to, k) == if Under(k, from) then MovedKey(from, to, k) else k
  {
    RekeyKeepsSource(from, to, k);
    if !IsCompanionKey(k) {
      SourceOfSource(k);
    }
    hide IsCompanionKey;
  }

  lemma MovedSource(place: Place, files: Contents, from: string, to: string, s: string)
    requires Sound(place) && MayMove(place, files, from, to) && (to == from || AllMovable(place, files, from))
    requires s in files && !IsCompanionKey(Rekey(from, to, s))
    ensures var after, n := MovedContents(files, from, to), Rekey(from, to, s);
      && n in after && after[n] == files[s]
      && Canonical(n) && (!place.prepared(n) ==> after[n].extras.None?) && CompanionsOf(place, after, n)
  {
    CanonicalIsSource(to);
    RekeyKeepsSource(from, to, s);
    SourceOfSource(s);
    hide Rekey, MovedContents, CompanionKey, Sound, Canonical, CompanionsOf, IsCompanionKey, AllMovable;
    MovedAt(place, files, from, to, s);
    CanonicalMoved(place, files, from, to, s);
    MovedAlike(place, files, from, to, s);
    var after, n := MovedContents(files, from, to), Rekey(from, to, s);
    forall fl
      ensures CompanionKey(n, fl) in after <==> CompanionKey(s, fl) in files
      ensures CompanionKey(n, fl) in after ==> after[CompanionKey(n, fl)] == files[CompanionKey(s, fl)]
    {
      CompanionsMove(place, files, from, to, s, fl);
    }
    CompanionsCarried(place, files, s, after, n);
  }

  lemma CompanionsCarried(place: Place, files: Contents, s: string, after: Contents, n: string)
    requires s in files && n in after && after[n] == files[s] && CompanionsOf(place, files, s)
    requires place.flavors(n) == place.flavors(s) && forall fl :: fl in place.flavors(s) ==> place.build(fl, n, files[s]) == place.build(fl, s, files[s])
    requires forall fl :: CompanionKey(n, fl) in after <==> CompanionKey(s, fl) in files
    requires forall fl :: CompanionKey(n, fl) in after ==> after[CompanionKey(n, fl)] == files[CompanionKey(s, fl)]
    ensures CompanionsOf(place, after, n)
  {
    hide CompanionKey;
  }

  lemma SameSettings(place: Place, a: string, b: string)
    requires Sound(place) && BaseName(a) == BaseName(b)
    ensures place.prepared(a) == place.prepared(b) && place.flavors(a) == place.flavors(b)
  {
    hide BaseName;
  }

  lemma EncodedAlike(place: Place, a: string, b: string, f: File)
    requires Sound(place)
    ensures forall fl: Flavor :: fl.Encoded? ==> place.build(fl, a, f) == place.build(fl, b, f)
  {
    forall fl: Flavor | fl.Encoded? ensures place.build(fl, a, f) == place.build(fl, b, f) {
      assert fl == Encoded(fl.encoding);
    }
  }

  /** The pipeline treats a moved source as it did before: same settings, same companions. */
  lemma MovedAlike(place: Place, files: Contents, from: string, to: string, s: string)
    requires Sound(place) && MayMove(place, files, from, to) && (to == from || AllMovable(place, files, from))
    requires s in files && !IsCompanionKey(s)
    ensures var n := Rekey(from, to, s);
      && place.prepared(n) == place.prepared(s) && place.flavors(n) == place.flavors(s)
      && (forall fl :: fl in place.flavors(s) ==> place.build(fl, n, files[s]) == place.build(fl, s, files[s]))
  {
    hide Sound, Canonical, Antichain, CompanionsOf, NoOrphans, CheckMove, BaseName;
    CanonicalMoved(place, files, from, to, s);
    SourceOfSource(s);
    SameSettings(place, Rekey(from, to, s), s);
    if to == from {
      RekeyNowhere(from, s);
    } else if Under(s, from) {
      CanonicalIsDir(from);
      assert s in SourcesUnder(Sources(files), from);
      assert Movable(place, files, s);
      EncodedAlike(place, Rekey(from, to, s), s, files[s]);
    }
  }

  lemma MovedBelongs(place: Place, files: Contents, from: string, to: string, c: string)
    requires Sound(place) && MayMove(place, files, from, to) && (to == from || AllMovable(place, files, from))
    requires c in files && IsCompanionKey(Rekey(from, to, c))
    ensures Belongs(place, MovedContents(files, from, to), Rekey(from, to, c))
  {
    CanonicalIsSource(to);
    RekeyKeepsSource(from, to, c);
    assert Belongs(place, files, c);
    var s, fl :| s in files && !IsCompanionKey(s) && fl in place.flavors(s) && c == CompanionKey(s, fl);
    RekeyCompanion(from, to, s, fl);
    MovedAt(place, files, from, to, s);
    MovedAlike(place, files, from, to, s);
    CanonicalMoved(place, files, from, to, s);
  }

  /** One epoch moves the tree as the Map sink does in place. */
  lemma TreeIsApplied(place: Place, files: Contents, from: string, to: string)
    requires MayMove(place, files, from, to)
    ensures Applied(files, TreeChanges(files, from, to)) == MovedContents(files, from, to)
  {
    hide MayMove, MovedContents, SourceOf, Rekey, Moving, TreeChanges, Applied, NewKeys;
    MovedKeysAre(files, from, to);
    forall k | k in files
      ensures Rekey(from, to, k) in MovedContents(files, from, to) && MovedContents(files, from, to)[Rekey(from, to, k)] == files[k]
    {
      MovedAt(place, files, from, to, k);
    }
    if to == from {
      MovedNowhere(files, from);
    } else {
      forall m, k | m in Moving(files, from) && k in files ensures Rekey(from, to, m) != k {
        MovingFile(files, from, m);
        MovedElsewhere(place, files, from, to, m, k);
      }
      TreeElsewhere(files, from, to, MovedContents(files, from, to));
    }
  }

  lemma MovingFile(files: Contents, from: string, m: string)
    requires m in Moving(files, from)
    ensures m in files && Under(SourceOf(m), from)
  {
    hide SourceOf, Under;
  }

  /** A move onto itself changes nothing. */
  lemma MovedNowhere(files: Contents, from: string)
    requires forall k :: k in files ==>
      Rekey(from, from, k) in MovedContents(files, from, from) && MovedContents(files, from, from)[Rekey(from, from, k)] == files[k]
    ensures Applied(files, TreeChanges(files, from, from)) == MovedContents(files, from, from)
  {
    forall k ensures Rekey(from, from, k) == k {
      RekeyNowhere(from, k);
    }
    hide Rekey;
    MovedKeysAre(files, from, from);
    assert forall n :: n in MovedContents(files, from, from) ==> OldKey(files, from, from, n) == n;
    assert MovedContents(files, from, from) == files;
    hide MovedContents;
    assert Applied(files, map[]) == files;
  }

  lemma TreeElsewhere(files: Contents, from: string, to: string, after: Contents)
    requires to != from && after == MovedContents(files, from, to)
    requires after.Keys == NewKeys(files, from, to)
    requires forall k :: k in files ==> Rekey(from, to, k) in after && after[Rekey(from, to, k)] == files[k]
    requires forall m, k :: m in Moving(files, from) && k in files ==> Rekey(from, to, m) != k
    ensures Applied(files, TreeChanges(files, from, to)) == after
  {
    var moving := Moving(files, from);
    var images := set m | m in moving :: Rekey(from, to, m);
    assert forall k :: k in files && k !in moving ==> Rekey(from, to, k) == k;
    assert moving <= files.Keys;
    hide Rekey, Moving, MovedContents;
    forall n ensures n in after <==> n in images || (n in files && n !in moving) {
      if n in after {
        var k := OldKey(files, from, to, n);
      }
      if n in files && n !in moving {
        assert Rekey(from, to, n) == n;
      }
    }
    forall n | n in files && n !in moving ensures n in after && after[n] == files[n] {
      assert Rekey(from, to, n) == n;
    }
    Overwritten(files, moving, images, after);
  }

  lemma Overwritten(files: Contents, moving: set<string>, images: set<string>, after: Contents)
    requires moving <= files.Keys && images !! files.Keys && after.Keys == images + (files.Keys - moving)
    requires forall n :: n in files && n !in moving ==> after[n] == files[n]
    ensures Applied(files, map k | k in moving + images :: if k in after && k !in moving then Some(after[k]) else None) == after
  {
  }
}
