/** The antichain of source keys, and the checks that preserve it. */
module Namespace {
  import opened Layout
  import opened Paths

  datatype Code = ENOENT | ENOTDIR | EISDIR | ENOTEMPTY | EEXIST | ENOTSUP | EINVAL | NotRecursive

  /** A canonical source key: a leading slash, names between single slashes, no NUL. */
  predicate Canonical(key: string) {
    && |key| > 1 && key[0] == '/' && key[|key| - 1] != '/'
    && !IsCompanionKey(key)
  }

  /** A source or a key in flight lies strictly above `key`. */
  ghost predicate FileAbove(sources: set<string>, creating: set<string>, key: string) {
    exists p :: p in sources + creating && p != "" && Under(key, p)
  }

  /** `key` spells the root, or something lies under it. */
  ghost predicate IsDirectory(sources: set<string>, key: string) {
    DirOf(key) == "" || exists k :: k in sources && Under(k, DirOf(key))
  }

  ghost function SourcesUnder(sources: set<string>, key: string): set<string> {
    set k | k in sources && Under(k, DirOf(key))
  }

  /** Why `key` may not be created, if so. */
  ghost function CheckHierarchy(sources: set<string>, creating: set<string>, key: string): Option<Code> {
    if FileAbove(sources, creating, key) then Some(ENOTDIR)
    else if key in sources then None
    else if IsDirectory(sources, key) then Some(EISDIR)
    else if exists other :: other in creating && Under(other, key) then Some(EISDIR)
    else None
  }

  ghost function CheckExclusive(sources: set<string>, key: string): Option<Code> {
    if key in sources || IsDirectory(sources, key) then Some(EEXIST) else None
  }

  ghost function CheckMkdir(sources: set<string>, creating: set<string>, key: string, recursive: bool): Option<Code> {
    if key in sources || key in creating then Some(EEXIST)
    else if FileAbove(sources, creating, key) then Some(ENOTDIR)
    else if !recursive && IsDirectory(sources, key) then Some(EEXIST)
    else None
  }

  function AbsentCode(sources: set<string>, key: string): Code {
    if key in sources then ENOTDIR else ENOENT
  }

  /** Why the subtree `from` may not move to `to`, as far as names go. */
  ghost function CheckMove(sources: set<string>, creating: set<string>, from: string, to: string): Option<Code> {
    if SourcesUnder(sources, from) == {} then Some(ENOENT)
    else if to == from then None
    else if Under(to, from) then Some(EINVAL)
    else if to in sources then Some(ENOTDIR)
    else if IsDirectory(sources, to) then Some(ENOTEMPTY)
    else CheckHierarchy(sources, creating, to)
  }

  function MovedKey(from: string, to: string, key: string): string
    requires |from| <= |key|
  {
    to + key[|from|..]
  }

  ghost function MovedSources(sources: set<string>, from: string, to: string): set<string> {
    (set k | k in sources && !Under(k, from)) + (set k | k in sources && Under(k, from) :: MovedKey(from, to, k))
  }

  /** No key lies strictly below another. */
  ghost predicate Antichain(keys: set<string>) {
    forall a, b :: a in keys && b in keys ==> !Under(a, b)
  }

  ghost predicate AllCanonical(keys: set<string>) {
    forall k :: k in keys ==> Canonical(k)
  }

  lemma CanonicalIsDir(key: string)
    requires Canonical(key)
    ensures DirOf(key) == key
  {
  }

  /** However a directory is spelled, with slashes behind it or none before it, it is the same one. */
  lemma OneDirectory(dir: string, slashes: string)
    requires Canonical(dir) && dir[1] != '/' && forall c :: c in slashes ==> c == '/'
    ensures DirOf(dir + slashes) == dir && DirOf(dir[1..] + slashes) == dir && DirOf(slashes) == ""
  {
    TrimmedAway(dir, slashes);
    TrimmedAway(dir[1..], slashes);
    TrimmedAway("", slashes);
    assert "/" + dir[1..] == dir && "" + slashes == slashes;
  }

  lemma TrimmedAway(key: string, slashes: string)
    requires (key == "" || key[|key| - 1] != '/') && forall c :: c in slashes ==> c == '/'
    ensures Trimmed(key + slashes) == key
  {
    hide Trimmed;
    var all, r := key + slashes, Trimmed(key + slashes);
    assert all[..|key|] == key;
    assert key != "" ==> all[|key| - 1] == key[|key| - 1];
    forall i | |key| <= i < |all| ensures all[i] == '/' {
      assert all[i] == slashes[i - |key|] && slashes[i - |key|] in slashes;
    }
    assert r == all[..|r|];
    assert r != "" ==> r[|r| - 1] == all[|r| - 1];
  }

  lemma CanonicalIsSource(key: string)
    requires Canonical(key)
    ensures !IsCompanionKey(key) && key != ""
  {
  }

  lemma PathIsOneThing(sources: set<string>, path: string)
    requires AllCanonical(sources) && Antichain(sources) && path in sources
    ensures !IsDirectory(sources, path)
  {
    CanonicalIsDir(path);
  }

  /** A key that passes the check can be created. */
  lemma CreateKeepsAntichain(sources: set<string>, creating: set<string>, key: string)
    requires AllCanonical(sources + creating) && Antichain(sources + creating) && Canonical(key)
    requires CheckHierarchy(sources, creating, key).None?
    ensures Antichain(sources + creating + {key})
  {
    CanonicalIsDir(key);
    var all := sources + creating + {key};
    forall a, b | a in all && b in all ensures !Under(a, b) {
      if a == key && b != key {
        assert b in sources + creating && b != "";
      }
    }
  }

  /** The check refuses exactly the keys that cannot join the antichain, and says which side they clash on. */
  lemma CheckedIsApart(sources: set<string>, creating: set<string>, key: string)
    requires AllCanonical(sources + creating) && Antichain(sources + creating) && Canonical(key)
    ensures var code := CheckHierarchy(sources, creating, key);
      && (code.None? <==> Antichain(sources + creating + {key}))
      && (code == Some(ENOTDIR) <==> exists p :: p in sources + creating && Under(key, p))
      && (code == Some(EISDIR) <==> exists p :: p in sources + creating && Under(p, key))
  {
    CanonicalIsDir(key);
    var all := sources + creating + {key};
    if CheckHierarchy(sources, creating, key).None? {
      CreateKeepsAntichain(sources, creating, key);
    }
    forall p, q | p in sources + creating && q in sources + creating && Under(key, p) && Under(q, key) ensures Under(q, p) {
      UnderTransitive(q, key, p);
    }
    assert key in all && forall p :: p in sources + creating ==> p in all;
  }

  /** Moving keys re-bases them: what lies under `from` lies at the same place under `to`. */
  lemma MovedUnder(from: string, to: string, a: string, b: string)
    requires Under(a, from) && Under(b, from)
    ensures Under(MovedKey(from, to, a), MovedKey(from, to, b)) <==> Under(a, b)
    ensures MovedKey(from, to, a) == MovedKey(from, to, b) <==> a == b
    ensures Under(MovedKey(from, to, a), to)
  {
    var x, y := MovedKey(from, to, a), MovedKey(from, to, b);
    assert a == a[..|from|] + a[|from|..] && b == b[..|from|] + b[|from|..];
    assert x[..|to|] == to && y[..|to|] == to && x[|to|..] == a[|from|..] && y[|to|..] == b[|from|..];
    if |b| < |a| {
      assert x[..|y|] == to + a[|from|..|b|];
      assert a[..|b|] == from + a[|from|..|b|];
      assert x[|y|] == a[|b|];
      assert y == to + b[|from|..] && b == from + b[|from|..];
      assert a[..|b|][|from|..] == a[|from|..|b|] && x[..|y|][|to|..] == a[|from|..|b|];
    }
  }

  /** A subtree that passes the check moves without putting a file above or below another. */
  lemma MoveKeepsAntichain(sources: set<string>, from: string, to: string)
    requires AllCanonical(sources) && Antichain(sources) && Canonical(from) && Canonical(to)
    requires CheckMove(sources, {}, from, to).None?
    ensures Antichain(MovedSources(sources, from, to))
  {
    var after := MovedSources(sources, from, to);
    if to == from {
      MoveNowhere(sources, from);
    } else {
      forall a, b | a in after && b in after ensures !Under(a, b) {
        MovedApart(sources, from, to, a, b);
      }
    }
  }

  lemma MovedCanonical(from: string, to: string, key: string)
    requires Canonical(to) && Canonical(key) && Under(key, from)
    ensures Canonical(MovedKey(from, to, key))
  {
    var k := MovedKey(from, to, key);
    assert forall c :: c in k ==> c in to || c in key;
    assert k[|k| - 1] == key[|key| - 1];
  }

  lemma MoveNowhere(sources: set<string>, from: string)
    ensures MovedSources(sources, from, from) == sources
  {
    forall k | k in sources && Under(k, from) ensures MovedKey(from, from, k) == k {
      assert k == k[..|from|] + k[|from|..];
    }
  }

  lemma MovedApart(sources: set<string>, from: string, to: string, a: string, b: string)
    requires AllCanonical(sources) && Antichain(sources) && Canonical(from) && Canonical(to) && to != from
    requires CheckMove(sources, {}, from, to).None?
    requires a in MovedSources(sources, from, to) && b in MovedSources(sources, from, to)
    ensures !Under(a, b)
  {
    CanonicalIsDir(to);
    if !(a in sources && !Under(a, from)) {
      var k :| k in sources && Under(k, from) && a == MovedKey(from, to, k);
      if b in sources && !Under(b, from) {
        UnmovedAside(sources, from, to, k, b);
      } else {
        var h :| h in sources && Under(h, from) && b == MovedKey(from, to, h);
        MovedUnder(from, to, k, h);
      }
    } else if !(b in sources && !Under(b, from)) {
      var h :| h in sources && Under(h, from) && b == MovedKey(from, to, h);
      UnmovedAside(sources, from, to, h, a);
    }
  }

  /** A source that stays is neither above nor below, nor at, where one moves. */
  lemma UnmovedAside(sources: set<string>, from: string, to: string, moved: string, stays: string)
    requires AllCanonical(sources) && Canonical(from) && Canonical(to) && to != from
    requires CheckMove(sources, {}, from, to).None?
    requires moved in sources && Under(moved, from) && stays in sources
    ensures !Under(MovedKey(from, to, moved), stays) && !Under(stays, MovedKey(from, to, moved))
    ensures MovedKey(from, to, moved) != stays
  {
    CanonicalIsDir(to);
    MovedUnder(from, to, moved, moved);
    var n := MovedKey(from, to, moved);
    assert !Under(stays, to) && stays != to;
    assert stays != "" && !Under(to, stays);
    if Under(stays, n) {
      UnderTransitive(stays, n, to);
    }
    if Under(n, stays) {
      TwoAbove(n, to, stays);
    }
  }

  /** Two directories of one key: one is the other or lies below it. */
  lemma TwoAbove(key: string, a: string, b: string)
    requires Under(key, a) && Under(key, b)
    ensures a == b || Under(a, b) || Under(b, a)
  {
    if |a| < |b| {
      assert b[..|a|] == key[..|b|][..|a|] == key[..|a|];
      assert b[|a|] == key[|a|];
    } else if |b| < |a| {
      assert a[..|b|] == key[..|a|][..|b|] == key[..|b|];
      assert a[|b|] == key[|b|];
    }
  }
}
