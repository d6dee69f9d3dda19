/** Keys as paths: which keys lie at or below a path, and the helpers of string walking. */
module Paths {
  const SEP := '\U{0000}'

  /** Companions carry a NUL, which no source key can. */
  predicate IsCompanionKey(key: string) {
    SEP in key
  }

  /** The first '/' of `s` at or after `from`, or -1. */
  function IndexOf(s: string, from: nat): (at: int)
    requires from <= |s|
    ensures at == -1 || (from <= at < |s| && s[at] == '/')
    ensures forall i :: from <= i < (if at == -1 then |s| else at) ==> s[i] != '/'
    decreases |s| - from
  {
    if from == |s| then -1 else if s[from] == '/' then from else IndexOf(s, from + 1)
  }

  /** The last '/' of `s`, or -1. */
  function LastIndexOf(s: string): (at: int)
    ensures at == -1 || (0 <= at < |s| && s[at] == '/')
    ensures forall i :: at < i < |s| ==> s[i] != '/'
  {
    if s == "" then -1 else if s[|s| - 1] == '/' then |s| - 1 else LastIndexOf(s[..|s| - 1])
  }

  predicate NoSlash(name: string) {
    '/' !in name
  }

  function Join(dir: string, name: string): string {
    dir + "/" + name
  }

  /** `key` is a proper descendant of directory `dir`. */
  predicate Under(key: string, dir: string) {
    |dir| < |key| && key[..|dir|] == dir && key[|dir|] == '/'
  }

  /** `path` equals `key` or has it underneath. */
  predicate AtOrUnder(key: string, path: string) {
    key == path || Under(key, path)
  }

  ghost predicate Bears(sources: set<string>, path: string) {
    exists k :: k in sources && AtOrUnder(k, path)
  }

  lemma UnderIsPrefix(key: string, dir: string)
    ensures Under(key, dir) <==> dir + "/" <= key
  {
    if dir + "/" <= key {
      assert key[..|dir| + 1] == dir + "/";
      assert key[..|dir|] == key[..|dir| + 1][..|dir|];
    }
    if Under(key, dir) {
      assert key[..|dir| + 1] == key[..|dir|] + [key[|dir|]];
    }
  }

  lemma UnderTransitive(a: string, b: string, c: string)
    requires AtOrUnder(a, b) && Under(b, c)
    ensures Under(a, c)
  {
    if a != b {
      assert a[..|c|] == a[..|b|][..|c|];
      assert a[|c|] == a[..|b|][|c|];
    }
  }

  lemma JoinUnder(dir: string, name: string)
    ensures Under(Join(dir, name), dir)
  {
  }

  /** The name by which directory `dir` holds `key`. */
  function NameIn(key: string, dir: string): (name: string)
    requires Under(key, dir)
    ensures NoSlash(name) && AtOrUnder(key, Join(dir, name))
  {
    var next := IndexOf(key, |dir| + 1);
    var name := if next == -1 then key[|dir| + 1..] else key[|dir| + 1..next];
    assert Join(dir, name) == if next == -1 then key else key[..next];
    name
  }

  /** It is the only name without a slash that does. */
  lemma NameUnique(key: string, dir: string, name: string)
    requires NoSlash(name) && AtOrUnder(key, Join(dir, name))
    ensures Under(key, dir) && NameIn(key, dir) == name
  {
    JoinUnder(dir, name);
    UnderTransitive(key, Join(dir, name), dir);
    var n, next := Join(dir, name), IndexOf(key, |dir| + 1);
    assert forall i :: |dir| + 1 <= i < |n| ==> key[..|n|][i] == n[i] == name[i - |dir| - 1];
    assert key[..|n|] == n;
    if next == -1 {
      assert |key| == |n|;
      assert key[|dir| + 1..] == name;
    } else {
      assert next >= |n|;
      assert next == |n|;
      assert key[|dir| + 1..next] == name;
    }
  }

  /** Paths at or above `Join(dir, name)` other than itself are those at or above `dir`. */
  lemma AboveJoin(dir: string, name: string, path: string)
    requires NoSlash(name) && path != ""
    ensures AtOrUnder(Join(dir, name), path) <==> path == Join(dir, name) || AtOrUnder(dir, path)
  {
    var n := Join(dir, name);
    assert forall i :: |dir| < i < |n| ==> n[i] == name[i - |dir| - 1] && n[i] in name;
    assert n[..|dir|] == dir;
    if Under(n, path) && |path| < |dir| {
      assert dir[..|path|] == n[..|path|];
      assert dir[|path|] == n[|path|];
    }
    if AtOrUnder(dir, path) && path != n {
      JoinUnder(dir, name);
      if dir != path {
        assert n[..|path|] == dir[..|path|];
        assert n[|path|] == dir[|path|];
      }
    }
  }

  // --- Directory keys ---

  function Trimmed(key: string): (r: string)
    ensures r <= key && (r == "" || r[|r| - 1] != '/')
    ensures forall i :: |r| <= i < |key| ==> key[i] == '/'
  {
    if key != "" && key[|key| - 1] == '/' then Trimmed(key[..|key| - 1]) else key
  }

  /** One form per directory: trailing slashes dropped, the leading one added where missing. */
  function DirOf(key: string): (dir: string)
    ensures dir == "" || (dir[0] == '/' && dir[|dir| - 1] != '/')
  {
    var trimmed := Trimmed(key);
    if trimmed == "" || trimmed[0] == '/' then trimmed else "/" + trimmed
  }
}
