/** The keys mutations accept. */
module CanonicalKeys {
  import opened Layout
  import opened Paths
  import opened Namespace

  /** The parts of `s` between slashes. */
  function Names(s: string): (names: seq<string>)
    ensures names != []
    decreases |s|
  {
    var at := IndexOf(s, 0);
    if at == -1 then [s] else [s[..at]] + Names(s[at + 1..])
  }

  predicate BadName(name: string) {
    name == "" || name == "." || name == ".."
  }

  function Rooted(key: string): string {
    if |key| > 0 && key[0] == '/' then key else "/" + key
  }

  /** The rooted spelling of `key` if all of its names are valid, or nothing. */
  function CanonicalKey(key: string): Option<string> {
    if SEP in key || '\\' in key then None
    else if exists i :: 0 <= i < |Names(Rooted(key)[1..])| && BadName(Names(Rooted(key)[1..])[i]) then None
    else Some(Rooted(key))
  }

  lemma {:induction false} NamesNoSlash(s: string, i: nat)
    requires i < |Names(s)|
    ensures NoSlash(Names(s)[i])
    decreases |s|
  {
    var at := IndexOf(s, 0);
    if at != -1 && i > 0 {
      NamesNoSlash(s[at + 1..], i - 1);
    }
  }

  /** The last name is empty exactly when the string ends with a slash or is empty. */
  lemma {:induction false} LastName(s: string)
    ensures Names(s)[|Names(s)| - 1] == "" <==> s == "" || s[|s| - 1] == '/'
    decreases |s|
  {
    hide Names, IndexOf;
    var at := IndexOf(s, 0);
    NamesOf(s);
    if at != -1 {
      var rest := s[at + 1..];
      LastName(rest);
      SameLast([s[..at]], Names(rest));
      assert rest != "" ==> s[|s| - 1] == rest[|rest| - 1];
    }
  }

  lemma SameLast(a: seq<string>, b: seq<string>)
    requires b != []
    ensures (a + b)[|a + b| - 1] == b[|b| - 1]
  {
  }

  lemma NamesOf(s: string)
    ensures Names(s) == var at := IndexOf(s, 0); if at == -1 then [s] else [s[..at]] + Names(s[at + 1..])
  {
    hide IndexOf;
  }

  function JoinAll(names: seq<string>): string {
    if names == [] then "" else if |names| == 1 then names[0] else names[0] + "/" + JoinAll(names[1..])
  }

  lemma JoinFirst(name: string, rest: seq<string>)
    requires rest != []
    ensures JoinAll([name] + rest) == name + "/" + JoinAll(rest)
  {
    assert ([name] + rest)[1..] == rest;
  }

  /** Splitting loses nothing. */
  lemma {:induction false} SplitThenJoin(s: string)
    ensures JoinAll(Names(s)) == s
    decreases |s|
  {
    var at := IndexOf(s, 0);
    if at != -1 {
      SplitThenJoin(s[at + 1..]);
      JoinFirst(s[..at], Names(s[at + 1..]));
      assert s == s[..at] + "/" + s[at + 1..];
    }
  }

  lemma RootedForm(key: string)
    requires CanonicalKey(key).Some?
    ensures Canonical(Rooted(key)) && SEP !in Rooted(key) && '\\' !in Rooted(key)
  {
    var rest := Rooted(key)[1..];
    LastName(rest);
    assert !BadName(Names(rest)[|Names(rest)| - 1]);
    assert forall x :: x in Rooted(key) ==> x == '/' || x in key;
  }

  /** What is accepted has the form every other check relies on, and a canonical key is its own canonical key. */
  lemma AcceptedIsCanonical(key: string)
    requires CanonicalKey(key).Some?
    ensures var c := CanonicalKey(key).value;
      && Canonical(c) && c == Rooted(key) && CanonicalKey(c) == Some(c)
      && c == "/" + JoinAll(Names(c[1..])) && forall i :: 0 <= i < |Names(c[1..])| ==> !BadName(Names(c[1..])[i]) && NoSlash(Names(c[1..])[i])
  {
    RootedForm(key);
    var rest := Rooted(key)[1..];
    SplitThenJoin(rest);
    assert Rooted(key) == "/" + rest;
    forall i | 0 <= i < |Names(rest)| ensures NoSlash(Names(rest)[i]) {
      NamesNoSlash(rest, i);
    }
    hide Names, JoinAll, NoSlash;
  }

  /** A name a file may have: something between slashes that neither stays nor goes up, and is fit for a path. */
  predicate GoodName(name: string) {
    && name != "" && name != "." && name != ".."
    && forall c :: c in name ==> c != '/' && c != '\\' && c != SEP
  }

  ghost predicate GoodNames(names: seq<string>) {
    names != [] && forall i :: 0 <= i < |names| ==> GoodName(names[i])
  }

  lemma {:induction false} JoinThenSplit(names: seq<string>)
    requires GoodNames(names)
    ensures Names(JoinAll(names)) == names
  {
    if |names| == 1 {
      NoSplit(names[0]);
    } else {
      hide GoodName, Names;
      JoinThenSplit(names[1..]);
      assert names == [names[0]] + names[1..];
      GoodHasNoSlash(names[0]);
      SplitOff(names[0], JoinAll(names[1..]));
    }
  }

  lemma GoodHasNoSlash(name: string)
    requires GoodName(name)
    ensures forall c :: c in name ==> c != '/'
  {
  }

  lemma {:induction false} JoinedGood(names: seq<string>)
    requires GoodNames(names)
    ensures JoinAll(names) != "" && JoinAll(names)[0] == names[0][0] && names[0][0] in names[0] && forall c :: c in JoinAll(names) ==> c != '\\' && c != SEP
  {
    if |names| > 1 {
      JoinedGood(names[1..]);
    }
  }

  lemma NoSplit(name: string)
    requires forall c :: c in name ==> c != '/'
    ensures Names(name) == [name]
  {
    forall i | 0 <= i < |name| ensures name[i] != '/' {
      assert name[i] in name;
    }
  }

  lemma SplitOff(name: string, rest: string)
    requires forall c :: c in name ==> c != '/'
    ensures Names(name + "/" + rest) == [name] + Names(rest)
  {
    var s := name + "/" + rest;
    forall i | 0 <= i < |name| ensures s[i] != '/' {
      assert s[i] == name[i] && name[i] in name;
    }
    assert s[|name|] == '/';
    assert s[..|name|] == name && s[|name| + 1..] == rest;
  }

  /** Exactly the paths made of good names are accepted, with a leading slash or without. */
  lemma AcceptedAre(key: string)
    ensures CanonicalKey(key).Some? <==> exists names :: GoodNames(names) && (key == JoinAll(names) || key == "/" + JoinAll(names))
    ensures forall names :: GoodNames(names) && (key == JoinAll(names) || key == "/" + JoinAll(names)) ==>
      CanonicalKey(key) == Some("/" + JoinAll(names))
  {
    if CanonicalKey(key).Some? {
      AcceptedNames(key);
    }
    forall names | GoodNames(names) && (key == JoinAll(names) || key == "/" + JoinAll(names))
      ensures CanonicalKey(key) == Some("/" + JoinAll(names))
    {
      JoinThenSplit(names);
      JoinedGood(names);
      assert Rooted(key) == "/" + JoinAll(names) && Rooted(key)[1..] == JoinAll(names);
    }
  }

  lemma AcceptedNames(key: string)
    requires CanonicalKey(key).Some?
    ensures exists names :: GoodNames(names) && (key == JoinAll(names) || key == "/" + JoinAll(names))
  {
    var rest := Rooted(key)[1..];
    var names := Names(rest);
    SplitThenJoin(rest);
    forall i | 0 <= i < |names| ensures GoodName(names[i]) {
      NamesNoSlash(rest, i);
      NameWithin(rest, i);
      assert !BadName(names[i]);
    }
    assert GoodNames(names);
    assert key == rest || key == "/" + rest;
  }

  lemma {:induction false} NameWithin(s: string, i: nat)
    requires i < |Names(s)|
    ensures forall c :: c in Names(s)[i] ==> c in s
    decreases |s|
  {
    var at := IndexOf(s, 0);
    if at != -1 && i > 0 {
      NameWithin(s[at + 1..], i - 1);
    }
  }

  /** Two spellings of one key differ in the leading slash only. */
  lemma SameKey(a: string, b: string)
    requires CanonicalKey(a).Some? && CanonicalKey(b).Some?
    ensures CanonicalKey(a) == CanonicalKey(b) <==> a == b || a == "/" + b || b == "/" + a
  {
    AcceptedIsCanonical(a);
    AcceptedIsCanonical(b);
    NoDoubleSlash(a);
    NoDoubleSlash(b);
    if Rooted(a) == Rooted(b) && a != b {
      assert ("/" + a)[1..] == a && ("/" + b)[1..] == b;
    }
  }

  lemma NoDoubleSlash(key: string)
    requires CanonicalKey(key).Some?
    ensures |Rooted(key)| > 1 && Rooted(key)[1] != '/'
  {
    FirstName(Rooted(key)[1..]);
    assert !BadName(Names(Rooted(key)[1..])[0]);
  }

  lemma FirstName(s: string)
    ensures Names(s)[0] == "" <==> s == "" || s[0] == '/'
  {
  }

  /** The loop over the names. */
  method CanonicalKeyOf(key: string) returns (canonical: Option<string>)
    ensures canonical == CanonicalKey(key)
  {
    if SEP in key || '\\' in key {
      return None;
    }
    var names := Names(Rooted(key)[1..]);
    for i := 0 to |names|
      invariant forall j :: 0 <= j < i ==> !BadName(names[j])
    {
      if BadName(names[i]) {
        return None;
      }
    }
    canonical := Some(Rooted(key));
  }
}
