/** Keys of the derivatives stored beside a source. */
module Companion {
  import opened Paths

  /** Cached code of the require and script domains, and compressed representations. */
  datatype Flavor = Require | Script | Encoded(encoding: string)

  function Tag(flavor: Flavor): string {
    match flavor
    case Require => "require:bytecode"
    case Script => "script:bytecode"
    case Encoded(encoding) => "fs:" + encoding
  }

  function CompanionKey(source: string, flavor: Flavor): string {
    source + [SEP] + Tag(flavor)
  }

  function FirstSep(key: string): (at: nat)
    ensures at <= |key| && (at < |key| ==> key[at] == SEP)
    ensures forall i :: 0 <= i < at ==> key[i] != SEP
  {
    if key == "" || key[0] == SEP then 0 else FirstSep(key[1..]) + 1
  }

  /** The source a key belongs to: what precedes its first NUL. */
  function SourceOf(key: string): string {
    key[..FirstSep(key)]
  }

  lemma FirstSepIs(key: string, at: nat)
    requires at <= |key| && (at < |key| ==> key[at] == SEP) && forall i :: 0 <= i < at ==> key[i] != SEP
    ensures FirstSep(key) == at
  {
    var first := FirstSep(key);
    assert first >= at && at >= first;
  }

  /** A companion key names its source and its flavor, and is no source key. */
  lemma CompanionOf(source: string, flavor: Flavor)
    requires !IsCompanionKey(source)
    ensures IsCompanionKey(CompanionKey(source, flavor))
    ensures SourceOf(CompanionKey(source, flavor)) == source
    ensures CompanionKey(source, flavor)[|source| + 1..] == Tag(flavor)
  {
    var key := CompanionKey(source, flavor);
    assert key[|source|] == SEP;
    assert forall i :: 0 <= i < |source| ==> key[i] == source[i] && source[i] in source;
    FirstSepIs(key, |source|);
  }

  lemma SourceOfSource(key: string)
    requires !IsCompanionKey(key)
    ensures SourceOf(key) == key
  {
    assert forall i :: 0 <= i < |key| ==> key[i] in key;
    FirstSepIs(key, |key|);
  }

  lemma TagInjective(a: Flavor, b: Flavor)
    requires Tag(a) == Tag(b)
    ensures a == b
  {
    assert Tag(a)[0] == Tag(b)[0];
    assert (Tag(a)[0] == 'f' <==> a.Encoded?) && (Tag(b)[0] == 'f' <==> b.Encoded?);
    if a.Encoded? {
      assert Tag(a)[3..] == a.encoding && Tag(b)[3..] == b.encoding;
    }
  }

  /** Different sources or flavors never share a companion key. */
  lemma CompanionsApart(a: string, x: Flavor, b: string, y: Flavor)
    requires !IsCompanionKey(a) && !IsCompanionKey(b)
    ensures CompanionKey(a, x) == CompanionKey(b, y) <==> a == b && x == y
  {
    CompanionOf(a, x);
    CompanionOf(b, y);
    if CompanionKey(a, x) == CompanionKey(b, y) {
      TagInjective(x, y);
    }
  }

  /** Re-keying a companion by its suffix gives the companion of the new source. */
  lemma Rekeyed(source: string, flavor: Flavor, moved: string)
    ensures moved + CompanionKey(source, flavor)[|source|..] == CompanionKey(moved, flavor)
  {
    assert CompanionKey(source, flavor)[|source|..] == [SEP] + Tag(flavor);
    assert moved + ([SEP] + Tag(flavor)) == moved + [SEP] + Tag(flavor);
  }
}
