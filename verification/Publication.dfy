/** Publishing, removing and moving the files of a virtual place, as changes of a key-to-file map. */
module Publication {
  import opened Layout
  import opened Paths
  import opened Companion
  import opened Namespace

  /** Content, modification time, and what a preparer attached (script options, metadata). */
  datatype File = File(data: seq<byte>, mtime: int, extras: Option<nat>)

  type Contents = map<string, File>

  /**
   * What the configuration of a place makes of its keys. Preparers, the compiler and the codecs
   * are arbitrary functions; `build` fails on a source it cannot turn into that companion.
   */
  datatype Place = Place(
    prepared: string -> bool,
    prepare: (string, seq<byte>) -> Option<(seq<byte>, Option<nat>)>,
    flavors: string -> set<Flavor>,
    kinds: set<Flavor>,
    build: (Flavor, string, File) -> Option<seq<byte>>)

  ghost function Sources(files: Contents): set<string> {
    set k | k in files && !IsCompanionKey(k)
  }

  // --- One source and its companions ---

  /** Canonical content of raw bytes under `key`; none when its preparer refuses them. */
  function Input(place: Place, key: string, raw: seq<byte>, mtime: int): Option<File> {
    if !place.prepared(key) then Some(File(raw, mtime, None)) else
    match place.prepare(key, raw)
    case None => None
    case Some((data, extras)) => Some(File(data, mtime, extras))
  }

  /** The publication is refused as a whole if and only if a required companion of it cannot be built. */
  predicate Compiles(place: Place, key: string, f: File) {
    Script in place.flavors(key) ==> place.build(Script, key, f).Some?
  }

  function CompanionKeys(place: Place, key: string): set<string> {
    set fl | fl in place.kinds :: CompanionKey(key, fl)
  }

  lemma FlavorKeysApart(key: string)
    ensures forall x, y :: CompanionKey(key, x) == CompanionKey(key, y) ==> x == y
  {
    forall x, y | CompanionKey(key, x) == CompanionKey(key, y) ensures x == y {
      assert CompanionKey(key, x)[|key| + 1..] == Tag(x) && CompanionKey(key, y)[|key| + 1..] == Tag(y);
      TagInjective(x, y);
    }
  }

  /** The companions built from one canonical source. */
  function Built(place: Place, key: string, f: File): Contents {
    FlavorKeysApart(key);
    map fl | fl in place.flavors(key) && place.build(fl, key, f).Some? ::
      CompanionKey(key, fl) := File(place.build(fl, key, f).value, f.mtime, None)
  }

  /** In place: the source is set, all its companions go, the fresh ones come. */
  function Published(place: Place, files: Contents, key: string, f: File): Contents {
    (files[key := f] - CompanionKeys(place, key)) + Built(place, key, f)
  }

  function Unpublished(place: Place, files: Contents, key: string): Contents {
    files - {key} - CompanionKeys(place, key)
  }

  // --- The same as an epoch ---

  type Changes = map<string, Option<File>>

  function Applied(files: Contents, ch: Changes): Contents {
    map k | k in files.Keys + ch.Keys && (k in ch ==> ch[k].Some?) :: if k in ch then ch[k].value else files[k]
  }

  /** `#storeShared`: the source, the companions it gets, and the removal of those that failed. */
  function PublishChanges(place: Place, key: string, f: File): Changes {
    FlavorKeysApart(key);
    map[key := Some(f)] +
    map fl | fl in place.flavors(key) ::
      CompanionKey(key, fl) := match place.build(fl, key, f)
        case None => None
        case Some(data) => Some(File(data, f.mtime, None))
  }

  /** The changes of `#unstage`: `None` at the source and at each key derived from it. */
  function UnstageChanges(place: Place, key: string): Changes {
    map k | k in {key} + CompanionKeys(place, key) :: None
  }

  function WithCompanions(place: Place, keys: set<string>): set<string> {
    keys + set key, fl | key in keys && fl in place.kinds :: CompanionKey(key, fl)
  }

  function UnstageAll(place: Place, keys: set<string>): Changes {
    map k | k in WithCompanions(place, keys) :: None
  }

  // --- What holds between mutations ---

  /** The companions of `key` are exactly those its published source yields. */
  ghost predicate CompanionsOf(place: Place, files: Contents, key: string)
    requires key in files
  {
    && Compiles(place, key, files[key])
    && forall fl :: fl in place.flavors(key) ==>
         && (CompanionKey(key, fl) in files <==> place.build(fl, key, files[key]).Some?)
         && (CompanionKey(key, fl) in files ==>
              files[CompanionKey(key, fl)] == File(place.build(fl, key, files[key]).value, files[key].mtime, None))
  }

  ghost predicate NoOrphans(place: Place, files: Contents) {
    forall c :: c in files && IsCompanionKey(c) ==> Belongs(place, files, c)
  }

  ghost predicate Belongs(place: Place, files: Contents, c: string) {
    exists key, fl :: key in files && !IsCompanionKey(key) && fl in place.flavors(key) && c == CompanionKey(key, fl)
  }

  ghost predicate Sound(place: Place) {
    && (forall key :: place.flavors(key) <= place.kinds)
    && (forall a, b :: BaseName(a) == BaseName(b) ==> place.prepared(a) == place.prepared(b) && place.flavors(a) == place.flavors(b))
    && (forall e, a, b, f :: place.build(Encoded(e), a, f) == place.build(Encoded(e), b, f))
  }

  /** Settings go by extension, so by the last name of a key. */
  function BaseName(key: string): string {
    key[LastIndexOf(key) + 1..]
  }

  ghost predicate Coherent(place: Place, files: Contents) {
    && (forall key :: key in files && !IsCompanionKey(key) ==>
         Canonical(key) && (!place.prepared(key) ==> files[key].extras.None?) && CompanionsOf(place, files, key))
    && NoOrphans(place, files)
    && Antichain(Sources(files))
  }

  // --- Where a publication lands ---

  /** A publication sets its source, replaces the companions of that source, and nothing else. */
  lemma PublishedAt(place: Place, files: Contents, key: string, f: File, k: string)
    requires !IsCompanionKey(key) && place.flavors(key) <= place.kinds
    ensures var after := Published(place, files, key, f);
      && after[key] == f
      && (k != key && k !in CompanionKeys(place, key) ==> (k in after <==> k in files) && (k in files ==> after[k] == files[k]))
    ensures forall fl :: fl in place.kinds ==>
      var after, c := Published(place, files, key, f), CompanionKey(key, fl);
      && (c in after <==> fl in place.flavors(key) && place.build(fl, key, f).Some?)
      && (c in after ==> after[c] == File(place.build(fl, key, f).value, f.mtime, None))
  {
    FlavorKeysApart(key);
    forall fl ensures CompanionKey(key, fl) != key {
      CompanionOf(key, fl);
    }
  }

  lemma ChangesAt(place: Place, key: string, f: File, k: string)
    requires !IsCompanionKey(key)
    ensures var ch := PublishChanges(place, key, f);
      && key in ch && ch[key] == Some(f)
      && (k in ch ==> k == key || exists fl :: fl in place.flavors(key) && k == CompanionKey(key, fl))
    ensures forall fl :: fl in place.flavors(key) ==>
      var ch, c := PublishChanges(place, key, f), CompanionKey(key, fl);
      c in ch && ch[c] == (if place.build(fl, key, f).Some? then Some(File(place.build(fl, key, f).value, f.mtime, None)) else None)
  {
    FlavorKeysApart(key);
    forall fl ensures CompanionKey(key, fl) != key {
      CompanionOf(key, fl);
    }
  }

  /** A companion of `key` the configuration does not build for it is not there. */
  lemma NoStray(place: Place, files: Contents, key: string, fl: Flavor)
    requires NoOrphans(place, files) && !IsCompanionKey(key) && CompanionKey(key, fl) in files
    ensures key in files && fl in place.flavors(key)
  {
    CompanionOf(key, fl);
    var s, x :| s in files && !IsCompanionKey(s) && x in place.flavors(s) && CompanionKey(key, fl) == CompanionKey(s, x);
    CompanionsApart(key, fl, s, x);
  }

  /** Committing the epoch of a publication does what the Map sink does in place. */
  lemma PublishedIsApplied(place: Place, files: Contents, key: string, f: File)
    requires NoOrphans(place, files) && !IsCompanionKey(key) && place.flavors(key) <= place.kinds
    ensures Applied(files, PublishChanges(place, key, f)) == Published(place, files, key, f)
  {
    var a, b := Applied(files, PublishChanges(place, key, f)), Published(place, files, key, f);
    forall k ensures k in a <==> k in b
      ensures k in a ==> a[k] == b[k]
    {
      PublishedAt(place, files, key, f, k);
      ChangesAt(place, key, f, k);
      hide Published, PublishChanges;
      if k in CompanionKeys(place, key) {
        var fl :| fl in place.kinds && k == CompanionKey(key, fl);
        CompanionOf(key, fl);
        FlavorKeysApart(key);
        if fl !in place.flavors(key) && k in files {
          NoStray(place, files, key, fl);
        }
      }
    }
  }

  lemma UnpublishedIsApplied(place: Place, files: Contents, key: string)
    ensures Applied(files, UnstageChanges(place, key)) == Unpublished(place, files, key)
  {
  }

  // --- Epochs add up ---

  lemma AppliedThen(files: Contents, a: Changes, b: Changes)
    ensures Applied(files, a + b) == Applied(Applied(files, a), b)
  {
  }

  // --- Publishing and removing keep source and companions together ---

  /** In a coherent place the companions of a source are exactly those it yields. */
  lemma CompanionsPinned(place: Place, files: Contents, key: string, fl: Flavor)
    requires Coherent(place, files) && key in files && !IsCompanionKey(key)
    ensures CompanionKey(key, fl) in files <==> fl in place.flavors(key) && place.build(fl, key, files[key]).Some?
    ensures CompanionKey(key, fl) in files ==>
      files[CompanionKey(key, fl)] == File(place.build(fl, key, files[key]).value, files[key].mtime, None)
  {
    assert CompanionsOf(place, files, key);
    hide Canonical, Antichain;
    if CompanionKey(key, fl) in files {
      NoStray(place, files, key, fl);
    }
  }

  /** The companion keys of `key` are of no other source. */
  lemma OwnCompanionsOnly(place: Place, key: string)
    requires !IsCompanionKey(key)
    ensures forall c :: c in CompanionKeys(place, key) ==> IsCompanionKey(c) && SourceOf(c) == key
    ensures forall s, fl :: !IsCompanionKey(s) && s != key ==> CompanionKey(s, fl) !in CompanionKeys(place, key)
  {
    forall c | c in CompanionKeys(place, key) ensures IsCompanionKey(c) && SourceOf(c) == key {
      var fl :| fl in place.kinds && c == CompanionKey(key, fl);
      CompanionOf(key, fl);
    }
    forall s, fl | !IsCompanionKey(s) && s != key ensures CompanionKey(s, fl) !in CompanionKeys(place, key) {
      CompanionOf(s, fl);
    }
  }

  /** The frame of a publication: keys derived from other sources keep their file. */
  lemma PublishedElsewhere(place: Place, files: Contents, key: string, f: File)
    requires !IsCompanionKey(key) && place.flavors(key) <= place.kinds
    ensures var after := Published(place, files, key, f);
      && key in after && after[key] == f
      && (forall k :: k != key && k !in CompanionKeys(place, key) ==> (k in after <==> k in files) && (k in files ==> after[k] == files[k]))
  {
    forall k | k != key && k !in CompanionKeys(place, key)
      ensures var after := Published(place, files, key, f); (k in after <==> k in files) && (k in files ==> after[k] == files[k])
    {
      PublishedAt(place, files, key, f, k);
    }
    PublishedAt(place, files, key, f, key);
    hide Published;
  }

  lemma PublishedSources(place: Place, files: Contents, key: string, f: File)
    requires !IsCompanionKey(key) && place.flavors(key) <= place.kinds
    ensures Sources(Published(place, files, key, f)) == Sources(files) + {key}
    ensures forall s :: s in files && !IsCompanionKey(s) && s != key ==> Published(place, files, key, f)[s] == files[s]
    ensures forall s, fl :: !IsCompanionKey(s) && s != key ==>
      var after, c := Published(place, files, key, f), CompanionKey(s, fl);
      (c in after <==> c in files) && (c in files ==> after[c] == files[c])
  {
    PublishedElsewhere(place, files, key, f);
    OwnCompanionsOnly(place, key);
    forall s, fl | !IsCompanionKey(s) ensures CompanionKey(s, fl) != key {
      CompanionOf(s, fl);
    }
    hide Published, CompanionKeys, CompanionKey;
  }

  lemma PublishKeepsOthers(place: Place, files: Contents, key: string, f: File, s: string)
    requires !IsCompanionKey(key) && place.flavors(key) <= place.kinds
    requires s in files && !IsCompanionKey(s) && s != key && CompanionsOf(place, files, s)
    ensures s in Published(place, files, key, f) && CompanionsOf(place, Published(place, files, key, f), s)
  {
    PublishedSources(place, files, key, f);
    assert s in Sources(Published(place, files, key, f));
    hide Published, CompanionKey;
  }

  lemma PublishLeavesNoOrphans(place: Place, files: Contents, key: string, f: File)
    requires NoOrphans(place, files) && !IsCompanionKey(key) && place.flavors(key) <= place.kinds
    ensures NoOrphans(place, Published(place, files, key, f))
  {
    var after := Published(place, files, key, f);
    PublishedSources(place, files, key, f);
    PublishedElsewhere(place, files, key, f);
    forall c | c in after && IsCompanionKey(c) ensures Belongs(place, after, c) {
      if c in CompanionKeys(place, key) {
        var fl :| fl in place.kinds && c == CompanionKey(key, fl);
        PublishedAt(place, files, key, f, c);
        assert fl in place.flavors(key);
      } else {
        assert Belongs(place, files, c);
        var s, fl :| s in files && !IsCompanionKey(s) && fl in place.flavors(s) && c == CompanionKey(s, fl);
        assert s in Sources(after);
      }
    }
  }

  lemma PublishKeepsCoherent(place: Place, files: Contents, key: string, raw: seq<byte>, mtime: int, f: File)
    requires Sound(place) && Coherent(place, files) && Canonical(key)
    requires CheckHierarchy(Sources(files), {}, key).None? && Input(place, key, raw, mtime) == Some(f) && Compiles(place, key, f)
    ensures Coherent(place, Published(place, files, key, f))
    ensures Sources(Published(place, files, key, f)) == Sources(files) + {key}
  {
    CanonicalIsSource(key);
    assert Sources(files) + {} == Sources(files);
    assert AllCanonical(Sources(files));
    CreateKeepsAntichain(Sources(files), {}, key);
    var after := Published(place, files, key, f);
    PublishedSources(place, files, key, f);
    PublishedElsewhere(place, files, key, f);
    PublishLeavesNoOrphans(place, files, key, f);
    forall fl | fl in place.kinds
      ensures var c := CompanionKey(key, fl);
        (c in after <==> fl in place.flavors(key) && place.build(fl, key, f).Some?) && (c in after ==> after[c] == File(place.build(fl, key, f).value, f.mtime, None))
    {
      PublishedAt(place, files, key, f, key);
    }
    assert CompanionsOf(place, after, key);
    hide Published, CompanionsOf, NoOrphans, Canonical, Antichain, CheckHierarchy;
    forall s | s in after && !IsCompanionKey(s)
      ensures Canonical(s) && (!place.prepared(s) ==> after[s].extras.None?) && CompanionsOf(place, after, s)
    {
      assert s in Sources(after);
      if s != key {
        assert s in Sources(files);
        PublishKeepsOthers(place, files, key, f, s);
      }
    }
  }

  /** Removing sources removes their companions and no others. */
  lemma OthersStay(place: Place, gone: set<string>)
    requires forall k :: k in gone ==> !IsCompanionKey(k)
    ensures forall s :: !IsCompanionKey(s) ==> (s in WithCompanions(place, gone) <==> s in gone)
    ensures forall s, fl :: !IsCompanionKey(s) && fl in place.kinds ==> (CompanionKey(s, fl) in WithCompanions(place, gone) <==> s in gone)
  {
    forall c | c in WithCompanions(place, gone) ensures c in gone || (IsCompanionKey(c) && SourceOf(c) in gone) {
      if c !in gone {
        var key, fl :| key in gone && fl in place.kinds && c == CompanionKey(key, fl);
        CompanionOf(key, fl);
      }
    }
    forall s, fl | !IsCompanionKey(s) && fl in place.kinds
      ensures CompanionKey(s, fl) in WithCompanions(place, gone) <==> s in gone
    {
      CompanionOf(s, fl);
    }
  }

  /** `after` is `files` without `gone` and all their companions. */
  ghost predicate Less(place: Place, files: Contents, gone: set<string>, after: Contents) {
    && (forall k :: k in after ==> k in files && after[k] == files[k])
    && (forall s :: s in files && !IsCompanionKey(s) ==> (s in after <==> s !in gone))
    && (forall s, fl :: !IsCompanionKey(s) && fl in place.kinds && CompanionKey(s, fl) in files ==> (CompanionKey(s, fl) in after <==> s !in gone))
  }

  lemma UnstagedLess(place: Place, files: Contents, gone: set<string>)
    requires forall k :: k in gone ==> !IsCompanionKey(k)
    ensures Less(place, files, gone, Applied(files, UnstageAll(place, gone)))
  {
    OthersStay(place, gone);
    hide WithCompanions, CompanionKey, IsCompanionKey;
  }

  lemma LessKeepsCompanions(place: Place, files: Contents, gone: set<string>, after: Contents, s: string)
    requires Less(place, files, gone, after) && place.flavors(s) <= place.kinds
    requires s in after && !IsCompanionKey(s) && s in files && CompanionsOf(place, files, s)
    ensures CompanionsOf(place, after, s)
  {
    hide CompanionKey, IsCompanionKey;
  }

  lemma LessLeavesNoOrphans(place: Place, files: Contents, gone: set<string>, after: Contents)
    requires Less(place, files, gone, after) && NoOrphans(place, files) && forall key :: place.flavors(key) <= place.kinds
    ensures NoOrphans(place, after)
  {
    hide CompanionKey, IsCompanionKey;
    forall c | c in after && IsCompanionKey(c) ensures Belongs(place, after, c) {
      assert Belongs(place, files, c);
      var s, fl :| s in files && !IsCompanionKey(s) && fl in place.flavors(s) && c == CompanionKey(s, fl);
      assert s in after;
    }
  }

  lemma UnpublishKeepsCoherent(place: Place, files: Contents, gone: set<string>)
    requires Sound(place) && Coherent(place, files) && forall k :: k in gone ==> !IsCompanionKey(k)
    ensures Coherent(place, Applied(files, UnstageAll(place, gone)))
    ensures Sources(Applied(files, UnstageAll(place, gone))) == Sources(files) - gone
  {
    var after := Applied(files, UnstageAll(place, gone));
    UnstagedLess(place, files, gone);
    LessLeavesNoOrphans(place, files, gone, after);
    hide Applied, UnstageAll, Canonical, NoOrphans, CompanionsOf, IsCompanionKey;
    forall s | s in after && !IsCompanionKey(s) ensures CompanionsOf(place, after, s) {
      LessKeepsCompanions(place, files, gone, after, s);
    }
    LessSources(files, gone, after);
    hide Sources, Sound;
    FewerApart(Sources(files), Sources(after));
  }

  /** What a removal leaves of the sources. */
  lemma LessSources(files: Contents, gone: set<string>, after: Contents)
    requires forall k :: !IsCompanionKey(k) ==> (k in after <==> k in files && k !in gone)
    ensures Sources(after) == Sources(files) - gone
  {
    hide IsCompanionKey;
  }

  lemma FewerApart(all: set<string>, fewer: set<string>)
    requires Antichain(all) && fewer <= all
    ensures Antichain(fewer)
  {
    hide Under;
  }

  // --- Renaming one file ---

  lemma UnstageOne(place: Place, key: string)
    ensures UnstageAll(place, {key}) == UnstageChanges(place, key)
  {
    assert WithCompanions(place, {key}) == {key} + CompanionKeys(place, key);
  }

  /** One epoch removes the old key and publishes the new one, as the Map sink does one after the other. */
  lemma RenamedIsApplied(place: Place, files: Contents, from: string, to: string, f: File)
    requires Sound(place) && Coherent(place, files) && !IsCompanionKey(from) && !IsCompanionKey(to)
    ensures from != to ==>
      Applied(files, UnstageChanges(place, from) + PublishChanges(place, to, f)) == Unpublished(place, Published(place, files, to, f), from)
    ensures from == to ==>
      Applied(files, UnstageChanges(place, from) + PublishChanges(place, to, f)) == Published(place, files, to, f)
  {
    hide Sound, Coherent, NoOrphans, PublishChanges, CompanionKeys, Built, UnstageChanges, Applied, IsCompanionKey;
    RemovedFirst(place, files, from, to);
    AppliedThen(files, UnstageChanges(place, from), PublishChanges(place, to, f));
    PublishedIsApplied(place, Unpublished(place, files, from), to, f);
    OwnCompanionsOnly(place, from);
    OwnCompanionsOnly(place, to);
    BuiltAmong(place, to, f);
    var gone, ck, built := {from} + CompanionKeys(place, from), CompanionKeys(place, to), Built(place, to, f);
    SetWithout(files, gone, to, f, ck, built);
    RemoveTogether(files, from, CompanionKeys(place, from));
    RemoveTogether((files[to := f] - ck) + built, from, CompanionKeys(place, from));
  }

  lemma RemoveTogether(files: Contents, key: string, companions: set<string>)
    ensures files - {key} - companions == files - ({key} + companions)
  {
  }

  lemma RemovedFirst(place: Place, files: Contents, from: string, to: string)
    requires Sound(place) && Coherent(place, files) && !IsCompanionKey(from)
    ensures Applied(files, UnstageChanges(place, from)) == Unpublished(place, files, from)
    ensures NoOrphans(place, Unpublished(place, files, from)) && place.flavors(to) <= place.kinds
  {
    UnstageOne(place, from);
    UnpublishKeepsCoherent(place, files, {from});
    UnpublishedIsApplied(place, files, from);
    hide Applied, UnstageAll, UnstageChanges, NoOrphans, CompanionsOf, Canonical, Antichain;
  }

  lemma SetWithout(files: Contents, gone: set<string>, key: string, f: File, companions: set<string>, built: Contents)
    requires built.Keys <= companions
    ensures gone <= {key} + companions ==> ((files - gone)[key := f] - companions) + built == (files[key := f] - companions) + built
    ensures key !in gone && gone !! companions ==>
      ((files - gone)[key := f] - companions) + built == ((files[key := f] - companions) + built) - gone
  {
  }

  lemma BuiltAmong(place: Place, key: string, f: File)
    requires place.flavors(key) <= place.kinds
    ensures Built(place, key, f).Keys <= CompanionKeys(place, key)
  {
  }

  /** Publishing a coherent source again under its own key changes nothing. */
  lemma RepublishedSame(place: Place, files: Contents, key: string)
    requires Sound(place) && Coherent(place, files) && key in files && !IsCompanionKey(key)
    ensures Published(place, files, key, files[key]) == files
  {
    var f := files[key];
    var after := Published(place, files, key, f);
    PublishedElsewhere(place, files, key, f);
    hide Canonical, Antichain, NoOrphans, CompanionsOf;
    forall k | k in CompanionKeys(place, key) ensures (k in after <==> k in files) && (k in files ==> after[k] == files[k]) {
      var fl :| fl in place.kinds && k == CompanionKey(key, fl);
      PublishedAt(place, files, key, f, k);
      CompanionsPinned(place, files, key, fl);
    }
    hide Published, CompanionKeys, Coherent;
  }
}
