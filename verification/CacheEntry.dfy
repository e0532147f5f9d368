/**
  Entries of the control prediction cache and their validation.  Hashing, bundle
  parsing and prediction alignment are functions of a `World`; nothing is assumed
  about them here.
 */
module CacheEntry {
  import opened Options

  /** A relative POSIX path as its components. */
  type Path = seq<string>

  datatype Kind = ModelBundle | BundleMember | Predictions

  datatype Artifact = Artifact(path: Path, kind: Kind, sha: string, size: nat)

  /** Everything that identifies one fitted control and its predictions. */
  datatype Identity = Identity(
    plugin: string, config: string, commit: string, environment: string, seed: int, rung: string, split: string,
    fold: string, partition: string, trainFeature: string, trainTarget: string, applyFeature: string,
    provenance: seq<string>)

  datatype Manifest = Manifest(cacheKey: string, identity: Identity, artifacts: seq<Artifact>)

  /** The manifest file as a reader finds it. */
  datatype ManifestFile = Missing | Unreadable | Readable(manifest: Manifest)

  /** A directory tree below an entry root; `regular` says it holds no links or special files. */
  datatype Entry = Entry(regular: bool, manifest: ManifestFile, files: map<Path, string>, directories: set<Path>)

  datatype Member = Member(name: Path, sha: string, size: nat)

  datatype Bundle = Bundle(plugin: string, config: string, commit: string, dataView: string, schema: string, seed: int,
    primary: Path, members: seq<Member>)

  datatype World = World(
    sha: string -> string,
    key: Identity -> string,
    schema: string -> string,
    bundle: string -> Option<Bundle>,
    aligned: (string, string) -> bool)

  const BUNDLE_PATH: Path := ["bundle", "model_bundle.json"]
  const PREDICTIONS_PATH: Path := ["predictions.npz"]

  /** The directories above a path. */
  function Parents(p: Path): set<Path>
  {
    set i | 0 < i < |p| :: p[..i]
  }

  function Indexed(artifacts: seq<Artifact>): set<Path>
  {
    set a | a in artifacts :: a.path
  }

  function Directories(artifacts: seq<Artifact>): set<Path>
  {
    set a, d | a in artifacts && d in Parents(a.path) :: d
  }

  /** What the manifest model itself insists on. */
  predicate WellFormed(w: World, m: Manifest)
  {
    && |m.artifacts| >= 3
    && (forall i, j :: 0 <= i < j < |m.artifacts| ==> m.artifacts[i].path != m.artifacts[j].path)
    && m.cacheKey == w.key(m.identity)
  }

  predicate Intact(w: World, files: map<Path, string>, a: Artifact)
  {
    a.path in files && |files[a.path]| == a.size && w.sha(files[a.path]) == a.sha
  }

  function OfKind(artifacts: seq<Artifact>, kind: Kind): seq<Artifact>
  {
    if artifacts == [] then []
    else if artifacts[0].kind == kind then [artifacts[0]] + OfKind(artifacts[1..], kind)
    else OfKind(artifacts[1..], kind)
  }

  predicate CanonicalIndex(artifacts: seq<Artifact>)
  {
    var bundles, predictions := OfKind(artifacts, ModelBundle), OfKind(artifacts, Predictions);
    && |bundles| == 1 && bundles[0].path == BUNDLE_PATH
    && |predictions| == 1 && predictions[0].path == PREDICTIONS_PATH
  }

  function MemberPath(m: Member): Path
  {
    ["bundle"] + m.name
  }

  function MemberPaths(members: seq<Member>): set<Path>
  {
    set m | m in members :: MemberPath(m)
  }

  /** The model bundle is complete and was fitted for this identity. */
  predicate ValidBundle(w: World, files: map<Path, string>, id: Identity)
  {
    && BUNDLE_PATH in files
    && w.bundle(files[BUNDLE_PATH]).Some?
    && var b := w.bundle(files[BUNDLE_PATH]).value;
    && b.plugin == id.plugin && b.config == id.config && b.commit == id.commit
    && b.dataView == id.trainFeature && b.schema == w.schema(id.trainFeature) && b.seed == id.seed
    && (forall m :: m in b.members ==>
          MemberPath(m) in files && |files[MemberPath(m)]| == m.size && w.sha(files[MemberPath(m)]) == m.sha)
    && (exists m :: m in b.members && m.name == b.primary)
  }

  /** The index lists exactly the members of the bundle. */
  predicate MembersIndexed(w: World, files: map<Path, string>, artifacts: seq<Artifact>)
    requires BUNDLE_PATH in files && w.bundle(files[BUNDLE_PATH]).Some?
  {
    Indexed(OfKind(artifacts, BundleMember)) == MemberPaths(w.bundle(files[BUNDLE_PATH]).value.members)
  }

  /** The entry is complete, unaltered since its manifest was written, and belongs to `id`. */
  predicate ValidEntry(w: World, e: Entry, id: Identity)
  {
    && e.regular
    && e.manifest.Readable?
    && var m := e.manifest.manifest;
    && WellFormed(w, m)
    && m.identity == id
    && e.files.Keys == Indexed(m.artifacts)
    && e.directories == Directories(m.artifacts)
    && (forall a :: a in m.artifacts ==> Intact(w, e.files, a))
    && CanonicalIndex(m.artifacts)
    && PREDICTIONS_PATH in e.files
    && ValidBundle(w, e.files, id)
    && MembersIndexed(w, e.files, m.artifacts)
    && w.aligned(e.files[PREDICTIONS_PATH], id.applyFeature)
  }

  lemma {:induction false} OfKindMember(artifacts: seq<Artifact>, kind: Kind, a: Artifact)
    ensures a in OfKind(artifacts, kind) <==> a in artifacts && a.kind == kind
  {
    if artifacts != [] {
      OfKindMember(artifacts[1..], kind, a);
    }
  }

  /** The checks in the order the program makes them; None stands for a corrupt entry. */
  method ValidateEntry(w: World, e: Entry, id: Identity) returns (valid: bool)
    ensures valid == ValidEntry(w, e, id)
  {
    if !e.regular || !e.manifest.Readable? {
      return false;
    }
    var m := e.manifest.manifest;
    if !WellFormed(w, m) || m.identity != id || m.cacheKey != w.key(id) {
      return false;
    }
    var indexed := Indexed(m.artifacts);
    if e.files.Keys != indexed {
      return false;
    }
    var expected := ExpectedDirectories(m.artifacts);
    if e.directories != expected {
      return false;
    }
    for i := 0 to |m.artifacts|
      invariant forall j :: 0 <= j < i ==> Intact(w, e.files, m.artifacts[j])
    {
      var a := m.artifacts[i];
      assert a.path in indexed;
      if |e.files[a.path]| != a.size || w.sha(e.files[a.path]) != a.sha {
        assert a in m.artifacts && !Intact(w, e.files, a);
        return false;
      }
    }
    if !CanonicalIndex(m.artifacts) {
      return false;
    }
    CanonicalFiles(m.artifacts);
    if !ValidBundle(w, e.files, id) || !MembersIndexed(w, e.files, m.artifacts) {
      return false;
    }
    valid := w.aligned(e.files[PREDICTIONS_PATH], id.applyFeature);
  }

  lemma CanonicalFiles(artifacts: seq<Artifact>)
    requires CanonicalIndex(artifacts)
    ensures BUNDLE_PATH in Indexed(artifacts) && PREDICTIONS_PATH in Indexed(artifacts)
  {
    var b, p := OfKind(artifacts, ModelBundle)[0], OfKind(artifacts, Predictions)[0];
    OfKindMember(artifacts, ModelBundle, b);
    OfKindMember(artifacts, Predictions, p);
  }

  /** Walks up from every indexed path. */
  method ExpectedDirectories(artifacts: seq<Artifact>) returns (expected: set<Path>)
    ensures expected == Directories(artifacts)
  {
    expected := {};
    for i := 0 to |artifacts|
      invariant expected == Directories(artifacts[..i])
    {
      var p := artifacts[i].path;
      var n := |p| - 1;
      while n > 0
        invariant n <= |p| - 1
        invariant expected == Directories(artifacts[..i]) + set k | 0 <= k < |p| && k > n && k > 0 :: p[..k]
      {
        expected := expected + {p[..n]};
        n := n - 1;
      }
      assert artifacts[..i + 1] == artifacts[..i] + [artifacts[i]];
      DirectoriesSnoc(artifacts[..i], artifacts[i]);
    }
    assert artifacts[..|artifacts|] == artifacts;
  }

  lemma DirectoriesSnoc(artifacts: seq<Artifact>, a: Artifact)
    ensures Directories(artifacts + [a]) == Directories(artifacts) + Parents(a.path)
  {
    forall d ensures d in Directories(artifacts + [a]) <==> d in Directories(artifacts) + Parents(a.path) {
      if d in Parents(a.path) {
        assert a in artifacts + [a];
      }
      if d in Directories(artifacts) {
        var b :| b in artifacts && d in Parents(b.path);
        assert b in artifacts + [a];
      }
    }
  }

  // ---- what validity gives ---------------------------------------------------

  /** Distinct contents have distinct digests. */
  ghost predicate Collisionless(w: World)
  {
    forall a: string, b: string :: w.sha(a) == w.sha(b) ==> a == b
  }

  /** An entry is valid for at most one identity, whatever the cache keys. */
  lemma ValidForOneIdentity(w: World, e: Entry, id: Identity, other: Identity)
    requires ValidEntry(w, e, id) && ValidEntry(w, e, other)
    ensures id == other
  {}

  /** Two valid entries with one manifest hold the same files, if digests do not collide. */
  lemma ManifestFixesFiles(w: World, e: Entry, f: Entry, id: Identity)
    requires Collisionless(w)
    requires ValidEntry(w, e, id) && ValidEntry(w, f, id) && e.manifest == f.manifest
    ensures e.files == f.files && e.directories == f.directories
  {
    var artifacts := e.manifest.manifest.artifacts;
    forall p | p in e.files ensures e.files[p] == f.files[p] {
      var a :| a in artifacts && a.path == p;
      assert Intact(w, e.files, a) && Intact(w, f.files, a);
    }
  }

  /** The fields of a bundle that say for what it was fitted, against those of the identity. */
  lemma ForeignBundleIsRefused(w: World, e: Entry, id: Identity, b: Bundle)
    requires BUNDLE_PATH in e.files && w.bundle(e.files[BUNDLE_PATH]) == Some(b)
    requires
      || b.plugin != id.plugin || b.config != id.config || b.commit != id.commit || b.seed != id.seed
      || b.dataView != id.trainFeature || b.schema != w.schema(id.trainFeature)
      || (forall m :: m in b.members ==> m.name != b.primary)
    ensures !ValidEntry(w, e, id)
  {}

  /** An undecodable bundle, or predictions that do not fit the rows of the identity, are refused. */
  lemma UnfitPartsAreRefused(w: World, e: Entry, id: Identity)
    requires
      || BUNDLE_PATH !in e.files || w.bundle(e.files[BUNDLE_PATH]).None?
      || PREDICTIONS_PATH !in e.files || !w.aligned(e.files[PREDICTIONS_PATH], id.applyFeature)
    ensures !ValidEntry(w, e, id)
  {}

  /** So is an entry with another key or owner, or with a file that was added, lost or altered. */
  lemma AlteredEntryIsRefused(w: World, e: Entry, id: Identity, p: Path)
    requires e.manifest.Readable?
    requires var m := e.manifest.manifest;
      || m.identity != id || m.cacheKey != w.key(id)
      || (p in e.files && forall a :: a in m.artifacts ==> a.path != p)
      || (exists a :: a in m.artifacts && a.path == p
            && (p !in e.files || |e.files[p]| != a.size || w.sha(e.files[p]) != a.sha))
    ensures !ValidEntry(w, e, id)
  {
    hide ValidBundle, MembersIndexed, CanonicalIndex, Directories;
  }

  /** Valid entries that share a bundle belong to identities it was fitted for alike. */
  lemma OneBundleOneFit(w: World, e: Entry, f: Entry, id: Identity, other: Identity)
    requires ValidEntry(w, e, id) && ValidEntry(w, f, other)
    requires e.files[BUNDLE_PATH] == f.files[BUNDLE_PATH]
    ensures id.plugin == other.plugin && id.config == other.config && id.commit == other.commit
    ensures id.trainFeature == other.trainFeature && id.seed == other.seed
  {}

  /** The files of a valid entry are the bundle, its members and the predictions. */
  lemma FilesOfEntry(w: World, e: Entry, id: Identity)
    requires ValidEntry(w, e, id)
    ensures e.files.Keys ==
      {BUNDLE_PATH, PREDICTIONS_PATH} + MemberPaths(w.bundle(e.files[BUNDLE_PATH]).value.members)
  {
    var artifacts, members := e.manifest.manifest.artifacts, w.bundle(e.files[BUNDLE_PATH]).value.members;
    forall p ensures p in e.files <==> p in {BUNDLE_PATH, PREDICTIONS_PATH} + MemberPaths(members) {
      if p in e.files {
        var a :| a in artifacts && a.path == p;
        OfKindMember(artifacts, a.kind, a);
      }
      if p in MemberPaths(members) {
        var a :| a in OfKind(artifacts, BundleMember) && a.path == p;
        OfKindMember(artifacts, BundleMember, a);
      }
    }
  }

  /** Bundle and predictions fix everything else of a valid entry, if digests do not collide. */
  lemma BundleFixesEntry(w: World, e: Entry, f: Entry, id: Identity, other: Identity)
    requires Collisionless(w) && ValidEntry(w, e, id) && ValidEntry(w, f, other)
    requires e.files[BUNDLE_PATH] == f.files[BUNDLE_PATH] && e.files[PREDICTIONS_PATH] == f.files[PREDICTIONS_PATH]
    ensures e.files == f.files && e.directories == f.directories
  {
    hide WellFormed, CanonicalIndex, Directories, Parents, OfKind;
    FilesOfEntry(w, e, id);
    FilesOfEntry(w, f, other);
    forall p | p in e.files ensures e.files[p] == f.files[p] {
      if p != BUNDLE_PATH && p != PREDICTIONS_PATH {
        var m :| m in w.bundle(e.files[BUNDLE_PATH]).value.members && MemberPath(m) == p;
        assert w.sha(e.files[p]) == m.sha == w.sha(f.files[p]);
      }
    }
    SameDirectories(e.manifest.manifest.artifacts, f.manifest.manifest.artifacts);
  }

  lemma SameDirectories(a: seq<Artifact>, b: seq<Artifact>)
    requires Indexed(a) == Indexed(b)
    ensures Directories(a) == Directories(b)
  {
    forall d ensures d in Directories(a) <==> d in Directories(b) {
      if d in Directories(a) {
        var x :| x in a && d in Parents(x.path);
        assert x.path in Indexed(b);
      }
      if d in Directories(b) {
        var x :| x in b && d in Parents(x.path);
        assert x.path in Indexed(a);
      }
    }
  }

  // ---- building an entry and copying it ----------------------------------------

  /** The validated output of one model execution. */
  datatype Source = Source(bundle: string, members: map<Path, string>, predictions: string)

  function SourceFiles(src: Source): map<Path, string>
  {
    src.members + map[BUNDLE_PATH := src.bundle, PREDICTIONS_PATH := src.predictions]
  }

  function ArtifactOf(w: World, path: Path, kind: Kind, content: string): Artifact
  {
    Artifact(path, kind, w.sha(content), |content|)
  }

  function MemberArtifacts(w: World, src: Source, members: seq<Member>): seq<Artifact>
    requires forall m :: m in members ==> MemberPath(m) in src.members
  {
    if members == [] then []
    else
      [ArtifactOf(w, MemberPath(members[0]), BundleMember, src.members[MemberPath(members[0])])]
      + MemberArtifacts(w, src, members[1..])
  }

  /**
    What may be published for an identity: a valid bundle whose members have
    distinct names and no other file beside them, and aligned predictions.
   */
  predicate Publishable(w: World, src: Source, id: Identity)
  {
    && ValidBundle(w, SourceFiles(src), id)
    && var members := w.bundle(src.bundle).value.members;
    && src.members.Keys == MemberPaths(members)
    && (forall i, j :: 0 <= i < j < |members| ==> members[i].name != members[j].name)
    && BUNDLE_PATH !in src.members && PREDICTIONS_PATH !in src.members
    && w.aligned(src.predictions, id.applyFeature)
  }

  /** The staged tree of a publication. */
  function BuildEntry(w: World, src: Source, id: Identity): Entry
    requires Publishable(w, src, id)
  {
    var members := w.bundle(src.bundle).value.members;
    var artifacts :=
      [ArtifactOf(w, BUNDLE_PATH, ModelBundle, src.bundle)]
      + MemberArtifacts(w, src, members)
      + [ArtifactOf(w, PREDICTIONS_PATH, Predictions, src.predictions)];
    Entry(true, Readable(Manifest(w.key(id), id, artifacts)), SourceFiles(src), Directories(artifacts))
  }

  lemma {:induction false} MemberArtifactAt(w: World, src: Source, members: seq<Member>, i: nat)
    requires forall m :: m in members ==> MemberPath(m) in src.members
    requires i < |members|
    ensures |MemberArtifacts(w, src, members)| == |members|
    ensures MemberArtifacts(w, src, members)[i]
         == ArtifactOf(w, MemberPath(members[i]), BundleMember, src.members[MemberPath(members[i])])
  {
    if i > 0 {
      MemberArtifactAt(w, src, members[1..], i - 1);
    } else if |members| > 1 {
      MemberArtifactAt(w, src, members[1..], 0);
    }
  }

  lemma {:induction false} OfKindConcat(a: seq<Artifact>, b: seq<Artifact>, kind: Kind)
    ensures OfKind(a + b, kind) == OfKind(a, kind) + OfKind(b, kind)
  {
    if a == [] {
      assert a + b == b;
    } else {
      OfKindConcat(a[1..], b, kind);
      assert (a + b)[0] == a[0] && (a + b)[1..] == a[1..] + b;
      var x, rest := [a[0]], OfKind(a[1..], kind);
      assert x + (rest + OfKind(b, kind)) == (x + rest) + OfKind(b, kind);
    }
  }

  /** The index opens with the bundle, ends with the predictions, and has the members between. */
  lemma OfKindBetween(first: Artifact, middle: seq<Artifact>, last: Artifact, kind: Kind)
    requires first.kind == ModelBundle && last.kind == Predictions
    requires forall i :: 0 <= i < |middle| ==> middle[i].kind == BundleMember
    ensures OfKind([first] + middle + [last], kind)
         == match kind case ModelBundle => [first] case BundleMember => middle case Predictions => [last]
  {
    OfKindConcat([first] + middle, [last], kind);
    OfKindConcat([first], middle, kind);
    OfKindAll([first], ModelBundle, kind);
    OfKindAll(middle, BundleMember, kind);
    OfKindAll([last], Predictions, kind);
  }

  lemma {:induction false} OfKindAll(a: seq<Artifact>, own: Kind, kind: Kind)
    requires forall i :: 0 <= i < |a| ==> a[i].kind == own
    ensures OfKind(a, kind) == if kind == own then a else []
  {
    if a != [] {
      OfKindAll(a[1..], own, kind);
    }
  }

  lemma MemberArtifactsShape(w: World, src: Source, members: seq<Member>)
    requires forall m :: m in members ==> MemberPath(m) in src.members
    ensures var r := MemberArtifacts(w, src, members);
      && |r| == |members|
      && (forall i :: 0 <= i < |r| ==>
            r[i] == ArtifactOf(w, MemberPath(members[i]), BundleMember, src.members[MemberPath(members[i])]))
      && Indexed(r) == MemberPaths(members)
  {
    var r := MemberArtifacts(w, src, members);
    forall i | 0 <= i < |members| ensures |r| == |members| && r[i].path == MemberPath(members[i])
      && r[i] == ArtifactOf(w, MemberPath(members[i]), BundleMember, src.members[MemberPath(members[i])]) {
      MemberArtifactAt(w, src, members, i);
    }
    forall p ensures p in Indexed(r) <==> p in MemberPaths(members) {
      if p in MemberPaths(members) {
        var m :| m in members && MemberPath(m) == p;
        var i :| 0 <= i < |members| && members[i] == m;
        assert r[i] in r;
      }
    }
  }

  function BuiltArtifacts(w: World, src: Source, id: Identity): seq<Artifact>
    requires Publishable(w, src, id)
  {
    BuildEntry(w, src, id).manifest.manifest.artifacts
  }

  /** The artifacts in the middle of the index are the members'. */
  lemma BuiltArtifactAt(w: World, src: Source, id: Identity, i: nat)
    requires Publishable(w, src, id) && i < |BuiltArtifacts(w, src, id)|
    ensures var members := w.bundle(src.bundle).value.members;
      && |BuiltArtifacts(w, src, id)| == |members| + 2
      && (i == 0 ==> BuiltArtifacts(w, src, id)[i] == ArtifactOf(w, BUNDLE_PATH, ModelBundle, src.bundle))
      && (i == |members| + 1 ==>
            BuiltArtifacts(w, src, id)[i] == ArtifactOf(w, PREDICTIONS_PATH, Predictions, src.predictions))
      && (0 < i <= |members| ==>
            && MemberPath(members[i - 1]) in src.members
            && BuiltArtifacts(w, src, id)[i]
                 == ArtifactOf(w, MemberPath(members[i - 1]), BundleMember, src.members[MemberPath(members[i - 1])]))
  {
    MemberArtifactsShape(w, src, w.bundle(src.bundle).value.members);
  }

  lemma BuiltIntact(w: World, src: Source, id: Identity)
    requires Publishable(w, src, id)
    ensures forall a :: a in BuiltArtifacts(w, src, id) ==> Intact(w, SourceFiles(src), a)
  {
    var artifacts := BuiltArtifacts(w, src, id);
    forall i | 0 <= i < |artifacts| ensures Intact(w, SourceFiles(src), artifacts[i]) {
      BuiltArtifactAt(w, src, id, i);
    }
  }

  lemma BuiltPathsDiffer(w: World, src: Source, id: Identity, i: nat, j: nat)
    requires Publishable(w, src, id) && i < j < |BuiltArtifacts(w, src, id)|
    ensures BuiltArtifacts(w, src, id)[i].path != BuiltArtifacts(w, src, id)[j].path
  {
    hide BuiltArtifacts;
    var members := w.bundle(src.bundle).value.members;
    BuiltArtifactAt(w, src, id, i);
    BuiltArtifactAt(w, src, id, j);
    if 0 < i && j <= |members| {
      assert members[i - 1].name != members[j - 1].name;
      assert MemberPath(members[i - 1])[1..] == members[i - 1].name;
      assert MemberPath(members[j - 1])[1..] == members[j - 1].name;
    } else {
      assert BUNDLE_PATH[0] != PREDICTIONS_PATH[0];
    }
  }

  lemma BuiltIndex(w: World, src: Source, id: Identity)
    requires Publishable(w, src, id)
    ensures Indexed(BuiltArtifacts(w, src, id))
         == {BUNDLE_PATH} + MemberPaths(w.bundle(src.bundle).value.members) + {PREDICTIONS_PATH}
    ensures |BuiltArtifacts(w, src, id)| == |w.bundle(src.bundle).value.members| + 2
  {
    hide ValidBundle, SourceFiles, Indexed, MemberPaths;
    PublishableMembers(w, src, id);
    var members := w.bundle(src.bundle).value.members;
    MemberArtifactsShape(w, src, members);
    var first, last := ArtifactOf(w, BUNDLE_PATH, ModelBundle, src.bundle),
                       ArtifactOf(w, PREDICTIONS_PATH, Predictions, src.predictions);
    IndexedBetween(first, MemberArtifacts(w, src, members), last);
    assert BuiltArtifacts(w, src, id) == [first] + MemberArtifacts(w, src, members) + [last];
  }

  lemma PublishableMembers(w: World, src: Source, id: Identity)
    requires Publishable(w, src, id)
    ensures w.bundle(src.bundle).Some?
    ensures forall m :: m in w.bundle(src.bundle).value.members ==> MemberPath(m) in src.members
    ensures src.members.Keys == MemberPaths(w.bundle(src.bundle).value.members)
  {}

  lemma BuiltFilesListed(w: World, src: Source, id: Identity)
    requires Publishable(w, src, id)
    ensures SourceFiles(src).Keys == Indexed(BuiltArtifacts(w, src, id))
    ensures |BuiltArtifacts(w, src, id)| >= 2
  {
    hide ValidBundle, Indexed, MemberPaths, BuiltArtifacts;
    PublishableMembers(w, src, id);
    BuiltIndex(w, src, id);
  }

  lemma IndexedBetween(first: Artifact, middle: seq<Artifact>, last: Artifact)
    ensures Indexed([first] + middle + [last]) == {first.path} + Indexed(middle) + {last.path}
  {
    IndexedConcat([first] + middle, [last]);
    IndexedConcat([first], middle);
  }

  lemma IndexedConcat(a: seq<Artifact>, b: seq<Artifact>)
    ensures Indexed(a + b) == Indexed(a) + Indexed(b)
  {
    forall p ensures p in Indexed(a + b) <==> p in Indexed(a) + Indexed(b) {
      if p in Indexed(a) {
        var x :| x in a && x.path == p;
        assert x in a + b;
      }
      if p in Indexed(b) {
        var x :| x in b && x.path == p;
        assert x in a + b;
      }
    }
  }

  lemma BuiltKinds(w: World, src: Source, id: Identity)
    requires Publishable(w, src, id)
    ensures var e := BuildEntry(w, src, id);
      && CanonicalIndex(e.manifest.manifest.artifacts)
      && MembersIndexed(w, e.files, e.manifest.manifest.artifacts)
  {
    var members := w.bundle(src.bundle).value.members;
    MemberArtifactsShape(w, src, members);
    var middle := MemberArtifacts(w, src, members);
    var first, last := ArtifactOf(w, BUNDLE_PATH, ModelBundle, src.bundle),
                       ArtifactOf(w, PREDICTIONS_PATH, Predictions, src.predictions);
    OfKindBetween(first, middle, last, ModelBundle);
    OfKindBetween(first, middle, last, BundleMember);
    OfKindBetween(first, middle, last, Predictions);
  }

  /** What a publisher stages from a valid execution passes the validation it then runs. */
  lemma BuiltEntryIsValid(w: World, src: Source, id: Identity)
    requires Publishable(w, src, id)
    ensures ValidEntry(w, BuildEntry(w, src, id), id)
  {
    BuiltIntact(w, src, id);
    BuiltFilesListed(w, src, id);
    forall i, j | 0 <= i < j < |BuiltArtifacts(w, src, id)|
      ensures BuiltArtifacts(w, src, id)[i].path != BuiltArtifacts(w, src, id)[j].path {
      BuiltPathsDiffer(w, src, id, i, j);
    }
    BuiltKinds(w, src, id);
  }

  /** `_copy_entry`: every indexed file, then the manifest. */
  function CopyEntry(e: Entry): Entry
    requires e.manifest.Readable?
    requires forall a :: a in e.manifest.manifest.artifacts ==> a.path in e.files
  {
    var artifacts := e.manifest.manifest.artifacts;
    Entry(true, e.manifest, map p | p in Indexed(artifacts) :: e.files[p], Directories(artifacts))
  }

  /** A private copy of a valid entry is the entry, file for file. */
  lemma CopyIsFaithful(w: World, e: Entry, id: Identity)
    requires ValidEntry(w, e, id)
    ensures CopyEntry(e) == e
  {
    assert CopyEntry(e).files == e.files;
  }

  // ---- what may be published is what passes ----------------------------------------

  /** The parts of an entry as an execution would have left them. */
  function Parts(e: Entry): Source
    requires BUNDLE_PATH in e.files && PREDICTIONS_PATH in e.files
  {
    Source(e.files[BUNDLE_PATH], e.files - {BUNDLE_PATH, PREDICTIONS_PATH}, e.files[PREDICTIONS_PATH])
  }

  /** Publication asks for no more than validation: the parts of a valid entry may be published. */
  lemma ValidIsPublishable(w: World, e: Entry, id: Identity)
    requires ValidEntry(w, e, id)
    requires var members := w.bundle(e.files[BUNDLE_PATH]).value.members;
      forall i, j :: 0 <= i < j < |members| ==> members[i].name != members[j].name
    ensures Publishable(w, Parts(e), id) && SourceFiles(Parts(e)) == e.files
  {
    FilesOfEntry(w, e, id);
    MembersApart(w, e, id);
    assert SourceFiles(Parts(e)) == e.files;
  }

  /** No member sits at the place of the bundle or of the predictions. */
  lemma MembersApart(w: World, e: Entry, id: Identity)
    requires ValidEntry(w, e, id)
    ensures MemberPaths(w.bundle(e.files[BUNDLE_PATH]).value.members) !! {BUNDLE_PATH, PREDICTIONS_PATH}
  {
    var artifacts := e.manifest.manifest.artifacts;
    forall p | p in MemberPaths(w.bundle(e.files[BUNDLE_PATH]).value.members)
      ensures p != BUNDLE_PATH && p != PREDICTIONS_PATH
    {
      var a :| a in OfKind(artifacts, BundleMember) && a.path == p;
      OfKindMember(artifacts, BundleMember, a);
      OfKindMember(artifacts, ModelBundle, OfKind(artifacts, ModelBundle)[0]);
      OfKindMember(artifacts, Predictions, OfKind(artifacts, Predictions)[0]);
    }
  }
}
