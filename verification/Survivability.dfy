/**
  The offline verifier of a survivability bundle: an inventory loop over the signed manifest, a walk
  over the whole directory tree, and the theorem that one expected digest pins the tree.

  The manifest digest is the free constructor BundleDigest over the manifest body, and file digests
  are ArtifactEscrow.Sha. Decoding the manifest file is a parameter.
 */
module Survivability {
  import opened Prelude
  import opened ArtifactEscrow
  import opened ArchiveExtraction

  /** What a directory walk finds at a relative path. */
  datatype Entry = Folder | Link | Regular(content: Bytes)

  type Bundle = map<string, Entry>

  datatype Record = Record(path: string, role: string, size: nat, digest: Sha)

  /** The manifest without its digest. The identities are opaque to the loops. */
  datatype ManifestBody = ManifestBody(
    schema: string,
    caseId: string,
    codeCommit: string,
    codeTree: string,
    longRangeManifest: string,
    replayCapsule: string,
    escrowManifest: string,
    supplyChainManifest: string,
    supplyChainRuntime: string,
    bootstrapIsStandard: bool,
    inventory: seq<Record>)

  datatype BundleDigest = BundleDigest(body: ManifestBody)

  datatype Manifest = Manifest(body: ManifestBody, digest: BundleDigest)

  const SCHEMA := "lukart.offline-long-range-survivability.v1"
  const MANIFEST_NAME := "survivability.json"
  const ALLOWED_ROLES := {"identity", "escrow_blob", "supply_chain", "verifier"}
  const MAX_BUNDLE_FILES: nat := 20_000
  const MAX_BUNDLE_BYTES: nat := 2 * 1024 * 1024 * 1024
  const MAX_FILE_BYTES: nat := 512 * 1024 * 1024
  const MAX_JSON_BYTES: nat := 8 * 1024 * 1024
  const REQUIRED := {
    "identity/long-range-manifest.json",
    "identity/replay-capsule.json",
    "identity/artifact-escrow-manifest.json",
    "supply-chain/continuity-manifest.json",
    "supply-chain/verifier.py",
    "verifier.py"
  }

  // ---------------------------------------------------------------- what acceptance means

  /** A regular file that no symbolic link leads to. */
  predicate RegularFile(bundle: Bundle, path: string) {
    && (forall p :: p in Parents(path) + {path} && p in bundle ==> !bundle[p].Link?)
    && path in bundle
    && bundle[path].Regular?
  }

  predicate RecordOk(record: Record) {
    && SafeRelativePath(record.path)
    && record.path != MANIFEST_NAME
    && record.role in ALLOWED_ROLES
    && record.size <= MAX_FILE_BYTES
  }

  predicate RecordMatches(bundle: Bundle, record: Record) {
    && RegularFile(bundle, record.path)
    && |bundle[record.path].content| == record.size
    && Sha(bundle[record.path].content) == record.digest
  }

  function DeclaredBytes(inventory: seq<Record>): nat {
    if inventory == [] then 0
    else DeclaredBytes(inventory[..|inventory| - 1]) + inventory[|inventory| - 1].size
  }

  predicate DistinctPaths(inventory: seq<Record>) {
    forall i, j :: 0 <= i < j < |inventory| ==> inventory[i].path != inventory[j].path
  }

  function PathsOf(inventory: seq<Record>): set<string> {
    set r | r in inventory :: r.path
  }

  /** Every file of the tree except the manifest. */
  function FilesOf(bundle: Bundle): set<string> {
    set p | p in bundle && bundle[p].Regular? && p != MANIFEST_NAME
  }

  predicate HeaderOk(manifest: Manifest, expected: BundleDigest) {
    && manifest.body.schema == SCHEMA
    && Canonical(manifest.body.caseId)
    && manifest.body.bootstrapIsStandard
    && manifest.digest == BundleDigest(manifest.body)
    && manifest.digest == expected
  }

  predicate InventoryOk(bundle: Bundle, inventory: seq<Record>) {
    && inventory != []
    && |inventory| <= MAX_BUNDLE_FILES
    && (forall r :: r in inventory ==> RecordOk(r) && RecordMatches(bundle, r))
    && DistinctPaths(inventory)
    && DeclaredBytes(inventory) <= MAX_BUNDLE_BYTES
  }

  /** The manifest that the tree carries under its fixed name. */
  function ManifestOf(bundle: Bundle, decode: Bytes -> Option<Manifest>): Option<Manifest> {
    if MANIFEST_NAME in bundle && bundle[MANIFEST_NAME].Regular?
       && |bundle[MANIFEST_NAME].content| <= MAX_JSON_BYTES
    then decode(bundle[MANIFEST_NAME].content)
    else None
  }

  predicate Accepts(bundle: Bundle, expected: BundleDigest, decode: Bytes -> Option<Manifest>,
                    further: (Bundle, Manifest) -> bool)
  {
    var manifest := ManifestOf(bundle, decode);
    && manifest.Some?
    && HeaderOk(manifest.value, expected)
    && InventoryOk(bundle, manifest.value.body.inventory)
    && (forall p :: p in bundle ==> !bundle[p].Link?)
    && FilesOf(bundle) == PathsOf(manifest.value.body.inventory)
    && REQUIRED <= FilesOf(bundle)
    && further(bundle, manifest.value)
  }

  // ---------------------------------------------------------------- sums over sets of files

  function SizeAt(bundle: Bundle, path: string): nat {
    if path in bundle && bundle[path].Regular? then |bundle[path].content| else 0
  }

  ghost function SizeOf(bundle: Bundle, paths: set<string>): nat
    decreases |paths|
  {
    if paths == {} then 0
    else
      var p :| p in paths;
      SizeAt(bundle, p) + SizeOf(bundle, paths - {p})
  }

  /** The sum does not depend on the order in which the paths are visited. */
  lemma {:induction false} SizeOfRemoves(bundle: Bundle, paths: set<string>, p: string)
    requires p in paths
    ensures SizeOf(bundle, paths) == SizeAt(bundle, p) + SizeOf(bundle, paths - {p})
    decreases |paths|
  {
    var first :| first in paths && SizeOf(bundle, paths) == SizeAt(bundle, first) + SizeOf(bundle, paths - {first});
    if first != p {
      SizeOfRemoves(bundle, paths - {first}, p);
      SizeOfRemoves(bundle, paths - {p}, first);
      assert paths - {first} - {p} == paths - {p} - {first};
    }
  }

  lemma {:induction false} SizeOfGrows(bundle: Bundle, some: set<string>, all: set<string>)
    requires some <= all
    ensures SizeOf(bundle, some) <= SizeOf(bundle, all)
    decreases |all - some|
  {
    if p :| p in all && p !in some {
      SizeOfGrows(bundle, some + {p}, all);
      SizeOfRemoves(bundle, some + {p}, p);
      assert some + {p} - {p} == some;
    } else {
      assert some == all;
    }
  }

  /** The declared bytes of a matching inventory are the bytes of its files. */
  lemma {:induction false} DeclaredIsActual(bundle: Bundle, inventory: seq<Record>)
    requires DistinctPaths(inventory)
    requires forall r :: r in inventory ==> RecordMatches(bundle, r)
    ensures SizeOf(bundle, PathsOf(inventory)) == DeclaredBytes(inventory)
    ensures |PathsOf(inventory)| == |inventory|
    decreases |inventory|
  {
    if inventory != [] {
      var n := |inventory| - 1;
      var front, last := inventory[..n], inventory[n];
      DeclaredIsActual(bundle, front);
      assert PathsOf(inventory) == PathsOf(front) + {last.path};
      assert last.path !in PathsOf(front);
      assert PathsOf(inventory) - {last.path} == PathsOf(front);
      SizeOfRemoves(bundle, PathsOf(inventory), last.path);
    }
  }

  lemma {:induction false} DeclaredGrows(inventory: seq<Record>, i: nat)
    requires i <= |inventory|
    ensures DeclaredBytes(inventory[..i]) <= DeclaredBytes(inventory)
    decreases |inventory|
  {
    if i < |inventory| {
      DeclaredGrows(inventory[..|inventory| - 1], i);
      assert inventory[..|inventory| - 1][..i] == inventory[..i];
    } else {
      assert inventory[..i] == inventory;
    }
  }

  // ---------------------------------------------------------------- the verifier

  /** The walk lists every entry of the tree once. */
  ghost predicate Lists(walk: seq<string>, bundle: Bundle) {
    && (forall i, j :: 0 <= i < j < |walk| ==> walk[i] != walk[j])
    && (forall p :: p in walk <==> p in bundle)
  }

  lemma NoRecords(inventory: seq<Record>)
    ensures PathsOf(inventory[..0]) == {} && DistinctPaths(inventory[..0])
  {
  }

  /** One more record: its path is new exactly when the longer inventory still has distinct paths. */
  lemma NextRecord(inventory: seq<Record>, i: nat)
    requires i < |inventory| && DistinctPaths(inventory[..i])
    ensures PathsOf(inventory[..i + 1]) == PathsOf(inventory[..i]) + {inventory[i].path}
    ensures DistinctPaths(inventory[..i + 1]) <==> inventory[i].path !in PathsOf(inventory[..i])
    ensures DistinctPaths(inventory) ==> DistinctPaths(inventory[..i + 1])
  {
    var before, record := inventory[..i], inventory[i];
    assert inventory[..i + 1] == before + [record];
    if record.path in PathsOf(before) {
      var k :| 0 <= k < i && before[k].path == record.path;
      assert inventory[..i + 1][k].path == inventory[..i + 1][i].path;
    }
  }

  /** The inventory loop: every record is checked against the tree before the next is looked at. */
  method CheckInventory(bundle: Bundle, inventory: seq<Record>) returns (paths: Option<set<string>>)
    ensures paths == if InventoryOk(bundle, inventory) then Some(PathsOf(inventory)) else None
  {
    hide RecordOk, RecordMatches, PathsOf, DistinctPaths;
    if inventory == [] || |inventory| > MAX_BUNDLE_FILES {
      return None;
    }
    var expectedPaths: set<string> := {};
    var declaredTotal := 0;
    NoRecords(inventory);
    for i := 0 to |inventory|
      invariant expectedPaths == PathsOf(inventory[..i])
      invariant declaredTotal == DeclaredBytes(inventory[..i]) <= MAX_BUNDLE_BYTES
      invariant DistinctPaths(inventory[..i])
      invariant forall r :: r in inventory[..i] ==> RecordOk(r) && RecordMatches(bundle, r)
    {
      var record := inventory[i];
      assert record in inventory;
      assert inventory[..i + 1] == inventory[..i] + [record];
      assert inventory[..i + 1][..i] == inventory[..i];
      DeclaredGrows(inventory, i + 1);
      NextRecord(inventory, i);
      if record.path in expectedPaths {
        return None;
      }
      if !RecordOk(record) {
        return None;
      }
      declaredTotal := declaredTotal + record.size;
      if declaredTotal > MAX_BUNDLE_BYTES {
        return None;
      }
      if !RecordMatches(bundle, record) {
        return None;
      }
      expectedPaths := expectedPaths + {record.path};
    }
    assert inventory[..|inventory|] == inventory;
    paths := Some(expectedPaths);
  }

  /** The walk over the tree with its own limits. Given a checked inventory the limits reject only
      trees that the final comparison would reject too. */
  method CheckTree(bundle: Bundle, walk: seq<string>, inventory: seq<Record>) returns (ok: bool)
    requires Lists(walk, bundle)
    requires InventoryOk(bundle, inventory)
    ensures ok <==> (forall p :: p in bundle ==> !bundle[p].Link?) && FilesOf(bundle) == PathsOf(inventory)
  {
    hide RecordOk, RecordMatches;
    var expectedPaths := PathsOf(inventory);
    DeclaredIsActual(bundle, inventory);
    var actualPaths: set<string> := {};
    var actualTotal := 0;
    for i := 0 to |walk|
      invariant forall k :: 0 <= k < i ==> !bundle[walk[k]].Link?
      invariant forall p :: p in actualPaths <==> p in walk[..i] && p in FilesOf(bundle)
      invariant actualTotal == SizeOf(bundle, actualPaths)
    {
      var path := walk[i];
      assert path in bundle;
      assert path !in walk[..i];
      assert walk[..i + 1] == walk[..i] + [path];
      if bundle[path].Link? {
        return false;
      }
      if bundle[path].Folder? || path == MANIFEST_NAME {
        continue;
      }
      SizeOfRemoves(bundle, actualPaths + {path}, path);
      assert actualPaths + {path} - {path} == actualPaths;
      actualPaths := actualPaths + {path};
      assert actualPaths <= FilesOf(bundle);
      if FilesOf(bundle) == expectedPaths {
        WithinInventory(bundle, inventory, actualPaths, path);
      }
      if |actualPaths| > MAX_BUNDLE_FILES {
        return false;
      }
      if |bundle[path].content| > MAX_FILE_BYTES {
        return false;
      }
      actualTotal := actualTotal + |bundle[path].content|;
      if actualTotal > MAX_BUNDLE_BYTES {
        return false;
      }
    }
    assert walk[..|walk|] == walk;
    assert actualPaths == FilesOf(bundle);
    ok := actualPaths == expectedPaths;
  }

  /** Files of an accepted inventory never reach the limits of the walk. */
  lemma WithinInventory(bundle: Bundle, inventory: seq<Record>, visited: set<string>, path: string)
    requires InventoryOk(bundle, inventory)
    requires visited <= PathsOf(inventory) && path in visited
    ensures |visited| <= MAX_BUNDLE_FILES
    ensures SizeAt(bundle, path) <= MAX_FILE_BYTES
    ensures SizeOf(bundle, visited) <= MAX_BUNDLE_BYTES
  {
    hide SafeRelativePath, Parents;
    DeclaredIsActual(bundle, inventory);
    SizeOfGrows(bundle, visited, PathsOf(inventory));
    SubsetBound(visited, PathsOf(inventory));
    var record :| record in inventory && record.path == path;
    assert RecordOk(record) && RecordMatches(bundle, record);
  }

  lemma SubsetBound<T>(some: set<T>, all: set<T>)
    requires some <= all
    ensures |some| <= |all|
  {
    assert all == some + (all - some);
  }

  /** The whole verifier answers the pinned digest exactly for the bundles that Accepts describes. */
  method VerifySurvivabilityBundle(bundle: Bundle, walk: seq<string>, expected: BundleDigest,
                                   decode: Bytes -> Option<Manifest>, further: (Bundle, Manifest) -> bool)
    returns (verified: Option<BundleDigest>)
    requires Lists(walk, bundle)
    ensures verified == if Accepts(bundle, expected, decode, further) then Some(expected) else None
  {
    hide InventoryOk;
    if MANIFEST_NAME !in bundle || !bundle[MANIFEST_NAME].Regular? {
      return None;
    }
    if |bundle[MANIFEST_NAME].content| > MAX_JSON_BYTES {
      return None;
    }
    var decoded := decode(bundle[MANIFEST_NAME].content);
    if decoded.None? || !HeaderOk(decoded.value, expected) {
      return None;
    }
    var manifest := decoded.value;
    var expectedPaths := CheckInventory(bundle, manifest.body.inventory);
    if expectedPaths.None? {
      return None;
    }
    var boundary := CheckTree(bundle, walk, manifest.body.inventory);
    if !boundary {
      return None;
    }
    if !(REQUIRED <= expectedPaths.value) {
      return None;
    }
    if !further(bundle, manifest) {
      return None;
    }
    verified := Some(manifest.digest);
  }

  // ---------------------------------------------------------------- what an accepted bundle is

  /** The inventory is that of the tree: the tree has no links, and each of its files other than the manifest
      is listed once, with its true size and digest and a role of the four; the files have plain names that
      stay below the root, keep to the limits in size and number, and include the required ones. */
  ghost predicate Intact(bundle: Bundle, inventory: seq<Record>) {
    var files := FilesOf(bundle);
    && (forall p :: p in bundle ==> !bundle[p].Link?)
    && (forall i, j :: 0 <= i < j < |inventory| ==> inventory[i].path != inventory[j].path)
    && (forall r :: r in inventory ==> r.path in files)
    && (forall p :: p in files ==> exists r :: r in inventory && r.path == p)
    && (forall r :: r in inventory ==>
          && r.size == |bundle[r.path].content|
          && r.digest.content == bundle[r.path].content
          && r.role in {"identity", "escrow_blob", "supply_chain", "verifier"})
    && (forall p :: p in files ==> PlainText(p) && StaysBelow([], p) && |bundle[p].content| <= 536_870_912)
    && |files| <= 20_000 && SizeOf(bundle, files) <= 2_147_483_648
    && "identity/long-range-manifest.json" in files
    && "identity/replay-capsule.json" in files
    && "identity/artifact-escrow-manifest.json" in files
    && "supply-chain/continuity-manifest.json" in files
    && "supply-chain/verifier.py" in files
    && "verifier.py" in files
  }

  /** Exactly the intact bundles are accepted: those whose manifest is the pinned one, of the right kind, and
      lists the tree as it is. */
  lemma AcceptedExactlyWhenIntact(bundle: Bundle, expected: BundleDigest, decode: Bytes -> Option<Manifest>,
                                  further: (Bundle, Manifest) -> bool)
    ensures var manifest := ManifestOf(bundle, decode);
            Accepts(bundle, expected, decode, further) <==>
              && manifest.Some?
              && manifest.value.digest == expected && expected.body == manifest.value.body
              && expected.body.schema == "lukart.offline-long-range-survivability.v1"
              && expected.body.bootstrapIsStandard
              && expected.body.caseId != "" && Strip(expected.body.caseId) == expected.body.caseId
              && Intact(bundle, expected.body.inventory)
              && further(bundle, manifest.value)
  {
    hide Intact, InventoryOk, ManifestOf, FilesOf, PathsOf;
    var manifest := ManifestOf(bundle, decode);
    if manifest.Some? {
      StripShortens(manifest.value.body.caseId);
      IntactMeansListed(bundle, manifest.value.body.inventory);
    }
  }

  lemma IntactMeansListed(bundle: Bundle, inventory: seq<Record>)
    ensures Intact(bundle, inventory) <==>
              && InventoryOk(bundle, inventory)
              && (forall p :: p in bundle ==> !bundle[p].Link?)
              && FilesOf(bundle) == PathsOf(inventory)
              && REQUIRED <= FilesOf(bundle)
  {
    hide DeclaredBytes, SizeOf, RecordOk, StaysBelow, PlainText, Parents;
    if Intact(bundle, inventory) {
      assert FilesOf(bundle) == PathsOf(inventory);
      forall r | r in inventory ensures RecordMatches(bundle, r) && RecordOk(r) {
        RecordsOfIntact(bundle, r);
      }
      DeclaredIsActual(bundle, inventory);
    } else if InventoryOk(bundle, inventory) && FilesOf(bundle) == PathsOf(inventory) {
      DeclaredIsActual(bundle, inventory);
      forall p | p in FilesOf(bundle) ensures PlainText(p) && StaysBelow([], p) && |bundle[p].content| <= 536_870_912 {
        var r :| r in inventory && r.path == p;
        RecordsOfIntact(bundle, r);
      }
      forall r | r in inventory ensures r.role in {"identity", "escrow_blob", "supply_chain", "verifier"} {
        RecordsOfIntact(bundle, r);
      }
    }
  }

  lemma RecordsOfIntact(bundle: Bundle, r: Record)
    requires r.path in FilesOf(bundle) && r.size == |bundle[r.path].content| && r.digest.content == bundle[r.path].content
    ensures RecordOk(r) <==>
              && r.role in {"identity", "escrow_blob", "supply_chain", "verifier"}
              && PlainText(r.path) && StaysBelow([], r.path) && |bundle[r.path].content| <= 536_870_912
    ensures (forall p :: p in bundle ==> !bundle[p].Link?) ==> RecordMatches(bundle, r)
  {
    hide PlainText, StaysBelow, SafeRelativePath, Parents;
    SafePathsStayBelow([], r.path);
  }

  // ---------------------------------------------------------------- one digest pins the tree

  /** Two trees accepted for one digest carry the same decoded manifest and the same files with the
      same bytes, whatever further checks each verifier made. Only the layout of the manifest text and
      empty folders can differ. */
  lemma OneDigestPinsTree(a: Bundle, b: Bundle, expected: BundleDigest, decode: Bytes -> Option<Manifest>,
                          furtherA: (Bundle, Manifest) -> bool, furtherB: (Bundle, Manifest) -> bool)
    requires Accepts(a, expected, decode, furtherA)
    requires Accepts(b, expected, decode, furtherB)
    ensures ManifestOf(a, decode) == ManifestOf(b, decode)
    ensures FilesOf(a) == FilesOf(b)
    ensures forall p :: p in FilesOf(a) ==> a[p] == b[p]
  {
    hide RecordOk, DeclaredBytes, DistinctPaths;
    var inventory := ManifestOf(a, decode).value.body.inventory;
    assert ManifestOf(b, decode).value.body.inventory == inventory;
    forall p | p in FilesOf(a) ensures p in b && a[p] == b[p] {
      var record :| record in inventory && record.path == p;
      assert RecordMatches(a, record) && RecordMatches(b, record);
    }
  }

  /** Any change to an accepted tree other than to the manifest or its folders is rejected: a file
      added, a file taken away, or a byte changed. */
  lemma TamperingIsRejected(a: Bundle, b: Bundle, expected: BundleDigest, decode: Bytes -> Option<Manifest>,
                            further: (Bundle, Manifest) -> bool, path: string)
    requires Accepts(a, expected, decode, further)
    requires path != MANIFEST_NAME
    requires (path in a && a[path].Regular?) || (path in b && b[path].Regular?)
    requires !(path in a && path in b && a[path] == b[path])
    ensures !Accepts(b, expected, decode, further)
  {
    hide Accepts;
    if Accepts(b, expected, decode, further) {
      OneDigestPinsTree(a, b, expected, decode, further, further);
    }
  }
}
