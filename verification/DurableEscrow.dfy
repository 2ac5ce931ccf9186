/**
  Replication of an escrow manifest to a second location: plan, copying loop, restore checks of each
  location, and the aggregate conformance report.

  The content digest of a value is a free constructor over that value, one for each type.
 */
module DurableEscrow {
  import opened Prelude
  import opened ArtifactEscrow

  datatype Kind = Blob | Zip

  datatype Binding = Binding(role: string, logicalIdentity: string, blob: BlobIdentity, kind: Kind)

  datatype ManifestBody = ManifestBody(caseId: string, longRangeManifest: string, bindings: seq<Binding>)

  datatype ManifestDigest = ManifestDigest(body: ManifestBody)

  /** An escrow manifest; a valid one has at most one binding for each role. */
  datatype Manifest = Manifest(body: ManifestBody, identity: ManifestDigest)
  {
    predicate Valid() {
      && Canonical(body.caseId)
      && (forall i, j :: 0 <= i < j < |body.bindings| ==> body.bindings[i].role != body.bindings[j].role)
      && identity == ManifestDigest(body)
    }
  }

  datatype Location = Location(
    storageProfile: string,
    locationId: string,
    failureDomain: string,
    credentialDomain: string)

  datatype LocationDigest = LocationDigest(location: Location)

  datatype BlobEntry = BlobEntry(role: string, logicalIdentity: string, blob: BlobIdentity)

  datatype BlobSet = BlobSet(entries: seq<BlobEntry>)

  datatype Plan = Plan(
    caseId: string,
    manifest: ManifestDigest,
    source: LocationDigest,
    target: LocationDigest,
    blobSet: BlobSet,
    blobCount: nat,
    totalBytes: nat)
  {
    predicate Valid() {
      Canonical(caseId) && blobCount > 0 && source != target
    }
  }

  datatype PlanDigest = PlanDigest(plan: Plan)

  datatype Receipt = Receipt(
    plan: PlanDigest,
    caseId: string,
    manifest: ManifestDigest,
    source: LocationDigest,
    target: LocationDigest,
    blobSet: BlobSet,
    replicatedCount: nat,
    replicatedBytes: nat)

  datatype State = Pass | Fail

  datatype ViolationKind = VerifiedReadFailed | VerifiedSizeMismatch

  /** A violation text names a role and what went wrong. */
  datatype Violation = Violation(role: string, kind: ViolationKind)

  datatype RestoreReport = RestoreReport(
    caseId: string,
    manifest: ManifestDigest,
    location: LocationDigest,
    blobSet: BlobSet,
    expectedCount: nat,
    verifiedCount: nat,
    expectedBytes: nat,
    verifiedBytes: nat,
    state: State,
    violations: set<Violation>)
  {
    /** What the report's constructor demands. */
    predicate Valid() {
      && Canonical(caseId)
      && (state == Pass ==> violations == {} && expectedCount == verifiedCount && expectedBytes == verifiedBytes)
      && (state == Fail ==> violations != {})
    }
  }

  datatype AggregateViolation = SourceLocationRestoreFailed | TargetLocationRestoreFailed

  datatype ReceiptDigest = ReceiptDigest(receipt: Receipt)

  datatype RestoreDigest = RestoreDigest(report: RestoreReport)

  datatype ConformanceReport = ConformanceReport(
    plan: PlanDigest,
    receipt: ReceiptDigest,
    sourceRestore: RestoreDigest,
    targetRestore: RestoreDigest,
    state: State,
    externalEvidenceComplete: bool,
    violations: set<AggregateViolation>)
  {
    predicate Valid() {
      (state == Pass ==> violations == {}) && (state == Fail ==> violations != {})
    }
  }

  datatype DurableError =
    | SameLocation
    | SameStorageProfile
    | SameLocationId
    | SameFailureDomain
    | SameCredentialDomain
    | ScopeMismatch
    | NoPreservedBlobs
    | ManifestMismatch
    | SourceSubstitution
    | TargetSubstitution
    | BlobSetMismatch
    | BlobCountMismatch
    | ReplicationFailed
    | BlobIdentityChanged
    | ByteCountMismatch
    | PlanSubstitution
    | ReceiptMismatch
    | CaseSubstitution
    | RestoreSubstitution
    | SourceRestoreSubstitution
    | TargetRestoreSubstitution

  // ---------------------------------------------------------------- plans

  function TotalBytes(bindings: seq<Binding>): nat {
    if bindings == [] then 0
    else TotalBytes(bindings[..|bindings| - 1]) + bindings[|bindings| - 1].blob.size
  }

  function BlobSetOf(manifest: Manifest): BlobSet {
    var bindings := manifest.body.bindings;
    BlobSet(seq(|bindings|, i requires 0 <= i < |bindings| =>
      BlobEntry(bindings[i].role, bindings[i].logicalIdentity, bindings[i].blob)))
  }

  /** None where the two locations are separate in every respect. */
  function SeparationError(source: Location, target: Location): (error: Option<DurableError>)
    ensures error.None? <==>
              && source.storageProfile != target.storageProfile
              && source.locationId != target.locationId
              && source.failureDomain != target.failureDomain
              && source.credentialDomain != target.credentialDomain
  {
    if LocationDigest(source) == LocationDigest(target) then Some(SameLocation)
    else if source.storageProfile == target.storageProfile then Some(SameStorageProfile)
    else if source.locationId == target.locationId then Some(SameLocationId)
    else if source.failureDomain == target.failureDomain then Some(SameFailureDomain)
    else if source.credentialDomain == target.credentialDomain then Some(SameCredentialDomain)
    else None
  }

  function BuildPlan(expectedCase: string, manifest: Manifest, source: Location, target: Location)
    : Result<Plan, DurableError>
  {
    if !Canonical(expectedCase) || manifest.body.caseId != expectedCase then Err(ScopeMismatch)
    else if SeparationError(source, target).Some? then Err(SeparationError(source, target).value)
    else if manifest.body.bindings == [] then Err(NoPreservedBlobs)
    else Ok(Plan(expectedCase, manifest.identity, LocationDigest(source), LocationDigest(target), BlobSetOf(manifest),
                 |manifest.body.bindings|, TotalBytes(manifest.body.bindings)))
  }

  // ---------------------------------------------------------------- meaning of the copying loop

  /** The target store after the first bindings were copied, or None where one of them failed. */
  function Copied(source: Files, target: Files, bindings: seq<Binding>, limits: Limits): Option<Files> {
    if bindings == [] then Some(target)
    else
      var front := Copied(source, target, bindings[..|bindings| - 1], limits);
      if front.None? then None
      else
        var (result, after) := MigrateOf(source, front.value, bindings[|bindings| - 1].blob, limits);
        if result.Ok? then Some(after) else None
  }

  /** Blobs the source has and the target does not hold in a bad copy. */
  predicate Transferable(source: Files, target: Files, blob: BlobIdentity, limits: Limits) {
    && Readable(source, blob, limits)
    && (blob.digest in target ==> Readable(target, blob, limits))
  }

  /** The target grows by exactly the missing blobs and loses nothing. */
  ghost predicate Extends(target: Files, after: Files, bindings: seq<Binding>) {
    && (forall d :: d in target ==> d in after && after[d] == target[d])
    && (forall d :: d in after && d !in target ==>
          after[d] == Fresh(d.content) && exists b :: b in bindings && b.blob.digest == d)
  }

  /** The copying loop succeeds exactly when every blob is transferable. Then the target reads every
      blob as the source does, and has changed by the addition of missing blobs only. */
  lemma {:induction false} CopyMeaning(source: Files, target: Files, bindings: seq<Binding>, limits: Limits)
    ensures Copied(source, target, bindings, limits).Some? <==>
              forall b :: b in bindings ==> Transferable(source, target, b.blob, limits)
    ensures Copied(source, target, bindings, limits).Some? ==>
              var after := Copied(source, target, bindings, limits).value;
              && Extends(target, after, bindings)
              && (forall b :: b in bindings ==>
                    && Readable(after, b.blob, limits)
                    && ReadOf(after, b.blob, limits) == ReadOf(source, b.blob, limits))
    decreases |bindings|
  {
    hide MigrateOf, ReadOf;
    if bindings != [] {
      var front := bindings[..|bindings| - 1];
      var last := bindings[|bindings| - 1];
      CopyMeaning(source, target, front, limits);
      if Copied(source, target, front, limits).Some? {
        var mid := Copied(source, target, front, limits).value;
        CopyStep(source, target, mid, front, last, limits);
      } else {
        assert exists b :: b in front && !Transferable(source, target, b.blob, limits);
      }
    }
  }

  lemma CopyStep(source: Files, target: Files, mid: Files, front: seq<Binding>, last: Binding, limits: Limits)
    requires Extends(target, mid, front)
    requires forall b :: b in front ==> Readable(mid, b.blob, limits) && ReadOf(mid, b.blob, limits) == ReadOf(source, b.blob, limits)
    requires forall b :: b in front ==> Transferable(source, target, b.blob, limits)
    ensures var (result, after) := MigrateOf(source, mid, last.blob, limits);
            && (result.Ok? <==> Transferable(source, target, last.blob, limits))
            && (result.Ok? ==>
                  && Extends(target, after, front + [last])
                  && (forall b :: b in front + [last] ==>
                        && Readable(after, b.blob, limits)
                        && ReadOf(after, b.blob, limits) == ReadOf(source, b.blob, limits)))
  {
    var (result, after) := MigrateOf(source, mid, last.blob, limits);
    MigrationMeaning(source, mid, last.blob, limits);
    BadCopiesStayBad(source, target, mid, front, last.blob, limits);
    if result.Ok? {
      assert forall d :: d in mid ==> d in after && after[d] == mid[d];
      forall d | d in after && d !in target
        ensures after[d] == Fresh(d.content) && exists b :: b in front + [last] && b.blob.digest == d
      {
        if d in mid {
          var b :| b in front && b.blob.digest == d;
          assert b in front + [last];
        } else {
          assert last in front + [last];
        }
      }
      forall b | b in front + [last]
        ensures Readable(after, b.blob, limits) && ReadOf(after, b.blob, limits) == ReadOf(source, b.blob, limits)
      {
        if b in front {
          assert ReadOf(after, b.blob, limits) == ReadOf(mid, b.blob, limits);
        }
      }
    }
  }

  /** Copies made earlier neither repair nor spoil what the target holds under a digest. */
  lemma BadCopiesStayBad(source: Files, target: Files, mid: Files, front: seq<Binding>, blob: BlobIdentity,
                         limits: Limits)
    requires Extends(target, mid, front)
    ensures Readable(source, blob, limits) ==>
              ((blob.digest in mid ==> Readable(mid, blob, limits))
               <==> (blob.digest in target ==> Readable(target, blob, limits)))
  {
    if Readable(source, blob, limits) {
      ReadsAreFaithful(source, blob, limits);
      if blob.digest in target {
        assert ReadOf(mid, blob, limits) == ReadOf(target, blob, limits);
      } else if blob.digest in mid {
        assert mid[blob.digest] == Fresh(blob.digest.content);
      }
    }
  }

  // ---------------------------------------------------------------- replication

  function ScopeError(plan: Plan, manifest: Manifest, source: Location, target: Location): Option<DurableError> {
    if SeparationError(source, target).Some? then SeparationError(source, target)
    else if manifest.body.caseId != plan.caseId then Some(ScopeMismatch)
    else if manifest.identity != plan.manifest then Some(ManifestMismatch)
    else if LocationDigest(source) != plan.source then Some(SourceSubstitution)
    else if LocationDigest(target) != plan.target then Some(TargetSubstitution)
    else if BlobSetOf(manifest) != plan.blobSet then Some(BlobSetMismatch)
    else if |manifest.body.bindings| != plan.blobCount then Some(BlobCountMismatch)
    else None
  }

  /** Copies every blob of the manifest. Success leaves a target from which each blob reads as from
      the source. A failed loop leaves the copies that preceded the failure. */
  method Replicate(plan: Plan, manifest: Manifest, sourceLocation: Location, targetLocation: Location,
                   sourceBackend: FileSystemEscrowBackend, targetBackend: FileSystemEscrowBackend, limits: Limits)
    returns (result: Result<Receipt, DurableError>)
    requires plan.Valid() && manifest.Valid() && limits.Valid()
    modifies targetBackend
    ensures sourceBackend.files == old(sourceBackend.files)
    ensures Extends(old(targetBackend.files), targetBackend.files, manifest.body.bindings)
    ensures ScopeError(plan, manifest, sourceLocation, targetLocation).Some?
            ==> && result == Err(ScopeError(plan, manifest, sourceLocation, targetLocation).value)
                && targetBackend.files == old(targetBackend.files)
    ensures ScopeError(plan, manifest, sourceLocation, targetLocation).None? ==>
              var copied := Copied(old(sourceBackend.files), old(targetBackend.files), manifest.body.bindings, limits);
              if copied.None? then result == Err(ReplicationFailed)
              else
                && targetBackend.files == copied.value
                && result == if TotalBytes(manifest.body.bindings) != plan.totalBytes then Err(ByteCountMismatch)
                             else Ok(ReceiptFor(plan, sourceLocation, targetLocation))
  {
    var problem := ScopeError(plan, manifest, sourceLocation, targetLocation);
    if problem.Some? {
      return Err(problem.value);
    }
    var totalBytes := CopyAll(manifest.body.bindings, sourceBackend, targetBackend, limits);
    if totalBytes.Err? {
      return Err(totalBytes.error);
    }
    if totalBytes.value != plan.totalBytes {
      return Err(ByteCountMismatch);
    }
    result := Ok(Receipt(PlanDigest(plan), plan.caseId, plan.manifest, LocationDigest(sourceLocation),
                         LocationDigest(targetLocation), plan.blobSet, plan.blobCount, totalBytes.value));
  }

  /** The copying loop: the bytes copied, or the failure of the first blob that cannot be copied. */
  method CopyAll(bindings: seq<Binding>, sourceBackend: FileSystemEscrowBackend,
                 targetBackend: FileSystemEscrowBackend, limits: Limits)
    returns (total: Result<nat, DurableError>)
    requires limits.Valid()
    modifies targetBackend
    ensures sourceBackend.files == old(sourceBackend.files)
    ensures Extends(old(targetBackend.files), targetBackend.files, bindings)
    ensures var copied := Copied(old(sourceBackend.files), old(targetBackend.files), bindings, limits);
            if copied.None? then total == Err(ReplicationFailed)
            else total == Ok(TotalBytes(bindings)) && targetBackend.files == copied.value
  {
    hide Copied, MigrateOf, TotalBytes, Extends;
    ghost var source, target := sourceBackend.files, targetBackend.files;
    NothingCopied(source, target, limits);
    var totalBytes := 0;
    for i := 0 to |bindings|
      invariant sourceBackend.files == source
      invariant Copied(source, target, bindings[..i], limits) == Some(targetBackend.files)
      invariant totalBytes == TotalBytes(bindings[..i])
    {
      CopyNext(source, target, targetBackend.files, bindings, i, limits);
      var migrated := MigrateVerifiedBlob(bindings[i].blob, sourceBackend, targetBackend, limits);
      if migrated.Err? {
        return Err(ReplicationFailed);
      }
      if migrated.value != bindings[i].blob {
        return Err(BlobIdentityChanged);
      }
      totalBytes := totalBytes + migrated.value.size;
    }
    assert bindings[..|bindings|] == bindings;
    CopyMeaning(source, target, bindings, limits);
    total := Ok(totalBytes);
  }

  lemma NothingCopied(source: Files, target: Files, limits: Limits)
    ensures Copied(source, target, [], limits) == Some(target) && TotalBytes([]) == 0
  {
  }

  /** One round of the copying loop. */
  lemma CopyNext(source: Files, target: Files, mid: Files, bindings: seq<Binding>, i: nat, limits: Limits)
    requires i < |bindings| && Copied(source, target, bindings[..i], limits) == Some(mid)
    ensures TotalBytes(bindings[..i + 1]) == TotalBytes(bindings[..i]) + bindings[i].blob.size
    ensures var (result, after) := MigrateOf(source, mid, bindings[i].blob, limits);
            && (result.Ok? ==> result.value == bindings[i].blob && Copied(source, target, bindings[..i + 1], limits) == Some(after))
            && (result.Err? ==> after == mid && Copied(source, target, bindings, limits).None? && Extends(target, mid, bindings))
  {
    hide MigrateOf, Extends;
    assert bindings[..i + 1][..i] == bindings[..i];
    MigrationMeaning(source, mid, bindings[i].blob, limits);
    if MigrateOf(source, mid, bindings[i].blob, limits).0.Err? {
      FailureStops(source, target, bindings, i, limits);
      CopyMeaning(source, target, bindings[..i], limits);
      ExtendsMore(target, mid, bindings, i);
    }
  }

  function ReceiptFor(plan: Plan, source: Location, target: Location): Receipt {
    Receipt(PlanDigest(plan), plan.caseId, plan.manifest, LocationDigest(source), LocationDigest(target),
            plan.blobSet, plan.blobCount, plan.totalBytes)
  }

  lemma {:induction false} FailureStops(source: Files, target: Files, bindings: seq<Binding>, i: nat, limits: Limits)
    requires i < |bindings|
    requires Copied(source, target, bindings[..i], limits).Some?
    requires MigrateOf(source, Copied(source, target, bindings[..i], limits).value, bindings[i].blob, limits).0.Err?
    ensures Copied(source, target, bindings, limits).None?
  {
    assert bindings[..i + 1][..i] == bindings[..i];
    CopyMeaning(source, target, bindings[..i + 1], limits);
    CopyMeaning(source, target, bindings, limits);
  }

  lemma ExtendsMore(target: Files, after: Files, bindings: seq<Binding>, i: nat)
    requires i <= |bindings| && Extends(target, after, bindings[..i])
    ensures Extends(target, after, bindings)
  {
    assert forall b :: b in bindings[..i] ==> b in bindings;
  }

  // ---------------------------------------------------------------- restore checks

  predicate Restores(files: Files, limits: Limits, binding: Binding) {
    Readable(files, binding.blob, limits)
  }

  /** Reads every blob of the manifest at one location. Whatever the store holds, each binding is
      either verified or a violation of its own, and the report is one its constructor accepts. */
  method VerifyLocationRestore(expectedCase: string, manifest: Manifest, location: Location,
                               backend: FileSystemEscrowBackend, limits: Limits)
    returns (result: Result<RestoreReport, DurableError>)
    requires manifest.Valid() && limits.Valid()
    ensures result.Ok? <==> Canonical(expectedCase) && manifest.body.caseId == expectedCase
    ensures result.Err? ==> result.error == ScopeMismatch
    ensures result.Ok? ==> result.value == RestoreOf(manifest, location, backend.files, limits)
    ensures result.Ok? ==> result.value.Valid()
  {
    if !Canonical(expectedCase) || manifest.body.caseId != expectedCase {
      return Err(ScopeMismatch);
    }
    var bindings := manifest.body.bindings;
    var verifiedCount, verifiedBytes := 0, 0;
    var violations: set<Violation> := {};
    for i := 0 to |bindings|
      invariant verifiedCount == |Verified(bindings[..i], backend.files, limits)|
      invariant verifiedBytes == TotalBytes(Verified(bindings[..i], backend.files, limits))
      invariant violations == ViolationsOf(bindings[..i], backend.files, limits)
    {
      assert bindings[..i + 1][..i] == bindings[..i];
      var binding := bindings[i];
      NextBinding(bindings, i, backend.files, limits);
      var data := backend.Read(binding.blob, limits);
      if data.Err? {
        violations := violations + {Violation(binding.role, VerifiedReadFailed)};
        continue;
      }
      if |data.value| != binding.blob.size {
        violations := violations + {Violation(binding.role, VerifiedSizeMismatch)};
        continue;
      }
      verifiedCount := verifiedCount + 1;
      verifiedBytes := verifiedBytes + |data.value|;
    }
    assert bindings[..|bindings|] == bindings;
    RestoreConserves(bindings, backend.files, limits);
    var state := if violations == {} then Pass else Fail;
    result := Ok(RestoreReport(expectedCase, manifest.identity, LocationDigest(location), BlobSetOf(manifest),
                               |bindings|, verifiedCount, TotalBytes(bindings), verifiedBytes, state, violations));
  }

  /** The bindings whose blob the store can restore, in manifest order. */
  function Verified(bindings: seq<Binding>, files: Files, limits: Limits): seq<Binding> {
    if bindings == [] then []
    else
      var front, last := bindings[..|bindings| - 1], bindings[|bindings| - 1];
      Verified(front, files, limits) + if Restores(files, limits, last) then [last] else []
  }

  function ViolationsOf(bindings: seq<Binding>, files: Files, limits: Limits): set<Violation> {
    set b | b in bindings && !Restores(files, limits, b) :: Violation(b.role, VerifiedReadFailed)
  }

  function RestoreOf(manifest: Manifest, location: Location, files: Files, limits: Limits): RestoreReport {
    var bindings := manifest.body.bindings;
    var violations := ViolationsOf(bindings, files, limits);
    var verified := Verified(bindings, files, limits);
    RestoreReport(manifest.body.caseId, manifest.identity, LocationDigest(location), BlobSetOf(manifest),
                  |bindings|, |verified|, TotalBytes(bindings), TotalBytes(verified),
                  if violations == {} then Pass else Fail, violations)
  }

  lemma NextBinding(bindings: seq<Binding>, i: nat, files: Files, limits: Limits)
    requires i < |bindings|
    ensures Verified(bindings[..i + 1], files, limits)
         == Verified(bindings[..i], files, limits) + if Restores(files, limits, bindings[i]) then [bindings[i]] else []
    ensures TotalBytes(Verified(bindings[..i + 1], files, limits))
         == TotalBytes(Verified(bindings[..i], files, limits))
            + if Restores(files, limits, bindings[i]) then bindings[i].blob.size else 0
    ensures ViolationsOf(bindings[..i + 1], files, limits)
         == ViolationsOf(bindings[..i], files, limits)
            + if Restores(files, limits, bindings[i]) then {} else {Violation(bindings[i].role, VerifiedReadFailed)}
  {
    assert bindings[..i + 1][..i] == bindings[..i];
    var before := Verified(bindings[..i], files, limits);
    if Restores(files, limits, bindings[i]) {
      assert (before + [bindings[i]])[..|before|] == before;
    } else {
      assert before + [] == before;
    }
    assert bindings[..i + 1] == bindings[..i] + [bindings[i]];
  }

  predicate DistinctRoles(bindings: seq<Binding>) {
    forall i, j :: 0 <= i < j < |bindings| ==> bindings[i].role != bindings[j].role
  }

  /** In every restore check the verified bindings and the violations add up to the bindings. The
      check passes exactly when every blob is restorable, and then nothing is missing. */
  lemma {:induction false} RestoreConserves(bindings: seq<Binding>, files: Files, limits: Limits)
    requires DistinctRoles(bindings)
    ensures |Verified(bindings, files, limits)| + |ViolationsOf(bindings, files, limits)| == |bindings|
    ensures ViolationsOf(bindings, files, limits) == {} <==> forall b :: b in bindings ==> Restores(files, limits, b)
    ensures ViolationsOf(bindings, files, limits) == {} ==> Verified(bindings, files, limits) == bindings
    decreases |bindings|
  {
    hide Restores, ViolationsOf, Verified;
    NoBindings(files, limits);
    if bindings != [] {
      var n := |bindings| - 1;
      var front, last := bindings[..n], bindings[n];
      RestoreConserves(front, files, limits);
      NextBinding(bindings, n, files, limits);
      assert bindings[..n + 1] == bindings == front + [last];
      if !Restores(files, limits, last) {
        NewViolation(bindings, files, limits);
        assert last in bindings;
      }
      assert forall b :: b in bindings <==> b in front || b == last;
    }
  }

  lemma NoBindings(files: Files, limits: Limits)
    ensures Verified([], files, limits) == [] && ViolationsOf([], files, limits) == {}
  {
  }

  /** Roles are distinct, so a failing binding adds a violation that was not there. */
  lemma NewViolation(bindings: seq<Binding>, files: Files, limits: Limits)
    requires bindings != [] && DistinctRoles(bindings)
    ensures Violation(bindings[|bindings| - 1].role, VerifiedReadFailed)
            !in ViolationsOf(bindings[..|bindings| - 1], files, limits)
  {
    hide Restores;
    var front := bindings[..|bindings| - 1];
    forall b | b in front ensures b.role != bindings[|bindings| - 1].role {
      var i :| 0 <= i < |front| && front[i] == b;
      assert bindings[i] == b;
    }
  }

  // ---------------------------------------------------------------- the aggregate

  function BuildConformance(plan: Plan, receipt: Receipt, source: Location, target: Location,
                            sourceRestore: RestoreReport, targetRestore: RestoreReport)
    : Result<ConformanceReport, DurableError>
  {
    if SeparationError(source, target).Some? then Err(SeparationError(source, target).value)
    else if receipt.plan != PlanDigest(plan) then Err(PlanSubstitution)
    else if receipt.manifest != plan.manifest || receipt.blobSet != plan.blobSet
            || receipt.replicatedCount != plan.blobCount || receipt.replicatedBytes != plan.totalBytes
    then Err(ReceiptMismatch)
    else if sourceRestore.caseId != plan.caseId || targetRestore.caseId != plan.caseId then Err(CaseSubstitution)
    else if sourceRestore.manifest != plan.manifest || targetRestore.manifest != plan.manifest
            || sourceRestore.blobSet != plan.blobSet || targetRestore.blobSet != plan.blobSet
    then Err(RestoreSubstitution)
    else if sourceRestore.location != LocationDigest(source) then Err(SourceRestoreSubstitution)
    else if targetRestore.location != LocationDigest(target) then Err(TargetRestoreSubstitution)
    else
      var violations := (if sourceRestore.state != Pass then {SourceLocationRestoreFailed} else {})
                      + (if targetRestore.state != Pass then {TargetLocationRestoreFailed} else {});
      Ok(ConformanceReport(PlanDigest(plan), ReceiptDigest(receipt), RestoreDigest(sourceRestore),
                           RestoreDigest(targetRestore), if violations == {} then Pass else Fail, false, violations))
  }

  /** A receipt that says of a plan what a replication under it reports. */
  predicate ReceiptFits(plan: Plan, receipt: Receipt) {
    && receipt.plan.plan == plan
    && (receipt.manifest, receipt.blobSet) == (plan.manifest, plan.blobSet)
    && (receipt.replicatedCount, receipt.replicatedBytes) == (plan.blobCount, plan.totalBytes)
  }

  /** Nothing can be substituted. With a plan for this manifest and these locations, an aggregate is built
      exactly from a receipt that fits the plan and two reports that name the plan's case, manifest and blobs
      and one of the two locations each, the source's first. */
  lemma SubstitutionIsRefused(plan: Plan, manifest: Manifest, source: Location, target: Location, receipt: Receipt,
                              sourceReport: RestoreReport, targetReport: RestoreReport)
    requires plan.Valid() && manifest.Valid() && ScopeError(plan, manifest, source, target).None?
    ensures BuildConformance(plan, receipt, source, target, sourceReport, targetReport).Ok? <==>
              && ReceiptFits(plan, receipt)
              && sourceReport.location.location == source && targetReport.location.location == target
              && (forall report :: report in [sourceReport, targetReport] ==>
                    && report.caseId == manifest.body.caseId
                    && report.manifest.body == manifest.body
                    && report.blobSet == BlobSetOf(manifest))
  {
    var pair := [sourceReport, targetReport];
    assert pair[0] in pair && pair[1] in pair;
    assert manifest.identity == ManifestDigest(manifest.body);
  }

  /** A restore report says of any store which documents it is about and whether a blob is lost there. */
  lemma ReportMeaning(manifest: Manifest, location: Location, files: Files, limits: Limits)
    requires manifest.Valid()
    ensures var report := RestoreOf(manifest, location, files, limits);
            && report.caseId == manifest.body.caseId && report.manifest.body == manifest.body
            && report.blobSet == BlobSetOf(manifest) && report.location.location == location
            && (report.state == Fail <==> exists b :: b in manifest.body.bindings && !Readable(files, b.blob, limits))
  {
    hide ReadOf;
    RestoreConserves(manifest.body.bindings, files, limits);
    assert forall b :: Restores(files, limits, b) == Readable(files, b.blob, limits);
  }

  /** What the aggregate says of two stores, whatever they hold. It is PASS exactly when every blob of the
      manifest can be read from both, and it accuses each location exactly when some blob is lost there. */
  lemma AggregateMeaning(plan: Plan, manifest: Manifest, source: Location, target: Location, receipt: Receipt,
                         sourceFiles: Files, targetFiles: Files, limits: Limits)
    requires plan.Valid() && manifest.Valid() && limits.Valid()
    requires ScopeError(plan, manifest, source, target).None? && ReceiptFits(plan, receipt)
    ensures var bindings := manifest.body.bindings;
            var sourceReport := RestoreOf(manifest, source, sourceFiles, limits);
            var targetReport := RestoreOf(manifest, target, targetFiles, limits);
            var aggregate := BuildConformance(plan, receipt, source, target, sourceReport, targetReport);
            && aggregate.Ok? && aggregate.value.Valid()
            && (aggregate.value.state == Pass <==>
                  forall b :: b in bindings ==> Readable(sourceFiles, b.blob, limits) && Readable(targetFiles, b.blob, limits))
            && (SourceLocationRestoreFailed in aggregate.value.violations <==>
                  exists b :: b in bindings && !Readable(sourceFiles, b.blob, limits))
            && (TargetLocationRestoreFailed in aggregate.value.violations <==>
                  exists b :: b in bindings && !Readable(targetFiles, b.blob, limits))
            && aggregate.value.plan.plan == plan && aggregate.value.receipt.receipt == receipt
            && aggregate.value.sourceRestore.report == sourceReport && aggregate.value.targetRestore.report == targetReport
  {
    hide RestoreOf, Readable, BuildConformance;
    var sourceReport, targetReport :=
      RestoreOf(manifest, source, sourceFiles, limits), RestoreOf(manifest, target, targetFiles, limits);
    ReportMeaning(manifest, source, sourceFiles, limits);
    ReportMeaning(manifest, target, targetFiles, limits);
    SubstitutionIsRefused(plan, manifest, source, target, receipt, sourceReport, targetReport);
    AggregateOfStates(plan, receipt, source, target, sourceReport, targetReport);
  }

  lemma AggregateOfStates(plan: Plan, receipt: Receipt, source: Location, target: Location,
                          sourceReport: RestoreReport, targetReport: RestoreReport)
    requires BuildConformance(plan, receipt, source, target, sourceReport, targetReport).Ok?
    ensures var aggregate := BuildConformance(plan, receipt, source, target, sourceReport, targetReport).value;
            && aggregate.Valid()
            && (aggregate.state == Pass <==> sourceReport.state == targetReport.state == Pass)
            && (SourceLocationRestoreFailed in aggregate.violations <==> sourceReport.state == Fail)
            && (TargetLocationRestoreFailed in aggregate.violations <==> targetReport.state == Fail)
            && aggregate.plan.plan == plan && aggregate.receipt.receipt == receipt
            && aggregate.sourceRestore.report == sourceReport && aggregate.targetRestore.report == targetReport
  {
    hide SeparationError;
  }

  /** In particular the restore report of another manifest, or of another location, or of the two locations
      exchanged, is refused whatever the stores hold. */
  lemma ForeignReportsAreRefused(plan: Plan, manifest: Manifest, source: Location, target: Location, receipt: Receipt,
                                 other: Manifest, a: Location, b: Location, sourceFiles: Files, targetFiles: Files,
                                 limits: Limits)
    requires plan.Valid() && manifest.Valid() && other.Valid() && ScopeError(plan, manifest, source, target).None?
    requires other != manifest || a != source || b != target
    ensures BuildConformance(plan, receipt, source, target, RestoreOf(other, a, sourceFiles, limits),
                             RestoreOf(manifest, b, targetFiles, limits)).Err?
    ensures BuildConformance(plan, receipt, source, target, RestoreOf(manifest, a, sourceFiles, limits),
                             RestoreOf(other, b, targetFiles, limits)).Err?
  {
    hide ViolationsOf, Verified, BuildConformance;
    var s1, t1 := RestoreOf(other, a, sourceFiles, limits), RestoreOf(manifest, b, targetFiles, limits);
    var s2, t2 := RestoreOf(manifest, a, sourceFiles, limits), RestoreOf(other, b, targetFiles, limits);
    assert s1 in [s1, t1] && t2 in [s2, t2];
    SubstitutionIsRefused(plan, manifest, source, target, receipt, s1, t1);
    SubstitutionIsRefused(plan, manifest, source, target, receipt, s2, t2);
  }

  /** Replication is restorable. Whatever plan it ran under, a replication that returned a receipt left
      every blob of the manifest byte-identical at both locations and nothing changed at the source.
      The restore checks of the two stores find every blob and every byte of the plan, and the aggregate
      of these reports is a PASS without violations. */
  lemma ReplicationIsRestorable(plan: Plan, manifest: Manifest, source: Location, target: Location,
                                sourceFiles: Files, targetFiles: Files, after: Files, limits: Limits)
    requires plan.Valid() && manifest.Valid() && limits.Valid()
    requires ScopeError(plan, manifest, source, target).None?
    requires Copied(sourceFiles, targetFiles, manifest.body.bindings, limits) == Some(after)
    requires TotalBytes(manifest.body.bindings) == plan.totalBytes
    ensures forall b :: b in manifest.body.bindings ==>
              && ReadOf(after, b.blob, limits) == ReadOf(sourceFiles, b.blob, limits) == Ok(b.blob.digest.content)
              && ForBytes(b.blob.digest.content) == b.blob
    ensures var sourceReport := RestoreOf(manifest, source, sourceFiles, limits);
            var targetReport := RestoreOf(manifest, target, after, limits);
            var aggregate := BuildConformance(plan, ReceiptFor(plan, source, target), source, target, sourceReport, targetReport);
            && ReceiptFor(plan, source, target).source == plan.source
            && ReceiptFor(plan, source, target).target == plan.target
            && sourceReport.state == Pass && targetReport.state == Pass
            && sourceReport.verifiedCount == targetReport.verifiedCount == plan.blobCount
            && sourceReport.verifiedBytes == targetReport.verifiedBytes == plan.totalBytes
            && aggregate.Ok? && aggregate.value.Valid()
            && aggregate.value.state == Pass && aggregate.value.violations == {}
  {
    hide Copied, ReadOf;
    var bindings := manifest.body.bindings;
    CopyMeaning(sourceFiles, targetFiles, bindings, limits);
    RestoreConserves(bindings, sourceFiles, limits);
    RestoreConserves(bindings, after, limits);
    forall b | b in bindings
      ensures ReadOf(sourceFiles, b.blob, limits) == Ok(b.blob.digest.content) && ForBytes(b.blob.digest.content) == b.blob
    {
      assert Transferable(sourceFiles, targetFiles, b.blob, limits);
      ReadsAreFaithful(sourceFiles, b.blob, limits);
    }
    assert forall b :: b in bindings ==> Restores(sourceFiles, limits, b) && Restores(after, limits, b);
  }

  /** Plans are built exactly for a manifest of the expected case that preserves something, between two
      locations that differ in all four respects. Under such a plan replication checks nothing but the
      blobs. */
  lemma BuiltPlansReplicate(expectedCase: string, manifest: Manifest, source: Location, target: Location)
    requires manifest.Valid()
    ensures var built := BuildPlan(expectedCase, manifest, source, target);
            && (built.Ok? <==>
                  && expectedCase == manifest.body.caseId && manifest.body.bindings != []
                  && source.storageProfile != target.storageProfile && source.locationId != target.locationId
                  && source.failureDomain != target.failureDomain && source.credentialDomain != target.credentialDomain)
            && (built.Ok? ==>
                  && built.value.Valid()
                  && ScopeError(built.value, manifest, source, target).None?
                  && built.value.totalBytes == TotalBytes(manifest.body.bindings))
  {
  }
}
