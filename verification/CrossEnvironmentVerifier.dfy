/**
  The standalone verifier of cross-environment reports, and its agreement with the builder. It repeats
  the builder's compatibility and classification rules. It differs in how it decides the matrix, in the
  checks it adds (inventory records, allowed inventories, coherent statuses) and in those it lacks (texts).
 */
module CrossEnvironmentVerifier {
  import opened Prelude
  import opened CrossEnvironment

  // ---------------------------------------------------------------- the verifier's checks

  predicate PlanHolds(world: World, plan: Plan) {
    && plan.body.schema == PLAN_SCHEMA
    && plan.digest == world.hash(PlanDocument(plan.body))
    && !(|plan.body.profiles| < 2 || !StrictlySorted(plan.body.profiles) || plan.body.matrix != plan.body.profiles)
    && plan.body.reference in plan.body.profiles
  }

  predicate ProfileHolds(world: World, profile: Profile) {
    && profile.body.schema == PROFILE_SCHEMA
    && !(profile.body.physical == [] || !StrictlySorted(profile.body.physical))
    && profile.digest == world.hash(ProfileDocument(profile.body))
  }

  predicate ArtifactHolds(artifact: Artifact) {
    && artifact.exactKeys
    && Canonical(artifact.name)
    && Canonical(artifact.version)
    && artifact.filesDigest.Some?
  }

  predicate InventoryHolds(observed: ObservedBody) {
    forall artifact :: artifact in observed.inventory ==> ArtifactHolds(artifact)
  }

  /** The inventories the verifier takes: of records with exactly the four fields, a digest, and a name and a
      version that are not blank and have nothing to strip. */
  lemma InventoriesAreTakenExactlyWhen(observed: ObservedBody)
    ensures InventoryHolds(observed) <==>
              forall artifact :: artifact in observed.inventory ==>
                && artifact.exactKeys && artifact.filesDigest.Some?
                && (forall text :: text in [artifact.name, artifact.version] ==> text != "" && Strip(text) == text)
  {
    forall text ensures Canonical(text) <==> text != "" && Strip(text) == text { StripShortens(text); }
    hide Canonical, Strip;
    forall artifact: Artifact ensures artifact.name in [artifact.name, artifact.version]
                                      && artifact.version in [artifact.name, artifact.version] {
      assert [artifact.name, artifact.version][1] == artifact.version;
    }
  }

  predicate ObservedHolds(world: World, observed: Observed) {
    && observed.body.schema == OBSERVED_SCHEMA
    && observed.body.inventoryDigest == world.hash(InventoryDocument(observed.body.inventory))
    && InventoryHolds(observed.body)
    && observed.digest == world.hash(ObservedDocument(observed.body))
  }

  predicate SameEnvironment(world: World, profile: ProfileBody, observed: ObservedBody) {
    if profile.runtime.osFamily != observed.runtime.osFamily
       || profile.runtime.architecture != observed.runtime.architecture
       || profile.runtime.pythonImplementation != observed.runtime.pythonImplementation
       || profile.runtime.pythonVersion != observed.runtime.pythonVersion
       || profile.runtime.pythonCacheTag != observed.runtime.pythonCacheTag
       || profile.runtime.pythonSoabi != observed.runtime.pythonSoabi
    then false
    else if observed.inventoryDigest !in profile.physical then false
    else
      var majorMinor := world.majorMinor(observed.runtime.pythonVersion);
      if majorMinor.None? then false
      else TupleAtMost([3, 11], majorMinor.value) && TupleLess(majorMinor.value, [3, 15])
  }

  function ExpectedResult(drift: Drift, compatible: bool, complete: bool, profile: Digest, reference: Digest)
    : Classification
  {
    if !complete || drift == DriftUnverifiable || drift == Abstain then Unverifiable
    else if !compatible then EnvironmentIncompatible
    else if drift == SemanticDrift then SemanticDriftFound
    else if drift == PresentationOnly then PresentationOnlyDrift
    else if profile == reference then ExactEnvironmentReplay
    else SemanticallyEquivalent
  }

  predicate ReceiptHolds(world: World, plan: Plan, profiles: map<Digest, Profile>,
                         observed: map<Digest, Observed>, receipt: Receipt)
  {
    var body := receipt.body;
    && body.schema == RECEIPT_SCHEMA
    && receipt.digest == world.hash(ReceiptDocument(body))
    && body.profile in profiles
    && body.observed in observed
    && var profile, observation := profiles[body.profile].body, observed[body.observed].body;
    && observation.declaredProfile == body.profile
    && observation.environmentPolicy == profile.environmentPolicy
    && body.verifier == profile.verifier
    && body.verifier == observation.verifier
    && body.plan == plan.digest
    && PlanBound(plan.body, body)
    && observation.inventoryDigest in profile.physical
    && var compatible := SameEnvironment(world, profile, observation);
    && !(body.status == Verified && !compatible)
    && !(body.status == Incompatible && compatible)
    && body.classification
       == ExpectedResult(body.drift, compatible, Complete(body), body.profile, plan.body.reference)
    && !(body.status == Verified && body.failure.Some?)
    && body.network == "DENY"
    && !body.ledgerWrite
    && !body.productWrite
  }

  predicate VerifierAccepts(world: World, report: Report, expected: Option<Digest>) {
    var body := report.body;
    && body.schema == REPORT_SCHEMA
    && body.matrixComplete
    && report.digest == world.hash(ReportDocument(body))
    && (expected.Some? ==> expected.value == report.digest)
    && PlanHolds(world, body.plan)
    && (forall p :: p in body.profiles ==> ProfileHolds(world, p))
    && Distinct(body.profiles)
    && (forall o :: o in body.observed ==> ObservedHolds(world, o))
    && Distinct(body.observed)
    && (forall r :: r in body.receipts ==>
          ReceiptHolds(world, body.plan, Index(body.profiles), Index(body.observed), r))
    && Distinct(body.receipts)
    && OneReceiptPerProfile(body.plan.body.matrix, body.profiles, body.receipts)
  }

  // ---------------------------------------------------------------- the verifier

  method VerifyReport(world: World, report: Report, expected: Option<Digest>) returns (verified: Option<Digest>)
    ensures verified.Some? <==> VerifierAccepts(world, report, expected)
    ensures verified.Some? ==> verified.value == report.digest
  {
    hide PlanHolds, ProfileHolds, ObservedHolds, ReceiptHolds, OneReceiptPerProfile, Index, Distinct;
    EmptyIndex<ProfileBody>();
    EmptyIndex<ObservedBody>();
    EmptyIndex<ReceiptBody>();
    var body := report.body;
    if body.schema != REPORT_SCHEMA || !body.matrixComplete
       || report.digest != world.hash(ReportDocument(body))
       || (expected.Some? && report.digest != expected.value)
       || !PlanHolds(world, body.plan)
    {
      return None;
    }
    var profiles: map<Digest, Profile> := map[];
    for i := 0 to |body.profiles|
      invariant profiles == Index(body.profiles[..i]) && Distinct(body.profiles[..i])
      invariant forall p :: p in body.profiles[..i] ==> ProfileHolds(world, p)
    {
      Snoc(body.profiles, i);
      if !ProfileHolds(world, body.profiles[i]) || body.profiles[i].digest in profiles {
        return None;
      }
      profiles := profiles[body.profiles[i].digest := body.profiles[i]];
    }
    assert body.profiles[..|body.profiles|] == body.profiles;
    var observed: map<Digest, Observed> := map[];
    for i := 0 to |body.observed|
      invariant observed == Index(body.observed[..i]) && Distinct(body.observed[..i])
      invariant forall o :: o in body.observed[..i] ==> ObservedHolds(world, o)
    {
      Snoc(body.observed, i);
      if !ObservedHolds(world, body.observed[i]) || body.observed[i].digest in observed {
        return None;
      }
      observed := observed[body.observed[i].digest := body.observed[i]];
    }
    assert body.observed[..|body.observed|] == body.observed;
    verified := VerifyMatrix(world, report, profiles, observed);
  }

  /** The loop over the receipts and the comparison of what it has seen with the matrix. */
  method VerifyMatrix(world: World, report: Report, profiles: map<Digest, Profile>, observed: map<Digest, Observed>)
    returns (verified: Option<Digest>)
    requires profiles == Index(report.body.profiles) && Distinct(report.body.profiles)
    requires PlanHolds(world, report.body.plan)
    ensures verified.Some? <==>
              && (forall r :: r in report.body.receipts ==> ReceiptHolds(world, report.body.plan, profiles, observed, r))
              && Distinct(report.body.receipts)
              && OneReceiptPerProfile(report.body.plan.body.matrix, report.body.profiles, report.body.receipts)
    ensures verified.Some? ==> verified.value == report.digest
  {
    hide ReceiptHolds, OneReceiptPerProfile, Index, Distinct;
    EmptyIndex<ReceiptBody>();
    var receipts := report.body.receipts;
    var matrix := report.body.plan.body.matrix;
    var seenProfiles: set<Digest> := {};
    var seenReceipts: set<Digest> := {};
    for i := 0 to |receipts|
      invariant seenReceipts == Index(receipts[..i]).Keys && Distinct(receipts[..i])
      invariant seenProfiles == Elements(ProfilesOf(receipts[..i])) && AllDifferent(ProfilesOf(receipts[..i]))
      invariant forall r :: r in receipts[..i] ==> ReceiptHolds(world, report.body.plan, profiles, observed, r)
    {
      Snoc(receipts, i);
      SeeProfile(receipts, i);
      var receipt := receipts[i];
      if receipt.digest in seenReceipts {
        return None;
      }
      seenReceipts := seenReceipts + {receipt.digest};
      if receipt.body.profile in seenProfiles {
        SharedProfile(matrix, report.body.profiles, receipts, i);
        return None;
      }
      seenProfiles := seenProfiles + {receipt.body.profile};
      if !ReceiptHolds(world, report.body.plan, profiles, observed, receipt) {
        return None;
      }
    }
    assert receipts[..|receipts|] == receipts;
    var expected := Elements(matrix);
    MatrixBySeeing(matrix, report.body.profiles, receipts);
    if expected != seenProfiles || expected != profiles.Keys {
      return None;
    }
    if |seenReceipts| != |matrix| {
      assert false by {
        DistinctIndex(receipts);
        ElementsBound(ProfilesOf(receipts));
        ElementsBound(matrix);
      }
    }
    verified := Some(report.digest);
  }

  lemma SeeProfile(receipts: seq<Receipt>, i: nat)
    requires i < |receipts|
    ensures Elements(ProfilesOf(receipts[..i + 1])) == Elements(ProfilesOf(receipts[..i])) + {receipts[i].body.profile}
    ensures AllDifferent(ProfilesOf(receipts[..i])) && receipts[i].body.profile !in Elements(ProfilesOf(receipts[..i]))
            ==> AllDifferent(ProfilesOf(receipts[..i + 1]))
  {
    assert ProfilesOf(receipts[..i + 1]) == ProfilesOf(receipts[..i]) + [receipts[i].body.profile];
    var before := ProfilesOf(receipts[..i]);
    assert forall k :: 0 <= k < |before| ==> before[k] in Elements(before);
  }

  /** A receipt for a profile already seen means that some profile has two receipts. */
  lemma SharedProfile(matrix: seq<Digest>, profiles: seq<Profile>, receipts: seq<Receipt>, i: nat)
    requires i < |receipts| && Distinct(receipts[..i + 1])
    requires receipts[i].body.profile in Elements(ProfilesOf(receipts[..i]))
    ensures !OneReceiptPerProfile(matrix, profiles, receipts)
  {
    var before := ProfilesOf(receipts[..i]);
    var k :| 0 <= k < |before| && before[k] == receipts[i].body.profile;
    assert receipts[..i + 1][k].digest != receipts[..i + 1][i].digest;
    assert receipts[k] in receipts && receipts[i] in receipts;
  }

  /** Receipts with pairwise different profiles cover the matrix when the profiles seen are its. */
  lemma MatrixBySeeing(matrix: seq<Digest>, profiles: seq<Profile>, receipts: seq<Receipt>)
    requires Distinct(profiles) && Distinct(receipts) && AllDifferent(ProfilesOf(receipts))
    ensures Elements(matrix) == Elements(ProfilesOf(receipts)) && Elements(matrix) == Index(profiles).Keys
            <==> OneReceiptPerProfile(matrix, profiles, receipts)
  {
    hide Index, Distinct, AllDifferent;
    MatrixByCounting(matrix, profiles, receipts);
    ReceiptProfiles(receipts);
    DistinctIndex(receipts);
    ElementsBound(ProfilesOf(receipts));
  }

  // ---------------------------------------------------------------- agreement

  /** The two programs carry the same two rules, each in its own text. */
  lemma SameClassification(world: World, profile: ProfileBody, observed: ObservedBody, body: ReceiptBody, reference: Digest)
    ensures SameEnvironment(world, profile, observed) == Compatible(world, profile, observed)
    ensures ExpectedResult(body.drift, SameEnvironment(world, profile, observed), Complete(body), body.profile, reference)
         == Classify(body.drift, Compatible(world, profile, observed), Complete(body), body.profile, reference)
  {
  }

  predicate SameInputs(r: ReceiptBody, s: ReceiptBody) {
    && (r.plan, r.bundle, r.supplyChain) == (s.plan, s.bundle, s.supplyChain)
    && (r.replayPolicy, r.migrationRegistry) == (s.replayPolicy, s.migrationRegistry)
    && (r.canonicalization, r.cryptoProfile) == (s.canonicalization, s.cryptoProfile)
  }

  /** The receipt is of the report's plan and bundle, without network and without writes; its environment was
      observed, and its verifier and environment policy are those its profile names. */
  predicate RanAsDescribed(report: ReportBody, r: ReceiptBody) {
    && r.plan == report.plan.digest && r.bundle == report.plan.body.bundle
    && r.network == "DENY" && !r.ledgerWrite && !r.productWrite
    && !(r.status == Verified && r.failure.Some?)
    && exists p, o :: p in report.profiles && o in report.observed
         && p.digest == r.profile == o.body.declaredProfile && o.digest == r.observed
         && p.body.verifier == o.body.verifier == r.verifier
         && p.body.environmentPolicy == o.body.environmentPolicy
  }

  lemma ReceiptsRanAsDescribed(world: World, report: Report, expected: Option<Digest>, r: Receipt)
    requires VerifierAccepts(world, report, expected) && r in report.body.receipts
    ensures RanAsDescribed(report.body, r.body) && PlanBound(report.body.plan.body, r.body)
    ensures r.body.plan == report.body.plan.digest
  {
    hide SameEnvironment, ExpectedResult, ProfileHolds, ObservedHolds, Index, OneReceiptPerProfile, Distinct, PlanHolds;
    var profiles, observed := Index(report.body.profiles), Index(report.body.observed);
    assert ReceiptHolds(world, report.body.plan, profiles, observed, r);
    IndexHoldsItems(report.body.profiles);
    IndexHoldsItems(report.body.observed);
    assert profiles[r.body.profile] in report.body.profiles && observed[r.body.observed] in report.body.observed;
  }

  /** A verified report compares like with like: at least two different environments and the reference among
      them, one receipt each, all for the same plan, artifacts and policies. */
  lemma VerifiedReportsCompareLikeWithLike(world: World, report: Report, expected: Option<Digest>)
    requires VerifierAccepts(world, report, expected)
    ensures var receipts := report.body.receipts;
            && (exists r, s :: r in receipts && s in receipts && r.body.profile != s.body.profile)
            && (exists r :: r in receipts && r.body.profile == report.body.plan.body.reference)
            && (forall r, s :: r in receipts && s in receipts ==>
                  (r != s ==> r.body.profile != s.body.profile) && SameInputs(r.body, s.body))
            && (forall r :: r in receipts ==> RanAsDescribed(report.body, r.body))
  {
    hide ReceiptHolds, ProfileHolds, ObservedHolds, Index, Distinct, RanAsDescribed;
    var receipts, plan := report.body.receipts, report.body.plan.body;
    var a, b := plan.matrix[0], plan.matrix[1];
    assert a in plan.matrix && b in plan.matrix && plan.reference in plan.matrix;
    forall r | r in receipts
      ensures RanAsDescribed(report.body, r.body) && PlanBound(plan, r.body) && r.body.plan == report.body.plan.digest
    {
      ReceiptsRanAsDescribed(world, report, expected, r);
    }
  }

  /** What each classification of a verified report says about its receipt's run: whether it was complete,
      whether the environment fitted, what drift was found, and whether it was the reference environment. */
  lemma ClassificationsMean(world: World, report: Report, receipt: Receipt)
    requires VerifierAccepts(world, report, None) && receipt in report.body.receipts
    requires forall text :: world.majorMinor(text).Some? ==> |world.majorMinor(text).value| <= 2
    ensures receipt.body.profile in Index(report.body.profiles) && receipt.body.observed in Index(report.body.observed)
    ensures var body, result := receipt.body, receipt.body.classification;
            var fits := EnvironmentFits(world, Index(report.body.profiles)[body.profile].body,
                                        Index(report.body.observed)[body.observed].body);
            var decided := body.status == Verified && body.semanticResult.Some? && body.invariantReport.Some?
                           && body.drift in {NoDrift, PresentationOnly, SemanticDrift};
            && (body.status == Verified ==> fits)
            && (result == Unverifiable <==> !decided)
            && result != EnvironmentIncompatible
            && (result == SemanticDriftFound <==> decided && body.drift == SemanticDrift)
            && (result == PresentationOnlyDrift <==> decided && body.drift == PresentationOnly)
            && (result == ExactEnvironmentReplay <==>
                  decided && body.drift == NoDrift && body.profile == report.body.plan.body.reference)
            && (result == SemanticallyEquivalent <==>
                  decided && body.drift == NoDrift && body.profile != report.body.plan.body.reference)
  {
    hide Index, Distinct, OneReceiptPerProfile, ProfileHolds, ObservedHolds, PlanHolds, TupleLess, TupleAtMost;
    var profiles, observed := Index(report.body.profiles), Index(report.body.observed);
    assert ReceiptHolds(world, report.body.plan, profiles, observed, receipt);
    SupportedVersions(world, observed[receipt.body.observed].body.runtime.pythonVersion);
  }

  /** What the verifier demands of a receipt and the report builder does not. */
  predicate ReceiptExtras(world: World, profiles: map<Digest, Profile>, observed: map<Digest, Observed>, body: ReceiptBody) {
    && body.profile in profiles
    && body.observed in observed
    && var profile, observation := profiles[body.profile].body, observed[body.observed].body;
    && observation.inventoryDigest in profile.physical
    && Coherent(body.status, Compatible(world, profile, observation))
  }

  lemma ReceiptChecksAgree(world: World, plan: Plan, profiles: map<Digest, Profile>, observed: map<Digest, Observed>,
                           receipt: Receipt)
    ensures ReceiptOk(world, receipt) && ReceiptFits(world, plan, profiles, observed, receipt.body)
            ==> (ReceiptHolds(world, plan, profiles, observed, receipt)
                 <==> ReceiptExtras(world, profiles, observed, receipt.body))
    ensures ReceiptHolds(world, plan, profiles, observed, receipt)
            ==> && ReceiptExtras(world, profiles, observed, receipt.body)
                && ReceiptFits(world, plan, profiles, observed, receipt.body)
                && (receipt.body.failure.None? || CleanText(receipt.body.failure.value) ==> ReceiptOk(world, receipt))
  {
    hide TupleLess, TupleAtMost, PythonSupported;
    if receipt.body.profile in profiles && receipt.body.observed in observed {
      SameClassification(world, profiles[receipt.body.profile].body, observed[receipt.body.observed].body,
                         receipt.body, plan.body.reference);
    }
  }

  lemma SealChecksAgree(world: World, plan: Plan, profiles: seq<Profile>, observed: seq<Observed>)
    ensures PlanOk(world, plan) <==> PlanHolds(world, plan)
    ensures forall p :: p in profiles && ProfileOk(world, p) ==> ProfileHolds(world, p)
    ensures forall o :: o in observed && ObservedOk(world, o) ==> (ObservedHolds(world, o) <==> InventoryHolds(o.body))
  {
    hide InventoryHolds, CleanText, CleanRuntime;
  }

  /** The matrix condition depends on the members of the inventories only. */
  lemma MatrixIgnoresOrder(matrix: seq<Digest>, profiles: seq<Profile>, receipts: seq<Receipt>,
                           listed: seq<Profile>, filed: seq<Receipt>)
    requires forall p :: p in profiles <==> p in listed
    requires forall r :: r in receipts <==> r in filed
    ensures OneReceiptPerProfile(matrix, profiles, receipts) <==> OneReceiptPerProfile(matrix, listed, filed)
  {
  }

  /** Builder and verifier agree: a report the builder returns is accepted exactly when the inventory
      records are well formed, every observed inventory is one its profile allows, and no receipt's
      status contradicts its environments. */
  lemma BuilderVerifierAgree(world: World, plan: Plan, profiles: seq<Profile>, observed: seq<Observed>,
                             receipts: seq<Receipt>, supersedes: Option<Digest>)
    requires BuilderAccepts(world, plan, profiles, observed, receipts)
    ensures var report := ReportOf(world, plan, profiles, observed, receipts, supersedes);
            VerifierAccepts(world, report, Some(report.digest)) <==>
            && (forall o :: o in observed ==> InventoryHolds(o.body))
            && (forall r :: r in receipts ==> ReceiptExtras(world, Index(profiles), Index(observed), r.body))
  {
    hide Index, Distinct, SortedKeys, SortedValues, ReceiptFits, ReceiptHolds, ReceiptExtras, ReceiptOk, InventoryHolds,
      PlanOk, PlanHolds, ProfileOk, ProfileHolds, ObservedOk, ObservedHolds, OneReceiptPerProfile;
    var listed, seen, filed := SortedValues(Index(profiles)), SortedValues(Index(observed)), SortedValues(Index(receipts));
    SortingKeepsMembers(profiles);
    SortingKeepsMembers(observed);
    SortingKeepsMembers(receipts);
    SameMembersSameIndex(profiles, listed);
    SameMembersSameIndex(observed, seen);
    SealChecksAgree(world, plan, profiles, observed);
    MatrixIgnoresOrder(plan.body.matrix, profiles, receipts, listed, filed);
    forall r | r in receipts
      ensures ReceiptHolds(world, plan, Index(profiles), Index(observed), r)
              <==> ReceiptExtras(world, Index(profiles), Index(observed), r.body)
    {
      ReceiptChecksAgree(world, plan, Index(profiles), Index(observed), r);
    }
    assert forall o :: o in seen <==> o in observed;
    assert forall r :: r in filed <==> r in receipts;
  }

  lemma DigestsNameDocuments(world: World, profile: Profile, profile': Profile, observed: Observed, observed': Observed)
    requires Injective(world)
    requires ProfileOk(world, profile) && ProfileOk(world, profile') && profile.digest == profile'.digest
    requires ObservedOk(world, observed) && ObservedOk(world, observed') && observed.digest == observed'.digest
    ensures profile == profile' && observed == observed'
  {
    hide CleanText, CleanRuntime;
    assert world.hash(ProfileDocument(profile.body)) == world.hash(ProfileDocument(profile'.body));
    assert world.hash(ObservedDocument(observed.body)) == world.hash(ObservedDocument(observed'.body));
  }

  /** A receipt from the receipt builder has a coherent status in any report that includes it. */
  lemma BuiltReceiptsAreCoherent(world: World, plan: Plan, profiles: map<Digest, Profile>,
                                 observed: map<Digest, Observed>, receipt: Receipt)
    requires Injective(world)
    requires Built(world, plan, receipt)
    requires receipt.body.profile in profiles && receipt.body.observed in observed
    requires ProfileOk(world, profiles[receipt.body.profile])
    requires profiles[receipt.body.profile].digest == receipt.body.profile
    requires ObservedOk(world, observed[receipt.body.observed])
    requires observed[receipt.body.observed].digest == receipt.body.observed
    ensures Coherent(receipt.body.status,
                     Compatible(world, profiles[receipt.body.profile].body, observed[receipt.body.observed].body))
  {
    hide Compatible, Classify, ProfileOk, ObservedOk, PlanOk, ReceiptOk;
    var profile, observation, verifier, semanticResult, invariantReport, drift, status, failure :|
      BuildReceipt(world, plan, profile, observation, verifier, semanticResult, invariantReport, drift, status, failure)
      == Some(receipt);
    DigestsNameDocuments(world, profile, profiles[receipt.body.profile], observation, observed[receipt.body.observed]);
  }

  /** The receipt builder and the report builder differ in one check: a built receipt over known
      documents enters a report exactly when its verifier is the one its profile names. */
  lemma BuiltReceiptsFit(world: World, plan: Plan, profiles: map<Digest, Profile>,
                         observed: map<Digest, Observed>, receipt: Receipt)
    requires Injective(world)
    requires Built(world, plan, receipt)
    requires receipt.body.profile in profiles && receipt.body.observed in observed
    requires ProfileOk(world, profiles[receipt.body.profile])
    requires profiles[receipt.body.profile].digest == receipt.body.profile
    requires ObservedOk(world, observed[receipt.body.observed])
    requires observed[receipt.body.observed].digest == receipt.body.observed
    ensures ReceiptOk(world, receipt)
    ensures ReceiptFits(world, plan, profiles, observed, receipt.body) <==>
              receipt.body.verifier == profiles[receipt.body.profile].body.verifier
  {
    hide Compatible, Classify, ProfileOk, ObservedOk, PlanOk, ReceiptOk;
    var profile, observation, verifier, semanticResult, invariantReport, drift, status, failure :|
      BuildReceipt(world, plan, profile, observation, verifier, semanticResult, invariantReport, drift, status, failure)
      == Some(receipt);
    DigestsNameDocuments(world, profile, profiles[receipt.body.profile], observation, observed[receipt.body.observed]);
  }

  /** The promise of the two programs together: a report of built receipts, over well-formed
      inventories that the profiles allow, passes the verifier under its own digest. */
  lemma BuiltReportsVerify(world: World, plan: Plan, profiles: seq<Profile>, observed: seq<Observed>,
                           receipts: seq<Receipt>, supersedes: Option<Digest>)
    requires Injective(world)
    requires BuilderAccepts(world, plan, profiles, observed, receipts)
    requires forall r :: r in receipts ==> Built(world, plan, r)
    requires forall o :: o in observed ==> InventoryHolds(o.body)
    requires forall p, o :: p in profiles && o in observed && o.body.declaredProfile == p.digest
                            ==> o.body.inventoryDigest in p.body.physical
    ensures var report := ReportOf(world, plan, profiles, observed, receipts, supersedes);
            VerifierAccepts(world, report, Some(report.digest))
  {
    hide Index, SortedKeys, SortedValues, ReportOf, VerifierAccepts, PlanOk, Built, InventoryHolds, ProfileOk,
      ObservedOk, Compatible, ReceiptOk, OneReceiptPerProfile, Classify, Coherent;
    BuilderVerifierAgree(world, plan, profiles, observed, receipts, supersedes);
    IndexHoldsItems(profiles);
    IndexHoldsItems(observed);
    forall r | r in receipts ensures ReceiptExtras(world, Index(profiles), Index(observed), r.body) {
      BuiltReceiptsAreCoherent(world, plan, Index(profiles), Index(observed), r);
      var p, o := Index(profiles)[r.body.profile], Index(observed)[r.body.observed];
      assert p in profiles && o in observed && o.body.declaredProfile == p.digest;
    }
  }

  /** Texts that only the builder checks. */
  predicate CleanReport(body: ReportBody) {
    && (forall p :: p in body.profiles ==> CleanText(p.body.name) && CleanRuntime(p.body.runtime))
    && (forall o :: o in body.observed ==> CleanRuntime(o.body.runtime))
    && (forall r :: r in body.receipts && r.body.failure.Some? ==> CleanText(r.body.failure.value))
  }

  predicate Ordered<T>(items: seq<Recorded<T>>) {
    forall i, j :: 0 <= i < j < |items| ==> items[i].digest < items[j].digest
  }

  lemma {:induction false} AscendingListsAreEqual(a: seq<Digest>, b: seq<Digest>)
    requires StrictlySorted(a) && StrictlySorted(b)
    requires forall d :: d in a <==> d in b
    ensures a == b
  {
    assert b == [] || b[0] in b;
    if a != [] {
      assert a[0] in b;
      assert b[0] in a;
      assert a[0] == b[0];
      forall d ensures d in a[1..] <==> d in b[1..] {
        if d in a[1..] {
          assert d in a && d != a[0];
        }
        if d in b[1..] {
          assert d in b && d != b[0];
        }
      }
      AscendingListsAreEqual(a[1..], b[1..]);
      assert a == [a[0]] + a[1..] && b == [b[0]] + b[1..];
    }
  }

  function DigestsOf<T>(items: seq<Recorded<T>>): (digests: seq<Digest>)
    ensures |digests| == |items|
    ensures forall i :: 0 <= i < |items| ==> digests[i] == items[i].digest
  {
    seq(|items|, i requires 0 <= i < |items| => items[i].digest)
  }

  lemma OrderedDigests<T>(items: seq<Recorded<T>>)
    requires Ordered(items)
    ensures Distinct(items)
    ensures SortedKeys(Index(items).Keys) == DigestsOf(items)
  {
    hide Index, SortedKeys, DigestsOf;
    IndexHoldsItems(items);
    var digests, keys := DigestsOf(items), SortedKeys(Index(items).Keys);
    forall d ensures d in digests <==> d in keys {
      if d in keys {
        var i :| 0 <= i < |items| && items[i] == Index(items)[d];
        assert digests[i] == d;
      }
      if d in digests {
        var i :| 0 <= i < |digests| && digests[i] == d;
        assert items[i] in items;
      }
    }
    AscendingListsAreEqual(digests, keys);
  }

  lemma OrderedListsAreKept<T>(items: seq<Recorded<T>>)
    requires Ordered(items)
    ensures Distinct(items)
    ensures SortedValues(Index(items)) == items
  {
    hide Index, SortedKeys, DigestsOf, Ordered, SortedValues;
    OrderedDigests(items);
    DistinctIndex(items);
    var values := SortedValues(Index(items));
    assert forall i :: 0 <= i < |items| ==> items[i] in items;
    forall i | 0 <= i < |items| ensures values[i] == items[i] {
      assert DigestsOf(items)[i] == items[i].digest;
    }
  }

  /** The converse: a verified report with clean texts and lists in digest order is one the builder
      accepts, and building it again from its parts gives the same report. */
  lemma VerifiedReportsRebuild(world: World, report: Report, expected: Option<Digest>)
    requires VerifierAccepts(world, report, expected)
    requires CleanReport(report.body)
    requires Ordered(report.body.profiles) && Ordered(report.body.observed) && Ordered(report.body.receipts)
    ensures var body := report.body;
            && BuilderAccepts(world, body.plan, body.profiles, body.observed, body.receipts)
            && ReportOf(world, body.plan, body.profiles, body.observed, body.receipts, body.supersedes) == report
  {
    hide Index, Distinct, Ordered, SortedKeys, SortedValues, ReceiptFits, ReceiptHolds, ReceiptExtras, ReceiptOk,
      InventoryHolds, CleanText, CleanRuntime, OneReceiptPerProfile;
    var body := report.body;
    OrderedListsAreKept(body.profiles);
    OrderedListsAreKept(body.observed);
    OrderedListsAreKept(body.receipts);
    forall r | r in body.receipts
      ensures ReceiptOk(world, r) && ReceiptFits(world, body.plan, Index(body.profiles), Index(body.observed), r.body)
    {
      ReceiptChecksAgree(world, body.plan, Index(body.profiles), Index(body.observed), r);
    }
  }

  /** An externally pinned digest admits one report only. */
  lemma PinAdmitsOneReport(world: World, a: Report, b: Report, pin: Digest)
    requires Injective(world)
    requires VerifierAccepts(world, a, Some(pin)) && VerifierAccepts(world, b, Some(pin))
    ensures a == b
  {
    hide Index, Distinct, ReceiptHolds, ProfileHolds, ObservedHolds, PlanHolds, OneReceiptPerProfile;
    assert world.hash(ReportDocument(a.body)) == world.hash(ReportDocument(b.body));
  }
}
