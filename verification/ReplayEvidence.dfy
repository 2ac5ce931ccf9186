/**
  From a cross-environment report to a drill's observation: what a passing observation says about the
  report it was built from.
 */
module ReplayEvidence {
  import opened Prelude
  import opened CrossEnvironment
  import opened CrossEnvironmentVerifier
  import P = PeriodicReplay

  const NOT_VERIFIED := "cross_environment_execution_not_verified"
  const REVALIDATION_FAILED := "cross_environment_semantic_revalidation_failed"

  predicate Acceptable(classification: Classification) {
    classification == ExactEnvironmentReplay
    || classification == SemanticallyEquivalent
    || classification == PresentationOnlyDrift
  }

  function ReceiptViolations(receipts: seq<Receipt>): set<string> {
    (if exists r :: r in receipts && r.body.status != Verified then {NOT_VERIFIED} else {})
    + (if exists r :: r in receipts && !Acceptable(r.body.classification) then {REVALIDATION_FAILED} else {})
  }

  function EvidenceOf(report: Report): P.CrossEvidence {
    P.CrossEvidence(report.digest, report.body.plan.body.bundle, ReceiptViolations(report.body.receipts))
  }

  /** Verifies the report and collects the violations of its receipts. A verified report always has
      receipts. */
  method CrossEnvironmentRevalidation(world: World, report: Report) returns (evidence: Option<P.CrossEvidence>)
    ensures evidence == if VerifierAccepts(world, report, None) then Some(EvidenceOf(report)) else None
  {
    hide VerifierAccepts, ReceiptViolations;
    NoViolations();
    var verified := VerifyReport(world, report, None);
    if verified.None? {
      return None;
    }
    MatrixIsNotEmpty(world, report);
    var receipts := report.body.receipts;
    if receipts == [] {
      return None;
    }
    var violations: set<string> := {};
    for i := 0 to |receipts|
      invariant violations == ReceiptViolations(receipts[..i])
    {
      NextViolations(receipts, i);
      if receipts[i].body.status != Verified {
        violations := violations + {NOT_VERIFIED};
      }
      if !Acceptable(receipts[i].body.classification) {
        violations := violations + {REVALIDATION_FAILED};
      }
    }
    assert receipts[..|receipts|] == receipts;
    evidence := Some(P.CrossEvidence(verified.value, report.body.plan.body.bundle, violations));
  }

  lemma NoViolations()
    ensures ReceiptViolations([]) == {}
  {
  }

  lemma NextViolations(receipts: seq<Receipt>, i: nat)
    requires i < |receipts|
    ensures ReceiptViolations(receipts[..i + 1])
         == ReceiptViolations(receipts[..i])
            + (if receipts[i].body.status != Verified then {NOT_VERIFIED} else {})
            + (if !Acceptable(receipts[i].body.classification) then {REVALIDATION_FAILED} else {})
  {
    var front, longer := receipts[..i], receipts[..i + 1];
    assert longer == front + [receipts[i]];
    assert receipts[i] in longer;
    assert forall r :: r in longer <==> r in front || r == receipts[i];
  }

  lemma MatrixIsNotEmpty(world: World, report: Report)
    requires VerifierAccepts(world, report, None)
    ensures report.body.receipts != []
  {
    hide Index, Distinct, ReceiptHolds, ProfileHolds, ObservedHolds;
    var matrix := report.body.plan.body.matrix;
    assert matrix[0] in matrix;
  }

  /** The receipt shows a compatible environment in which both results were obtained without semantic
      drift. */
  predicate Reproduced(world: World, report: Report, receipt: Receipt) {
    var profiles, observed := Index(report.body.profiles), Index(report.body.observed);
    && receipt.body.profile in profiles
    && receipt.body.observed in observed
    && Compatible(world, profiles[receipt.body.profile].body, observed[receipt.body.observed].body)
    && Complete(receipt.body)
    && (receipt.body.drift == NoDrift || receipt.body.drift == PresentationOnly)
  }

  /** In a verified report a receipt is acceptable exactly when it shows the result reproduced. */
  lemma AcceptableMeansReproduced(world: World, report: Report, receipt: Receipt)
    requires VerifierAccepts(world, report, None) && receipt in report.body.receipts
    ensures Acceptable(receipt.body.classification) <==> Reproduced(world, report, receipt)
    ensures Acceptable(receipt.body.classification) ==> receipt.body.status == Verified
  {
    hide Index, Distinct, OneReceiptPerProfile, ProfileHolds, ObservedHolds, PlanHolds, Compatible, SameEnvironment;
    var profiles, observed := Index(report.body.profiles), Index(report.body.observed);
    assert ReceiptHolds(world, report.body.plan, profiles, observed, receipt);
    SameClassification(world, profiles[receipt.body.profile].body, observed[receipt.body.observed].body, receipt.body,
                       report.body.plan.body.reference);
  }

  /** A drill's observation passes exactly when the preserved case was healthy and, for every environment
      of the matrix, the report's one receipt for it shows the result reproduced there. */
  lemma PassingMeansReproducedEverywhere(
      world: World, report: Report, caseId: string, repositorySha: string, observedAt: nat,
      health: P.HealthReport, previous: Option<P.Observation>)
    requires VerifierAccepts(world, report, None)
    requires P.Build(caseId, repositorySha, observedAt, EvidenceOf(report), health, previous).Ok?
    ensures P.Build(caseId, repositorySha, observedAt, EvidenceOf(report), health, previous).value.pass <==>
              && health.healthy
              && forall d :: d in report.body.plan.body.matrix ==>
                   exists r :: r in report.body.receipts && r.body.profile == d && Reproduced(world, report, r)
    ensures var observation := P.Build(caseId, repositorySha, observedAt, EvidenceOf(report), health, previous).value;
            observation.crossReportDigest == report.digest && observation.bundleDigest == report.body.plan.body.bundle
  {
    hide Index, Distinct, PlanHolds, ProfileHolds, ObservedHolds, ReceiptHolds, Reproduced;
    var receipts, matrix := report.body.receipts, report.body.plan.body.matrix;
    forall r | r in receipts ensures Acceptable(r.body.classification) <==> Reproduced(world, report, r) {
      AcceptableMeansReproduced(world, report, r);
    }
    forall r | r in receipts && Acceptable(r.body.classification) ensures r.body.status == Verified {
      AcceptableMeansReproduced(world, report, r);
    }
    if forall d :: d in matrix ==> exists r :: r in receipts && r.body.profile == d && Reproduced(world, report, r) {
      forall r | r in receipts ensures Acceptable(r.body.classification) {
        assert r.body.profile in matrix;
        var s :| s in receipts && s.body.profile == r.body.profile && Reproduced(world, report, s);
        assert s == r;
      }
    }
  }
}
