/**
  Periodic replay revalidation: chains of observations bound by predecessor digests, and the
  evaluation of a chain against a cadence policy. Time is always supplied by the caller.
 */
module PeriodicReplay {
  import opened Prelude

  /** Digests of the cross-environment documents, as in CrossEnvironment. */
  type Digest = nat

  datatype Policy = Policy(effectiveAt: nat, maxAge: nat, dueWindow: nat)

  /** What the policy's constructor enforces. */
  predicate ValidPolicy(policy: Policy) {
    0 < policy.dueWindow < policy.maxAge
  }

  /** Normalised violation tuples are sorted and duplicate-free, so they are modelled as sets. */
  datatype Observation = Observation(
    caseId: string,
    repositorySha: string,
    observedAt: nat,
    bundleDigest: Digest,
    crossReportDigest: Digest,
    healthReportDigest: string,
    pass: bool,
    violations: set<string>,
    previous: Option<ObservationDigest>)

  /** Content digests are injective: a digest is modelled by what it was computed over. */
  datatype ObservationDigest = DigestOf(observation: Observation)

  datatype ChainDigest = DigestOfList(identities: seq<ObservationDigest>)

  /** What an observation's constructor enforces. */
  predicate ValidObservation(o: Observation) {
    o.pass <==> o.violations == {}
  }

  datatype Error =
    | CaseScopeMismatch
    | BundleMismatch
    | DuplicateObservation
    | UnexpectedPredecessor
    | PredecessorMismatch
    | TimestampNotIncreasing
    | HealthReportFromTheFuture
    | ObservationPredatesPolicy
    | ObservationInTheFuture
    | EvaluationPredatesPolicy

  // ---------------------------------------------------------------- building observations

  /** The cross-environment evidence of one drill, after its report was verified: digests and the
      violations found in its receipts. */
  datatype CrossEvidence = CrossEvidence(reportDigest: Digest, bundleDigest: Digest, violations: set<string>)

  datatype HealthReport = HealthReport(digest: string, caseId: string, evaluatedAt: nat, healthy: bool)

  function Build(caseId: string, repositorySha: string, observedAt: nat, cross: CrossEvidence,
                 health: HealthReport, previous: Option<Observation>): (built: Result<Observation, Error>)
    ensures built.Ok? ==> ValidObservation(built.value)
  {
    if health.caseId != caseId then Err(CaseScopeMismatch)
    else if health.evaluatedAt > observedAt then Err(HealthReportFromTheFuture)
    else if previous.Some? && previous.value.caseId != caseId then Err(CaseScopeMismatch)
    else if previous.Some? && previous.value.bundleDigest != cross.bundleDigest then Err(BundleMismatch)
    else if previous.Some? && previous.value.observedAt >= observedAt then Err(TimestampNotIncreasing)
    else
      var violations := cross.violations + (if health.healthy then {} else {"long_range_health_not_healthy"});
      Ok(Observation(caseId, repositorySha, observedAt, cross.bundleDigest, cross.reportDigest, health.digest,
                     cross.violations == {} && violations == {}, violations,
                     if previous.None? then None else Some(DigestOf(previous.value))))
  }

  // ---------------------------------------------------------------- chains

  /** The meaning of a verified chain: one case and bundle, increasing time, and each observation
      bound to the digest of the one before it. */
  ghost predicate IsChain(chain: seq<Observation>) {
    && (forall i :: 0 <= i < |chain| ==>
          && chain[i].caseId == chain[0].caseId
          && chain[i].bundleDigest == chain[0].bundleDigest)
    && (|chain| > 0 ==> chain[0].previous == None)
    && (forall i :: 0 < i < |chain| ==>
          && chain[i].previous == Some(DigestOf(chain[i - 1]))
          && chain[i - 1].observedAt < chain[i].observedAt)
  }

  function Identities(chain: seq<Observation>): (identities: seq<ObservationDigest>)
    ensures |identities| == |chain|
    ensures forall i :: 0 <= i < |chain| ==> identities[i] == DigestOf(chain[i])
  {
    if chain == [] then []
    else Identities(chain[..|chain| - 1]) + [DigestOf(chain[|chain| - 1])]
  }

  lemma {:induction false} ChainTimesIncrease(chain: seq<Observation>, i: nat, j: nat)
    requires IsChain(chain) && i < j < |chain|
    ensures chain[i].observedAt < chain[j].observedAt
    decreases j
  {
    if i < j - 1 { ChainTimesIncrease(chain, i, j - 1); }
  }

  /** What the next observation must satisfy, given the one before it. */
  predicate Continues(chain: seq<Observation>, index: nat)
    requires index < |chain|
  {
    && chain[index].caseId == chain[0].caseId
    && chain[index].bundleDigest == chain[0].bundleDigest
    && (if index == 0 then chain[0].previous == None
        else chain[index].previous == Some(DigestOf(chain[index - 1])) && chain[index - 1].observedAt < chain[index].observedAt)
  }

  lemma ChainStep(chain: seq<Observation>, index: nat)
    requires index < |chain| && IsChain(chain[..index])
    ensures IsChain(chain[..index + 1]) <==> Continues(chain, index)
    ensures IsChain(chain) ==> Continues(chain, index)
  {
    var prefix, longer := chain[..index], chain[..index + 1];
    assert forall i :: 0 <= i < index ==> prefix[i] == chain[i];
    assert forall i :: 0 <= i <= index ==> longer[i] == chain[i];
    if IsChain(longer) { assert longer[index].caseId == longer[0].caseId; }
  }

  /** The loop over a chain accepts exactly the chains, and returns the digest of their identities. */
  method VerifyChain(chain: seq<Observation>) returns (result: Result<ChainDigest, Error>)
    ensures result.Ok? <==> IsChain(chain)
    ensures result.Ok? ==> result.value == DigestOfList(Identities(chain))
  {
    hide IsChain, Identities;
    EmptyChain();
    if chain == [] {
      return Ok(DigestOfList([]));
    }
    var seen: set<ObservationDigest> := {};
    var previous: Option<Observation> := None;
    var caseId, bundleDigest := chain[0].caseId, chain[0].bundleDigest;
    var identities: seq<ObservationDigest> := [];
    var index := 0;
    while index < |chain|
      invariant 0 <= index <= |chain|
      invariant IsChain(chain[..index])
      invariant previous == if index == 0 then None else Some(chain[index - 1])
      invariant identities == Identities(chain[..index])
      invariant seen == set k | 0 <= k < index :: DigestOf(chain[k])
    {
      var observation := chain[index];
      var identity := DigestOf(observation);
      NextIdentity(chain, index);
      ChainStep(chain, index);
      if identity in seen {
        DuplicatesBreakChains(chain, index);
        return Err(DuplicateObservation);
      }
      seen := seen + {identity};
      if observation.caseId != caseId {
        return Err(CaseScopeMismatch);
      }
      if observation.bundleDigest != bundleDigest {
        return Err(BundleMismatch);
      }
      if previous.None? {
        if observation.previous.Some? {
          return Err(UnexpectedPredecessor);
        }
      } else {
        if observation.previous != Some(DigestOf(previous.value)) {
          return Err(PredecessorMismatch);
        }
        if observation.observedAt <= previous.value.observedAt {
          return Err(TimestampNotIncreasing);
        }
      }
      identities := identities + [identity];
      previous := Some(observation);
      index := index + 1;
    }
    assert chain[..index] == chain;
    return Ok(DigestOfList(identities));
  }

  lemma EmptyChain()
    ensures IsChain([]) && Identities([]) == []
  {
  }

  lemma NextIdentity(chain: seq<Observation>, index: nat)
    requires index < |chain|
    ensures Identities(chain[..index + 1]) == Identities(chain[..index]) + [DigestOf(chain[index])]
  {
    assert chain[..index + 1][..index] == chain[..index];
  }

  lemma DuplicatesBreakChains(chain: seq<Observation>, index: nat)
    requires index < |chain|
    requires exists k :: 0 <= k < index && DigestOf(chain[k]) == DigestOf(chain[index])
    ensures !IsChain(chain)
  {
    var k: nat :| k < index && DigestOf(chain[k]) == DigestOf(chain[index]);
    if IsChain(chain) { ChainTimesIncrease(chain, k, index); }
  }

  /** Every sequence grown by building each observation on the last one is a chain. */
  lemma BuildExtendsChain(chain: seq<Observation>, caseId: string, repositorySha: string, observedAt: nat,
                          cross: CrossEvidence, health: HealthReport)
    requires IsChain(chain)
    ensures var previous := if chain == [] then None else Some(chain[|chain| - 1]);
            var built := Build(caseId, repositorySha, observedAt, cross, health, previous);
            built.Ok? ==> IsChain(chain + [built.value])
  {
  }

  /** A drill's inputs to `Build`. */
  datatype Drill = Drill(caseId: string, repositorySha: string, observedAt: nat, cross: CrossEvidence, health: HealthReport)

  /** The chain grown by a list of drills; a drill that is refused leaves the chain as it is. */
  function Grow(drills: seq<Drill>): seq<Observation> {
    if drills == [] then []
    else
      var chain := Grow(drills[..|drills| - 1]);
      var d := drills[|drills| - 1];
      var built := Build(d.caseId, d.repositorySha, d.observedAt, d.cross, d.health,
                         if chain == [] then None else Some(chain[|chain| - 1]));
      if built.Ok? then chain + [built.value] else chain
  }

  lemma {:induction false} GrownChainsVerify(drills: seq<Drill>)
    ensures IsChain(Grow(drills))
    ensures forall i :: 0 <= i < |Grow(drills)| ==> ValidObservation(Grow(drills)[i])
  {
    if drills != [] {
      GrownChainsVerify(drills[..|drills| - 1]);
      var d := drills[|drills| - 1];
      BuildExtendsChain(Grow(drills[..|drills| - 1]), d.caseId, d.repositorySha, d.observedAt, d.cross, d.health);
    }
  }

  /** The observation records this drill: its evidence, a health report of the same case that is no younger than
      the observation, and passing exactly when neither found anything wrong. */
  predicate Records(o: Observation, d: Drill) {
    && (o.caseId, o.repositorySha, o.observedAt) == (d.caseId, d.repositorySha, d.observedAt)
    && (o.bundleDigest, o.crossReportDigest, o.healthReportDigest) == (d.cross.bundleDigest, d.cross.reportDigest, d.health.digest)
    && d.health.caseId == o.caseId && d.health.evaluatedAt <= o.observedAt
    && (o.pass <==> d.cross.violations == {} && d.health.healthy)
    && d.cross.violations <= o.violations
  }

  /** Every observation of a grown chain records one of its drills. */
  lemma {:induction false} GrownObservationsAreEvidenced(drills: seq<Drill>, i: nat)
    requires i < |Grow(drills)|
    ensures exists d :: d in drills && Records(Grow(drills)[i], d)
    decreases |drills|
  {
    var front := drills[..|drills| - 1];
    if i < |Grow(front)| {
      GrownObservationsAreEvidenced(front, i);
      var d :| d in front && Records(Grow(front)[i], d);
      assert d in drills;
    } else {
      assert Records(Grow(drills)[i], drills[|drills| - 1]);
    }
  }

  /** A drill is refused only for the wrong case, a health report from after it, another bundle than the chain's,
      or a time that does not come after the chain's last observation. */
  lemma DrillsAreRefusedExactlyWhen(drills: seq<Drill>, d: Drill)
    ensures var chain := Grow(drills);
            var grown := Grow(drills + [d]);
            && (|grown| == |chain| + 1 <==>
                  && d.health.caseId == d.caseId && d.health.evaluatedAt <= d.observedAt
                  && (forall o :: o in chain ==>
                        o.caseId == d.caseId && o.bundleDigest == d.cross.bundleDigest && o.observedAt < d.observedAt))
            && chain <= grown
  {
    assert (drills + [d])[..|drills|] == drills;
    var chain := Grow(drills);
    GrownChainsVerify(drills);
    hide IsChain;
    if chain != [] {
      assert chain[|chain| - 1] in chain;
      LastSpeaksForAll(chain);
    }
  }

  lemma LastSpeaksForAll(chain: seq<Observation>)
    requires IsChain(chain) && chain != []
    ensures var last := chain[|chain| - 1];
            forall o :: o in chain ==>
              o.caseId == last.caseId && o.bundleDigest == last.bundleDigest && o.observedAt <= last.observedAt
  {
    var last := |chain| - 1;
    forall o | o in chain
      ensures o.caseId == chain[last].caseId && o.bundleDigest == chain[last].bundleDigest && o.observedAt <= chain[last].observedAt
    {
      var i :| 0 <= i < |chain| && chain[i] == o;
      if i < last { ChainTimesIncrease(chain, i, last); }
    }
  }

  /** Equal chain digests mean equal chains. */
  lemma ChainDigestPinsChain(a: seq<Observation>, b: seq<Observation>)
    requires DigestOfList(Identities(a)) == DigestOfList(Identities(b))
    ensures a == b
  {
    assert |a| == |Identities(a)| == |Identities(b)| == |b|;
    forall i | 0 <= i < |a| ensures a[i] == b[i] {
      assert Identities(a)[i] == Identities(b)[i];
    }
  }

  /** Even one observation pins every observation before it: the digests are chained. */
  lemma {:induction false} LatestDigestPinsChain(a: seq<Observation>, b: seq<Observation>)
    requires IsChain(a) && IsChain(b) && a != [] && b != []
    requires DigestOf(a[|a| - 1]) == DigestOf(b[|b| - 1])
    ensures a == b
    decreases |a|
  {
    LastLink(a);
    LastLink(b);
    hide IsChain;
    if |a| > 1 {
      var fa, fb := a[..|a| - 1], b[..|b| - 1];
      LatestDigestPinsChain(fa, fb);
      assert a == fa + [a[|a| - 1]] && b == fb + [b[|b| - 1]];
    }
  }

  lemma LastLink(chain: seq<Observation>)
    requires IsChain(chain) && chain != []
    ensures chain[|chain| - 1].previous == if |chain| == 1 then None else Some(DigestOf(chain[|chain| - 2]))
    ensures IsChain(chain[..|chain| - 1])
  {
    var last := |chain| - 1;
    assert last > 0 ==> chain[last].previous == Some(DigestOf(chain[last - 1]));
  }

  // ---------------------------------------------------------------- evaluation

  datatype ReplayState = Current | Due | Overdue | Unverifiable

  datatype Evaluation = Evaluation(
    evaluatedAt: nat,
    policy: Policy,
    chainDigest: ChainDigest,
    latest: Option<ObservationDigest>,
    age: Option<nat>,
    state: ReplayState,
    violations: set<string>)

  /** The deadline that observation `i` met or missed, measured from the one before it or from the
      policy's start. */
  function GapBefore(policy: Policy, chain: seq<Observation>, i: nat): int
    requires i < |chain|
  {
    chain[i].observedAt - (if i == 0 then policy.effectiveAt else chain[i - 1].observedAt)
  }

  ghost predicate HistoricalGap(policy: Policy, chain: seq<Observation>) {
    exists i: nat :: i < |chain| && GapBefore(policy, chain, i) > policy.maxAge
  }

  ghost function GapViolations(policy: Policy, chain: seq<Observation>): set<string> {
    (if |chain| > 0 && GapBefore(policy, chain, 0) > policy.maxAge then {"initial_periodic_replay_deadline_missed"} else {})
    + (if exists i: nat :: 0 < i < |chain| && GapBefore(policy, chain, i) > policy.maxAge
       then {"historical_periodic_replay_gap"} else {})
  }

  method HistoricalGapViolations(policy: Policy, chain: seq<Observation>) returns (result: Result<set<string>, Error>)
    ensures result.Ok? <==> chain == [] || chain[0].observedAt >= policy.effectiveAt
    ensures result.Ok? ==> result.value == GapViolations(policy, chain)
    ensures result.Ok? ==> (result.value != {} <==> HistoricalGap(policy, chain))
  {
    if chain == [] {
      return Ok({});
    }
    var violations: set<string> := {};
    if chain[0].observedAt < policy.effectiveAt {
      return Err(ObservationPredatesPolicy);
    }
    if chain[0].observedAt - policy.effectiveAt > policy.maxAge {
      violations := violations + {"initial_periodic_replay_deadline_missed"};
    }
    ghost var initial := violations;
    var index := 1;
    while index < |chain|
      invariant 1 <= index <= |chain|
      invariant violations == initial +
        (if exists i: nat :: 0 < i < index && GapBefore(policy, chain, i) > policy.maxAge
         then {"historical_periodic_replay_gap"} else {})
    {
      assert GapBefore(policy, chain, index) == chain[index].observedAt - chain[index - 1].observedAt;
      if chain[index].observedAt - chain[index - 1].observedAt > policy.maxAge {
        violations := violations + {"historical_periodic_replay_gap"};
      }
      index := index + 1;
    }
    assert GapBefore(policy, chain, 0) == chain[0].observedAt - policy.effectiveAt;
    if violations != {} {
      assert HistoricalGap(policy, chain);
    }
    return Ok(violations);
  }

  /** A chain that an evaluation at `at` accepts. */
  ghost predicate Admissible(policy: Policy, chain: seq<Observation>, at: nat) {
    && policy.effectiveAt <= at
    && IsChain(chain)
    && (|chain| > 0 ==> policy.effectiveAt <= chain[0].observedAt && chain[|chain| - 1].observedAt <= at)
  }

  /** The state an admissible chain has. */
  ghost function StateAt(policy: Policy, chain: seq<Observation>, at: nat): ReplayState
    requires Admissible(policy, chain, at)
  {
    if chain == [] then (if at - policy.effectiveAt > policy.maxAge then Overdue else Unverifiable)
    else
      var latest := chain[|chain| - 1];
      var age := at - latest.observedAt;
      if HistoricalGap(policy, chain) then Overdue
      else if !latest.pass then Unverifiable
      else if age > policy.maxAge then Overdue
      else if age >= policy.maxAge - policy.dueWindow then Due
      else Current
  }

  /** The reasons an evaluation gives for its state. */
  ghost function ViolationsAt(policy: Policy, chain: seq<Observation>, at: nat): set<string>
    requires Admissible(policy, chain, at)
  {
    match StateAt(policy, chain, at)
    case Current => {}
    case Due => {}
    case Overdue =>
      if chain == [] then {"initial_periodic_replay_missing"}
      else if HistoricalGap(policy, chain) then GapViolations(policy, chain)
      else {"periodic_replay_overdue"}
    case Unverifiable =>
      if chain == [] then {"periodic_replay_observation_missing"}
      else {"upstream_revalidation_failed"} + chain[|chain| - 1].violations
  }

  method Evaluate(policy: Policy, evaluatedAt: nat, chain: seq<Observation>) returns (result: Result<Evaluation, Error>)
    requires ValidPolicy(policy)
    ensures result.Ok? <==> Admissible(policy, chain, evaluatedAt)
    ensures result.Ok? ==>
              && result.value.evaluatedAt == evaluatedAt && result.value.policy == policy
              && result.value.state == StateAt(policy, chain, evaluatedAt)
              && result.value.violations == ViolationsAt(policy, chain, evaluatedAt)
              && result.value.chainDigest == DigestOfList(Identities(chain))
              && result.value.latest == (if chain == [] then None else Some(DigestOf(chain[|chain| - 1])))
              && result.value.age == (if chain == [] then None else Some(evaluatedAt - chain[|chain| - 1].observedAt))
    ensures result.Ok? ==> (result.value.violations == {} <==> result.value.state == Current || result.value.state == Due)
  {
    if evaluatedAt < policy.effectiveAt {
      return Err(EvaluationPredatesPolicy);
    }
    var verified := VerifyChain(chain);
    if verified.Err? {
      return Err(verified.error);
    }
    if chain == [] {
      if evaluatedAt - policy.effectiveAt > policy.maxAge {
        return Ok(Evaluation(evaluatedAt, policy, verified.value, None, None, Overdue, {"initial_periodic_replay_missing"}));
      }
      return Ok(Evaluation(evaluatedAt, policy, verified.value, None, None, Unverifiable, {"periodic_replay_observation_missing"}));
    }
    var historical := HistoricalGapViolations(policy, chain);
    if historical.Err? {
      return Err(historical.error);
    }
    var latest := chain[|chain| - 1];
    if latest.observedAt > evaluatedAt {
      return Err(ObservationInTheFuture);
    }
    var age := evaluatedAt - latest.observedAt;
    var state, violations := Current, {};
    if historical.value != {} {
      state, violations := Overdue, historical.value;
    } else if !latest.pass {
      state, violations := Unverifiable, {"upstream_revalidation_failed"} + latest.violations;
    } else if age > policy.maxAge {
      state, violations := Overdue, {"periodic_replay_overdue"};
    } else if age >= policy.maxAge - policy.dueWindow {
      state := Due;
    }
    assert "upstream_revalidation_failed" in {"upstream_revalidation_failed"} + latest.violations;
    return Ok(Evaluation(evaluatedAt, policy, verified.value, Some(DigestOf(latest)), Some(age), state, violations));
  }

  // ---------------------------------------------------------------- what the states mean

  /** The latest of the policy's start and the observations strictly before an instant. */
  function LastBefore(policy: Policy, chain: seq<Observation>, t: nat): nat {
    if chain == [] then policy.effectiveAt
    else if chain[|chain| - 1].observedAt < t then chain[|chain| - 1].observedAt
    else LastBefore(policy, chain[..|chain| - 1], t)
  }

  /** An instant of the evaluated period by which a drill was overdue. */
  predicate Missed(policy: Policy, chain: seq<Observation>, at: nat, t: nat) {
    policy.effectiveAt < t <= at && t - LastBefore(policy, chain, t) > policy.maxAge
  }

  ghost predicate SomeDrillMissed(policy: Policy, chain: seq<Observation>, at: nat) {
    exists t: nat :: Missed(policy, chain, at, t)
  }

  /** `LastBefore` is what its name says. */
  lemma {:induction false} LastBeforeIsLatest(policy: Policy, chain: seq<Observation>, at: nat, t: nat)
    requires Admissible(policy, chain, at) && policy.effectiveAt < t
    ensures policy.effectiveAt <= LastBefore(policy, chain, t) < t
    ensures forall i :: 0 <= i < |chain| && chain[i].observedAt < t ==> chain[i].observedAt <= LastBefore(policy, chain, t)
    ensures LastBefore(policy, chain, t) == policy.effectiveAt
            || exists i :: 0 <= i < |chain| && chain[i].observedAt == LastBefore(policy, chain, t)
    decreases |chain|
  {
    if chain != [] {
      var last := |chain| - 1;
      forall i | 0 <= i < last ensures chain[i].observedAt < chain[last].observedAt {
        ChainTimesIncrease(chain, i, last);
      }
      if chain[last].observedAt >= t {
        var front := chain[..last];
        LastBeforeIsLatest(policy, front, at, t);
        if i :| 0 <= i < |front| && front[i].observedAt == LastBefore(policy, front, t) {
          assert chain[i].observedAt == LastBefore(policy, chain, t);
        }
      } else if last > 0 {
        assert chain[0].observedAt < chain[last].observedAt;
      }
    }
  }

  /** A gap before an observation is a missed instant: the observation's own. */
  lemma GapMeansMissed(policy: Policy, chain: seq<Observation>, at: nat)
    requires Admissible(policy, chain, at) && HistoricalGap(policy, chain)
    ensures SomeDrillMissed(policy, chain, at)
  {
    var i: nat :| i < |chain| && GapBefore(policy, chain, i) > policy.maxAge;
    var t := chain[i].observedAt;
    forall j | 0 <= j < |chain| && j != i ensures j < i ==> chain[j].observedAt < t
                                         ensures j > i ==> chain[j].observedAt > t {
      if j < i { ChainTimesIncrease(chain, j, i); } else { ChainTimesIncrease(chain, i, j); }
    }
    LastBeforeIsLatest(policy, chain, at, t);
    var before := LastBefore(policy, chain, t);
    if k :| 0 <= k < |chain| && chain[k].observedAt == before {
      assert k < i;
      if k < i - 1 { ChainTimesIncrease(chain, k, i - 1); }
    }
    if i < |chain| - 1 { ChainTimesIncrease(chain, i, |chain| - 1); }
    assert Missed(policy, chain, at, t);
  }

  /** Without a gap, an instant can only be missed after the last observation. */
  lemma {:induction false} MissedAfterLatest(policy: Policy, chain: seq<Observation>, at: nat, t: nat)
    requires Admissible(policy, chain, at) && !HistoricalGap(policy, chain) && Missed(policy, chain, at, t)
    ensures var latest := if chain == [] then policy.effectiveAt else chain[|chain| - 1].observedAt;
            LastBefore(policy, chain, t) == latest && at - latest > policy.maxAge
    decreases |chain|
  {
    if chain != [] && chain[|chain| - 1].observedAt >= t {
      var front := chain[..|chain| - 1];
      var last := |chain| - 1;
      assert GapBefore(policy, chain, last) <= policy.maxAge;
      forall i: nat | i < |front| ensures GapBefore(policy, front, i) <= policy.maxAge {
        assert GapBefore(policy, front, i) == GapBefore(policy, chain, i);
      }
      if last > 0 { ChainTimesIncrease(chain, last - 1, last); }
      MissedAfterLatest(policy, front, at, t);
    }
  }

  /** The meaning of CURRENT and DUE: nonempty, last drill passed, and at no instant of the period had
      more than the maximum age passed since the drill before it. */
  lemma CurrentOrDueMeansNoMissedDrill(policy: Policy, chain: seq<Observation>, at: nat)
    requires Admissible(policy, chain, at)
    ensures var state := StateAt(policy, chain, at);
            (state == Current || state == Due) <==>
              chain != [] && chain[|chain| - 1].pass && !SomeDrillMissed(policy, chain, at)
  {
    if chain != [] {
      if HistoricalGap(policy, chain) {
        GapMeansMissed(policy, chain, at);
      } else {
        var latest := chain[|chain| - 1].observedAt;
        if t: nat :| Missed(policy, chain, at, t) { MissedAfterLatest(policy, chain, at, t); }
        if at - latest > policy.maxAge {
          if |chain| > 1 { ChainTimesIncrease(chain, 0, |chain| - 1); }
          LastBeforeIsLatest(policy, chain, at, at);
          assert Missed(policy, chain, at, at);
        }
      }
    }
  }

  /** If nothing more is observed, a chain without gaps has missed a drill at a later time exactly when
      that time is more than the maximum age after its last observation. */
  lemma MissedByWhen(policy: Policy, chain: seq<Observation>, at: nat, later: nat)
    requires Admissible(policy, chain, at) && at <= later
    requires chain != [] && !HistoricalGap(policy, chain)
    ensures SomeDrillMissed(policy, chain, later) <==> later - chain[|chain| - 1].observedAt > policy.maxAge
  {
    var latest := chain[|chain| - 1].observedAt;
    assert Admissible(policy, chain, later);
    if t: nat :| Missed(policy, chain, later, t) { MissedAfterLatest(policy, chain, later, t); }
    if later - latest > policy.maxAge {
      if |chain| > 1 { ChainTimesIncrease(chain, 0, |chain| - 1); }
      LastBeforeIsLatest(policy, chain, later, later);
      assert Missed(policy, chain, later, later);
    }
  }

  /** The meaning of DUE, and what tells it from CURRENT: no drill was missed so far, but one will have
      been just after the due window that begins now, unless another drill is observed before that. */
  lemma DueMeansMissedSoon(policy: Policy, chain: seq<Observation>, at: nat)
    requires ValidPolicy(policy) && Admissible(policy, chain, at)
    ensures var state := StateAt(policy, chain, at);
            var soon := SomeDrillMissed(policy, chain, at + policy.dueWindow + 1);
            var good := chain != [] && chain[|chain| - 1].pass && !SomeDrillMissed(policy, chain, at);
            && (state == Due <==> good && soon)
            && (state == Current <==> good && !soon)
  {
    CurrentOrDueMeansNoMissedDrill(policy, chain, at);
    if chain != [] && !SomeDrillMissed(policy, chain, at) {
      if HistoricalGap(policy, chain) { GapMeansMissed(policy, chain, at); }
      MissedByWhen(policy, chain, at, at + policy.dueWindow + 1);
    }
  }

  /** The meaning of OVERDUE: some instant was missed, and the miss is not hidden behind a failed last
      drill. A failed last drill hides exactly a miss that lies after it. */
  lemma OverdueMeansMissedDrill(policy: Policy, chain: seq<Observation>, at: nat)
    requires Admissible(policy, chain, at)
    ensures StateAt(policy, chain, at) == Overdue <==>
              SomeDrillMissed(policy, chain, at)
              && (chain == [] || chain[|chain| - 1].pass || HistoricalGap(policy, chain))
  {
    if HistoricalGap(policy, chain) {
      GapMeansMissed(policy, chain, at);
    } else {
      var latest := if chain == [] then policy.effectiveAt else chain[|chain| - 1].observedAt;
      if t: nat :| Missed(policy, chain, at, t) { MissedAfterLatest(policy, chain, at, t); }
      if at - latest > policy.maxAge {
        if |chain| > 1 { ChainTimesIncrease(chain, 0, |chain| - 1); }
        LastBeforeIsLatest(policy, chain, at, at);
        assert LastBefore(policy, chain, at) == latest;
        assert Missed(policy, chain, at, at);
      }
    }
  }

  /** Gaps survive every extension of the chain. */
  lemma GapSurvives(policy: Policy, chain: seq<Observation>, more: seq<Observation>)
    requires HistoricalGap(policy, chain) && chain <= more
    ensures HistoricalGap(policy, more)
  {
    var i: nat :| i < |chain| && GapBefore(policy, chain, i) > policy.maxAge;
    assert GapBefore(policy, more, i) == GapBefore(policy, chain, i);
  }

  /** Missed drills stay visible: once OVERDUE at some time, a chain stays OVERDUE at every later time,
      however it is extended with observations made at or after that time. */
  lemma OverdueIsPermanent(policy: Policy, chain: seq<Observation>, more: seq<Observation>, at: nat, later: nat)
    requires ValidPolicy(policy)
    requires Admissible(policy, chain, at) && StateAt(policy, chain, at) == Overdue
    requires chain <= more && at <= later && Admissible(policy, more, later)
    requires forall i :: |chain| <= i < |more| ==> more[i].observedAt >= at
    ensures StateAt(policy, more, later) == Overdue
  {
    if HistoricalGap(policy, chain) {
      GapSurvives(policy, chain, more);
    } else if |more| > |chain| {
      assert GapBefore(policy, more, |chain|) > policy.maxAge;
    } else {
      assert more == chain;
    }
  }
}
