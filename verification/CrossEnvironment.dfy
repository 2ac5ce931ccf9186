/**
  Cross-environment replay evidence: the shared document types, the builder of receipts and
  aggregate reports, and the standalone verifier that is written separately from it.

  A SHA-256 digest is a number (its hexadecimal text sorts as the number does), computed by one
  hash function over typed documents. A document is kept with the digest recorded in it.
 */
module CrossEnvironment {
  import opened Prelude

  type Digest = nat

  datatype Recorded<T> = Recorded(body: T, digest: Digest)

  datatype PlanBody = PlanBody(
    schema: string,
    bundle: Digest,
    supplyChain: Digest,
    profiles: seq<Digest>,
    reference: Digest,
    replayPolicy: Digest,
    migrationRegistry: Digest,
    canonicalization: Digest,
    cryptoProfile: Digest,
    matrix: seq<Digest>)

  /** The runtime facts that must agree between a profile and an observation. */
  datatype Runtime = Runtime(
    osFamily: string,
    architecture: string,
    pythonImplementation: string,
    pythonVersion: string,
    pythonCacheTag: string,
    pythonSoabi: string)

  datatype ProfileBody = ProfileBody(
    schema: string,
    name: string,
    runtime: Runtime,
    physical: seq<Digest>,
    dependencyLock: Digest,
    canonicalization: Digest,
    migrationRegistry: Digest,
    cryptoProfile: Digest,
    bundle: Digest,
    verifier: Digest,
    environmentPolicy: Digest)

  /** One installed artifact as found; None where the recorded file digest is not a digest. */
  datatype Artifact = Artifact(exactKeys: bool, name: string, version: string, filesDigest: Option<Digest>)

  datatype ObservedBody = ObservedBody(
    schema: string,
    runtime: Runtime,
    inventory: seq<Artifact>,
    inventoryDigest: Digest,
    declaredProfile: Digest,
    verifier: Digest,
    environmentPolicy: Digest)

  datatype Status = Verified | Failed | StatusUnverifiable | Incompatible

  datatype Drift = NoDrift | PresentationOnly | SemanticDrift | DriftUnverifiable | Abstain

  datatype Classification =
    | ExactEnvironmentReplay
    | SemanticallyEquivalent
    | PresentationOnlyDrift
    | SemanticDriftFound
    | EnvironmentIncompatible
    | Unverifiable

  datatype ReceiptBody = ReceiptBody(
    schema: string,
    plan: Digest,
    bundle: Digest,
    supplyChain: Digest,
    profile: Digest,
    observed: Digest,
    replayPolicy: Digest,
    migrationRegistry: Digest,
    canonicalization: Digest,
    cryptoProfile: Digest,
    verifier: Digest,
    status: Status,
    semanticResult: Option<Digest>,
    invariantReport: Option<Digest>,
    drift: Drift,
    classification: Classification,
    network: string,
    ledgerWrite: bool,
    productWrite: bool,
    failure: Option<string>)

  type Plan = Recorded<PlanBody>
  type Profile = Recorded<ProfileBody>
  type Observed = Recorded<ObservedBody>
  type Receipt = Recorded<ReceiptBody>

  datatype ReportBody = ReportBody(
    schema: string,
    plan: Plan,
    profiles: seq<Profile>,
    observed: seq<Observed>,
    receipts: seq<Receipt>,
    matrixComplete: bool,
    supersedes: Option<Digest>)

  type Report = Recorded<ReportBody>

  datatype Document =
    | PlanDocument(plan: PlanBody)
    | ProfileDocument(profile: ProfileBody)
    | ObservedDocument(observed: ObservedBody)
    | InventoryDocument(inventory: seq<Artifact>)
    | ReceiptDocument(receipt: ReceiptBody)
    | ReportDocument(report: ReportBody)

  /** The hash over canonical documents, and Python's integer reading of the first two parts of a
      version text (None where a part is not an integer). */
  datatype World = World(hash: Document -> Digest, majorMinor: string -> Option<seq<int>>)

  ghost predicate Injective(world: World) {
    forall a, b {:trigger world.hash(a), world.hash(b)} :: world.hash(a) == world.hash(b) ==> a == b
  }

  const PLAN_SCHEMA := "lukart.cross-environment-replay-plan.v1"
  const PROFILE_SCHEMA := "lukart.execution-environment-profile.v1"
  const OBSERVED_SCHEMA := "lukart.observed-environment-receipt.v1"
  const RECEIPT_SCHEMA := "lukart.cross-environment-replay-receipt.v1"
  const REPORT_SCHEMA := "lukart.cross-environment-replay-report.v1"

  predicate StrictlySorted(digests: seq<Digest>) {
    forall i, j :: 0 <= i < j < |digests| ==> digests[i] < digests[j]
  }

  /** Python's `<` on tuples. */
  predicate TupleLess(a: seq<int>, b: seq<int>) {
    if b == [] then false
    else if a == [] then true
    else a[0] < b[0] || (a[0] == b[0] && TupleLess(a[1..], b[1..]))
  }

  /** Python's `<=` on tuples. */
  predicate TupleAtMost(a: seq<int>, b: seq<int>) {
    if a == [] then true
    else if b == [] then false
    else a[0] < b[0] || (a[0] == b[0] && TupleAtMost(a[1..], b[1..]))
  }

  // ---------------------------------------------------------------- dictionaries keyed by digest

  /** The dictionary a loop over the items leaves behind. */
  function Index<T>(items: seq<Recorded<T>>): map<Digest, Recorded<T>> {
    if items == [] then map[]
    else
      var last := items[|items| - 1];
      Index(items[..|items| - 1])[last.digest := last]
  }

  predicate Distinct<T>(items: seq<Recorded<T>>) {
    forall i, j :: 0 <= i < j < |items| ==> items[i].digest != items[j].digest
  }

  lemma {:induction false} IndexHoldsItems<T>(items: seq<Recorded<T>>)
    ensures forall k :: k in Index(items) ==> Index(items)[k].digest == k && Index(items)[k] in items
    ensures forall item :: item in items ==> item.digest in Index(items)
    decreases |items|
  {
    if items != [] {
      IndexHoldsItems(items[..|items| - 1]);
    }
  }

  lemma {:induction false} DistinctIndex<T>(items: seq<Recorded<T>>)
    requires Distinct(items)
    ensures |Index(items)| == |items|
    ensures forall item :: item in items ==> item.digest in Index(items) && Index(items)[item.digest] == item
    decreases |items|
  {
    if items != [] {
      var front := items[..|items| - 1];
      var last := items[|items| - 1];
      DistinctIndex(front);
      IndexHoldsItems(front);
      assert forall item :: item in front ==> item.digest != last.digest;
      assert last.digest !in Index(front);
      forall item | item in items
        ensures item.digest in Index(items) && Index(items)[item.digest] == item
      {
        if item != last {
          assert item in front;
          assert item.digest != last.digest;
        }
      }
    }
  }

  predicate IsLeast(keys: set<Digest>, least: Digest) {
    least in keys && forall k :: k in keys ==> least <= k
  }

  lemma {:induction false} LeastExists(keys: set<Digest>)
    requires keys != {}
    ensures exists least :: IsLeast(keys, least)
    decreases |keys|
  {
    var some :| some in keys;
    var rest := keys - {some};
    assert keys == rest + {some};
    if rest == {} {
      assert IsLeast(keys, some);
    } else {
      LeastExists(rest);
      var least :| IsLeast(rest, least);
      assert IsLeast(keys, if some <= least then some else least);
    }
  }

  /** The keys of a dictionary in ascending order. */
  function SortedKeys(keys: set<Digest>): (sorted: seq<Digest>)
    ensures StrictlySorted(sorted) && |sorted| == |keys|
    ensures forall k :: k in sorted <==> k in keys
    decreases |keys|
  {
    if keys == {} then []
    else
      LeastExists(keys);
      var least :| IsLeast(keys, least);
      var rest := SortedKeys(keys - {least});
      PrependLeast(keys, least, rest);
      [least] + rest
  }

  lemma PrependLeast(keys: set<Digest>, least: Digest, rest: seq<Digest>)
    requires IsLeast(keys, least)
    requires StrictlySorted(rest) && forall k :: k in rest <==> k in keys - {least}
    ensures StrictlySorted([least] + rest)
    ensures forall k :: k in [least] + rest <==> k in keys
  {
    var sorted := [least] + rest;
    forall i, j | 0 <= i < j < |sorted| ensures sorted[i] < sorted[j] {
      assert sorted[j] == rest[j - 1] && rest[j - 1] in rest;
    }
  }

  /** The values of a dictionary, listed by ascending key. */
  function SortedValues<T>(index: map<Digest, Recorded<T>>): (values: seq<Recorded<T>>)
    ensures |values| == |index|
    ensures forall i :: 0 <= i < |values| ==>
              SortedKeys(index.Keys)[i] in index && values[i] == index[SortedKeys(index.Keys)[i]]
  {
    var keys := SortedKeys(index.Keys);
    assert forall i :: 0 <= i < |keys| ==> keys[i] in index.Keys;
    seq(|keys|, i requires 0 <= i < |keys| => index[keys[i]])
  }

  /** Listing a duplicate-free inventory by digest keeps its members and their number. */
  lemma SortingKeepsMembers<T>(items: seq<Recorded<T>>)
    requires Distinct(items)
    ensures |SortedValues(Index(items))| == |items|
    ensures Distinct(SortedValues(Index(items)))
    ensures forall item :: item in SortedValues(Index(items)) <==> item in items
  {
    hide Index, SortedKeys;
    var index := Index(items);
    var sorted := SortedValues(index);
    var keys := SortedKeys(index.Keys);
    DistinctIndex(items);
    IndexHoldsItems(items);
    assert forall i :: 0 <= i < |sorted| ==> sorted[i].digest == keys[i] && sorted[i] in items;
    forall item | item in items ensures item in sorted {
      assert item.digest in keys;
      var i :| 0 <= i < |keys| && keys[i] == item.digest;
      assert sorted[i] == item;
    }
  }

  /** A dictionary depends only on the members of a duplicate-free inventory. */
  lemma SameMembersSameIndex<T>(a: seq<Recorded<T>>, b: seq<Recorded<T>>)
    requires Distinct(a) && Distinct(b)
    requires forall item :: item in a <==> item in b
    ensures Index(a) == Index(b)
  {
    hide Index;
    DistinctIndex(a);
    DistinctIndex(b);
    IndexHoldsItems(a);
    IndexHoldsItems(b);
    assert forall k :: k in Index(a) ==> k in Index(b) && Index(b)[k] == Index(a)[k];
    assert forall k :: k in Index(b) ==> k in Index(a);
  }

  // ---------------------------------------------------------------- counting

  function Elements(digests: seq<Digest>): set<Digest> {
    set d | d in digests
  }

  predicate AllDifferent(digests: seq<Digest>) {
    forall i, j :: 0 <= i < j < |digests| ==> digests[i] != digests[j]
  }

  lemma {:induction false} ElementsBound(digests: seq<Digest>)
    ensures |Elements(digests)| <= |digests|
    ensures |Elements(digests)| == |digests| <==> AllDifferent(digests)
    decreases |digests|
  {
    if digests != [] {
      var front := digests[..|digests| - 1];
      var last := digests[|digests| - 1];
      ElementsBound(front);
      assert Elements(digests) == Elements(front) + {last};
      if last in front {
        assert Elements(digests) == Elements(front);
        var i :| 0 <= i < |front| && front[i] == last;
        assert digests[i] == digests[|digests| - 1];
      } else {
        assert forall i :: 0 <= i < |front| ==> digests[i] != last;
      }
    }
  }

  function ProfilesOf(receipts: seq<Receipt>): (profiles: seq<Digest>)
    ensures |profiles| == |receipts|
    ensures forall i :: 0 <= i < |receipts| ==> profiles[i] == receipts[i].body.profile
  {
    seq(|receipts|, i requires 0 <= i < |receipts| => receipts[i].body.profile)
  }

  /** The builder counts receipts, the verifier remembers the profiles it has seen. Over
      duplicate-free receipts that name exactly the matrix profiles, the count is right precisely
      when no two receipts share a profile. */
  lemma CountingIsSeeing(receipts: seq<Receipt>, matrix: seq<Digest>)
    requires Distinct(receipts)
    requires Elements(ProfilesOf(receipts)) == Elements(matrix)
    ensures |receipts| == |Elements(matrix)| <==>
              forall r, s :: r in receipts && s in receipts && r.body.profile == s.body.profile ==> r == s
  {
    var profiles := ProfilesOf(receipts);
    ElementsBound(profiles);
    if AllDifferent(profiles) {
      forall r, s | r in receipts && s in receipts && r.body.profile == s.body.profile ensures r == s {
        var i :| 0 <= i < |receipts| && receipts[i] == r;
        var j :| 0 <= j < |receipts| && receipts[j] == s;
        assert profiles[i] == profiles[j];
      }
    } else {
      var i, j :| 0 <= i < j < |profiles| && profiles[i] == profiles[j];
      assert receipts[i] in receipts && receipts[j] in receipts;
      assert receipts[i].digest != receipts[j].digest;
    }
  }

  // ---------------------------------------------------------------- the builder's checks

  /** Canonical text without control characters. */
  predicate CleanText(text: string) {
    && Canonical(text)
    && forall i :: 0 <= i < |text| ==> text[i] as int >= 32 && text[i] as int != 127
  }

  predicate CleanRuntime(runtime: Runtime) {
    && CleanText(runtime.osFamily)
    && CleanText(runtime.architecture)
    && CleanText(runtime.pythonImplementation)
    && CleanText(runtime.pythonVersion)
    && CleanText(runtime.pythonCacheTag)
    && CleanText(runtime.pythonSoabi)
  }

  predicate PlanOk(world: World, plan: Plan) {
    && plan.body.schema == PLAN_SCHEMA
    && |plan.body.profiles| >= 2
    && StrictlySorted(plan.body.profiles)
    && plan.body.matrix == plan.body.profiles
    && plan.body.reference in plan.body.profiles
    && world.hash(PlanDocument(plan.body)) == plan.digest
  }

  predicate ProfileOk(world: World, profile: Profile) {
    && profile.body.schema == PROFILE_SCHEMA
    && CleanText(profile.body.name)
    && CleanRuntime(profile.body.runtime)
    && profile.body.physical != []
    && StrictlySorted(profile.body.physical)
    && world.hash(ProfileDocument(profile.body)) == profile.digest
  }

  predicate ObservedOk(world: World, observed: Observed) {
    && observed.body.schema == OBSERVED_SCHEMA
    && CleanRuntime(observed.body.runtime)
    && world.hash(InventoryDocument(observed.body.inventory)) == observed.body.inventoryDigest
    && world.hash(ObservedDocument(observed.body)) == observed.digest
  }

  predicate ReceiptOk(world: World, receipt: Receipt) {
    var body := receipt.body;
    && body.schema == RECEIPT_SCHEMA
    && body.network == "DENY"
    && !body.ledgerWrite
    && !body.productWrite
    && (body.failure.Some? ==> CleanText(body.failure.value))
    && !(body.status == Verified && body.failure.Some?)
    && (body.semanticResult.None? || body.invariantReport.None? ==> body.classification == Unverifiable)
    && world.hash(ReceiptDocument(body)) == receipt.digest
  }

  predicate PythonSupported(world: World, version: string) {
    var parts := world.majorMinor(version);
    parts.Some? && TupleAtMost([3, 11], parts.value) && TupleLess(parts.value, [3, 15])
  }

  /** The versions that count as supported: exactly Python 3.11 to 3.14. A reading has at most two parts. */
  lemma SupportedVersions(world: World, version: string)
    requires world.majorMinor(version).Some? ==> |world.majorMinor(version).value| <= 2
    ensures PythonSupported(world, version) <==>
              world.majorMinor(version) in {Some([3, 11]), Some([3, 12]), Some([3, 13]), Some([3, 14])}
  {
    var parts := world.majorMinor(version);
    if parts.Some? && |parts.value| == 2 {
      assert parts.value == [parts.value[0], parts.value[1]];
      TuplesInOrder(parts.value);
    } else if parts.Some? && |parts.value| == 1 {
      assert parts.value[1..] == [] && [3, 11][1..] == [11] && [3, 15][1..] == [15];
      assert !TupleAtMost([11], []);
    }
  }

  lemma TuplesInOrder(parts: seq<int>)
    requires |parts| == 2
    ensures TupleAtMost([3, 11], parts) <==> 3 < parts[0] || (parts[0] == 3 && 11 <= parts[1])
    ensures TupleLess(parts, [3, 15]) <==> parts[0] < 3 || (parts[0] == 3 && parts[1] < 15)
  {
    assert [3, 11][1..] == [11] && [3, 15][1..] == [15] && parts[1..] == [parts[1]];
    assert [11][1..] == [] && [15][1..] == [] && [parts[1]][1..] == [];
  }

  predicate Compatible(world: World, profile: ProfileBody, observed: ObservedBody) {
    if profile.runtime != observed.runtime then false
    else if observed.inventoryDigest !in profile.physical then false
    else PythonSupported(world, observed.runtime.pythonVersion)
  }

  function Classify(drift: Drift, compatible: bool, complete: bool, profile: Digest, reference: Digest)
    : Classification
  {
    if !complete || drift == DriftUnverifiable || drift == Abstain then Unverifiable
    else if !compatible then EnvironmentIncompatible
    else if drift == SemanticDrift then SemanticDriftFound
    else if drift == PresentationOnly then PresentationOnlyDrift
    else if profile == reference then ExactEnvironmentReplay
    else SemanticallyEquivalent
  }

  predicate Complete(body: ReceiptBody) {
    body.status == Verified && body.semanticResult.Some? && body.invariantReport.Some?
  }

  predicate PlanBound(plan: PlanBody, body: ReceiptBody) {
    && body.bundle == plan.bundle
    && body.supplyChain == plan.supplyChain
    && body.replayPolicy == plan.replayPolicy
    && body.migrationRegistry == plan.migrationRegistry
    && body.canonicalization == plan.canonicalization
    && body.cryptoProfile == plan.cryptoProfile
  }

  predicate ReportReceiptOk(world: World, plan: PlanBody, profile: ProfileBody, observed: ObservedBody, body: ReceiptBody) {
    && PlanBound(plan, body)
    && body.verifier == profile.verifier
    && observed.verifier == body.verifier
    && observed.environmentPolicy == profile.environmentPolicy
    && body.classification
       == Classify(body.drift, Compatible(world, profile, observed), Complete(body), body.profile, plan.reference)
  }

  /** The receipt names objects of the inventories and repeats what they say. */
  predicate ReceiptFits(world: World, plan: Plan, profiles: map<Digest, Profile>,
                        observed: map<Digest, Observed>, body: ReceiptBody)
  {
    && body.plan == plan.digest
    && body.profile in profiles
    && body.observed in observed
    && observed[body.observed].body.declaredProfile == body.profile
    && ReportReceiptOk(world, plan.body, profiles[body.profile].body, observed[body.observed].body, body)
  }

  /** Every matrix profile has one profile document and exactly one receipt, and there are no others. */
  predicate OneReceiptPerProfile(matrix: seq<Digest>, profiles: seq<Profile>, receipts: seq<Receipt>) {
    && (forall r, s :: r in receipts && s in receipts && r.body.profile == s.body.profile ==> r == s)
    && (forall r :: r in receipts ==> r.body.profile in matrix)
    && (forall d :: d in matrix ==> exists r :: r in receipts && r.body.profile == d)
    && (forall p :: p in profiles ==> p.digest in matrix)
    && (forall d :: d in matrix ==> exists p :: p in profiles && p.digest == d)
  }

  predicate BuilderAccepts(world: World, plan: Plan, profiles: seq<Profile>, observed: seq<Observed>,
                           receipts: seq<Receipt>)
  {
    && PlanOk(world, plan)
    && (forall p :: p in profiles ==> ProfileOk(world, p))
    && Distinct(profiles)
    && (forall o :: o in observed ==> ObservedOk(world, o))
    && Distinct(observed)
    && (forall r :: r in receipts ==> ReceiptOk(world, r))
    && (forall r :: r in receipts ==> ReceiptFits(world, plan, Index(profiles), Index(observed), r.body))
    && Distinct(receipts)
    && OneReceiptPerProfile(plan.body.matrix, profiles, receipts)
  }

  function ReportOf(world: World, plan: Plan, profiles: seq<Profile>, observed: seq<Observed>,
                    receipts: seq<Receipt>, supersedes: Option<Digest>): Report
  {
    var body := ReportBody(REPORT_SCHEMA, plan, SortedValues(Index(profiles)), SortedValues(Index(observed)),
                           SortedValues(Index(receipts)), true, supersedes);
    Recorded(body, world.hash(ReportDocument(body)))
  }

  // ---------------------------------------------------------------- building receipts and reports

  /** The new receipt, or None where the builder refuses. */
  function BuildReceipt(world: World, plan: Plan, profile: Profile, observed: Observed, verifier: Digest,
                        semanticResult: Option<Digest>, invariantReport: Option<Digest>, drift: Drift,
                        status: Status, failure: Option<string>): Option<Receipt>
  {
    if !PlanOk(world, plan) || !ProfileOk(world, profile) || !ObservedOk(world, observed) then None
    else if profile.digest !in plan.body.profiles then None
    else if profile.body.bundle != plan.body.bundle then None
    else if profile.body.migrationRegistry != plan.body.migrationRegistry then None
    else if profile.body.canonicalization != plan.body.canonicalization then None
    else if profile.body.cryptoProfile != plan.body.cryptoProfile then None
    else if observed.body.declaredProfile != profile.digest then None
    else if observed.body.verifier != verifier then None
    else if observed.body.environmentPolicy != profile.body.environmentPolicy then None
    else
      var compatible := Compatible(world, profile.body, observed.body);
      var complete := status == Verified && semanticResult.Some? && invariantReport.Some?;
      var classification := Classify(drift, compatible, complete, profile.digest, plan.body.reference);
      if status == Incompatible && compatible then None
      else if status == Verified && !compatible then None
      else if status == Verified && failure.Some? then None
      else
        var body := ReceiptBody(RECEIPT_SCHEMA, plan.digest, plan.body.bundle, plan.body.supplyChain,
                                profile.digest, observed.digest, plan.body.replayPolicy,
                                plan.body.migrationRegistry, plan.body.canonicalization,
                                plan.body.cryptoProfile, verifier, status, semanticResult, invariantReport,
                                drift, classification, "DENY", false, false, failure);
        var receipt := Recorded(body, world.hash(ReceiptDocument(body)));
        if ReceiptOk(world, receipt) then Some(receipt) else None
  }

  /** The status a receipt claims does not contradict the environments it names. */
  predicate Coherent(status: Status, compatible: bool) {
    (status == Verified ==> compatible) && (status == Incompatible ==> !compatible)
  }

  /** Some call of the receipt builder returned the receipt. */
  ghost predicate Built(world: World, plan: Plan, receipt: Receipt) {
    exists profile, observed, verifier, semanticResult, invariantReport, drift, status, failure ::
      BuildReceipt(world, plan, profile, observed, verifier, semanticResult, invariantReport, drift, status, failure)
      == Some(receipt)
  }

  method BuildReport(world: World, plan: Plan, profiles: seq<Profile>, observed: seq<Observed>,
                     receipts: seq<Receipt>, supersedes: Option<Digest>)
    returns (report: Option<Report>)
    ensures report.Some? <==> BuilderAccepts(world, plan, profiles, observed, receipts)
    ensures report.Some? ==> report.value == ReportOf(world, plan, profiles, observed, receipts, supersedes)
  {
    hide PlanOk, ProfileOk, ObservedOk, ReceiptOk, ReceiptFits, OneReceiptPerProfile, SortedKeys, SortedValues, Index, Distinct;
    EmptyIndex<ProfileBody>();
    EmptyIndex<ObservedBody>();
    EmptyIndex<ReceiptBody>();
    if !PlanOk(world, plan) {
      return None;
    }
    var profileMap: map<Digest, Profile> := map[];
    for i := 0 to |profiles|
      invariant profileMap == Index(profiles[..i]) && Distinct(profiles[..i])
      invariant forall p :: p in profiles[..i] ==> ProfileOk(world, p)
    {
      Snoc(profiles, i);
      if !ProfileOk(world, profiles[i]) || profiles[i].digest in profileMap {
        return None;
      }
      profileMap := profileMap[profiles[i].digest := profiles[i]];
    }
    assert profiles[..|profiles|] == profiles;
    var observedMap: map<Digest, Observed> := map[];
    for i := 0 to |observed|
      invariant observedMap == Index(observed[..i]) && Distinct(observed[..i])
      invariant forall o :: o in observed[..i] ==> ObservedOk(world, o)
    {
      Snoc(observed, i);
      if !ObservedOk(world, observed[i]) || observed[i].digest in observedMap {
        return None;
      }
      observedMap := observedMap[observed[i].digest := observed[i]];
    }
    assert observed[..|observed|] == observed;
    var receiptMap: map<Digest, Receipt> := map[];
    for i := 0 to |receipts|
      invariant receiptMap == Index(receipts[..i]) && Distinct(receipts[..i])
      invariant forall r :: r in receipts[..i] ==> ReceiptOk(world, r)
      invariant forall r :: r in receipts[..i] ==> ReceiptFits(world, plan, profileMap, observedMap, r.body)
    {
      Snoc(receipts, i);
      if !ReceiptOk(world, receipts[i]) || receipts[i].digest in receiptMap
         || !ReceiptFits(world, plan, profileMap, observedMap, receipts[i].body)
      {
        return None;
      }
      receiptMap := receiptMap[receipts[i].digest := receipts[i]];
    }
    assert receipts[..|receipts|] == receipts;
    var expected := Elements(plan.body.matrix);
    var actual := set d | d in receiptMap :: receiptMap[d].body.profile;
    MatrixByCounting(plan.body.matrix, profiles, receipts);
    if actual != expected || |receiptMap| != |expected| || profileMap.Keys != expected {
      return None;
    }
    var body := ReportBody(REPORT_SCHEMA, plan, SortedValues(profileMap), SortedValues(observedMap),
                           SortedValues(receiptMap), true, supersedes);
    report := Some(Recorded(body, world.hash(ReportDocument(body))));
  }

  lemma EmptyIndex<T>()
    ensures Index<T>([]) == map[] && Distinct<T>([])
  {
  }

  /** One step of a loop that fills a dictionary. */
  lemma Snoc<T>(items: seq<Recorded<T>>, i: nat)
    requires i < |items|
    ensures items[..i + 1] == items[..i] + [items[i]]
    ensures Index(items[..i + 1]) == Index(items[..i])[items[i].digest := items[i]]
    ensures Distinct(items[..i]) ==> (Distinct(items[..i + 1]) <==> items[i].digest !in Index(items[..i]))
    ensures Distinct(items) ==> Distinct(items[..i + 1])
  {
    var front := items[..i];
    var longer := items[..i + 1];
    assert longer[..|longer| - 1] == front;
    IndexHoldsItems(front);
    if Distinct(front) && items[i].digest !in Index(front) {
      forall a, b | 0 <= a < b < |longer| ensures longer[a].digest != longer[b].digest {
        if b == i {
          assert front[a] in front;
        } else {
          assert front[a] == longer[a] && front[b] == longer[b];
        }
      }
    }
    if items[i].digest in Index(front) {
      var a :| 0 <= a < |front| && front[a] == Index(front)[items[i].digest];
      assert longer[a].digest == longer[i].digest;
    }
  }

  /** The builder's three set comparisons say that every matrix profile has exactly one receipt. */
  lemma MatrixByCounting(matrix: seq<Digest>, profiles: seq<Profile>, receipts: seq<Receipt>)
    requires Distinct(profiles) && Distinct(receipts)
    ensures (&& (set d | d in Index(receipts) :: Index(receipts)[d].body.profile) == Elements(matrix)
             && |Index(receipts)| == |Elements(matrix)|
             && Index(profiles).Keys == Elements(matrix))
            <==> OneReceiptPerProfile(matrix, profiles, receipts)
  {
    hide Index, Distinct, ProfilesOf;
    ReceiptProfiles(receipts);
    KeysAreDigests(profiles);
    assert |Index(receipts)| == |receipts| by {
      DistinctIndex(receipts);
    }
    if Elements(ProfilesOf(receipts)) == Elements(matrix) {
      CountingIsSeeing(receipts, matrix);
    }
    assert forall d :: d in matrix <==> d in Elements(matrix);
  }

  lemma KeysAreDigests<T>(items: seq<Recorded<T>>)
    requires Distinct(items)
    ensures forall d :: d in Index(items) <==> exists item :: item in items && item.digest == d
  {
    hide Index;
    IndexHoldsItems(items);
  }

  lemma ReceiptProfiles(receipts: seq<Receipt>)
    requires Distinct(receipts)
    ensures (set d | d in Index(receipts) :: Index(receipts)[d].body.profile) == Elements(ProfilesOf(receipts))
    ensures forall d :: d in Elements(ProfilesOf(receipts)) <==> exists r :: r in receipts && r.body.profile == d
  {
    hide Index;
    IndexHoldsItems(receipts);
    DistinctIndex(receipts);
    var actual := set d | d in Index(receipts) :: Index(receipts)[d].body.profile;
    var named := Elements(ProfilesOf(receipts));
    forall r | r in receipts ensures r.body.profile in actual && r.body.profile in named {
      assert r.digest in Index(receipts);
      var i :| 0 <= i < |receipts| && receipts[i] == r;
      assert ProfilesOf(receipts)[i] in ProfilesOf(receipts);
    }
    forall d | d in named ensures d in actual && exists r :: r in receipts && r.body.profile == d {
      var i :| 0 <= i < |receipts| && ProfilesOf(receipts)[i] == d;
      assert receipts[i] in receipts;
    }
  }

  // ---------------------------------------------------------------- what a built receipt says

  /** What two documents say of one environment: it has the described runtime, one of the described inventories
      and a supported Python. */
  predicate EnvironmentFits(world: World, profile: ProfileBody, observed: ObservedBody) {
    && (profile.runtime.osFamily, profile.runtime.architecture, profile.runtime.pythonImplementation)
       == (observed.runtime.osFamily, observed.runtime.architecture, observed.runtime.pythonImplementation)
    && (profile.runtime.pythonVersion, profile.runtime.pythonCacheTag, profile.runtime.pythonSoabi)
       == (observed.runtime.pythonVersion, observed.runtime.pythonCacheTag, observed.runtime.pythonSoabi)
    && observed.inventoryDigest in profile.physical
    && world.majorMinor(profile.runtime.pythonVersion) in {Some([3, 11]), Some([3, 12]), Some([3, 13]), Some([3, 14])}
  }

  /** Text that documents carry as it is: not blank, nothing to strip, no control characters. */
  predicate PlainField(text: string) {
    text != "" && Strip(text) == text && forall c :: c in text ==> 32 <= c as int && c as int != 127
  }

  lemma CleanIsPlain(text: string)
    ensures CleanText(text) <==> PlainField(text)
  {
    StripShortens(text);
    assert forall i :: 0 <= i < |text| ==> text[i] in text;
  }

  function RuntimeTexts(runtime: Runtime): seq<string> {
    [runtime.osFamily, runtime.architecture, runtime.pythonImplementation,
     runtime.pythonVersion, runtime.pythonCacheTag, runtime.pythonSoabi]
  }

  lemma RuntimeIsClean(runtime: Runtime)
    ensures CleanRuntime(runtime) <==> forall text :: text in RuntimeTexts(runtime) ==> PlainField(text)
  {
    hide CleanText, PlainField;
    var texts := RuntimeTexts(runtime);
    forall text ensures CleanText(text) <==> PlainField(text) { CleanIsPlain(text); }
    assert texts[0] in texts && texts[1] in texts && texts[2] in texts;
    assert texts[3] in texts && texts[4] in texts && texts[5] in texts;
  }

  /** The descriptions and observations of environments that the builder takes: true to their digests and plain
      in every text. */
  lemma EnvironmentsAreTakenExactlyWhen(world: World, profile: Profile, observed: Observed)
    ensures ProfileOk(world, profile) <==>
              && profile.body.schema == PROFILE_SCHEMA && world.hash(ProfileDocument(profile.body)) == profile.digest
              && (forall text :: text in [profile.body.name] + RuntimeTexts(profile.body.runtime) ==> PlainField(text))
              && profile.body.physical != []
              && (forall i, j :: 0 <= i < j < |profile.body.physical| ==> profile.body.physical[i] < profile.body.physical[j])
    ensures ObservedOk(world, observed) <==>
              && observed.body.schema == OBSERVED_SCHEMA && world.hash(ObservedDocument(observed.body)) == observed.digest
              && world.hash(InventoryDocument(observed.body.inventory)) == observed.body.inventoryDigest
              && (forall text :: text in RuntimeTexts(observed.body.runtime) ==> PlainField(text))
  {
    CleanIsPlain(profile.body.name);
    RuntimeIsClean(profile.body.runtime);
    RuntimeIsClean(observed.body.runtime);
    hide CleanText, CleanRuntime, PlainField, RuntimeTexts;
    assert ([profile.body.name] + RuntimeTexts(profile.body.runtime))[0] == profile.body.name;
  }

  lemma FitsExactlyWhenCompatible(world: World, profile: ProfileBody, observed: ObservedBody)
    requires forall text :: world.majorMinor(text).Some? ==> |world.majorMinor(text).value| <= 2
    ensures Compatible(world, profile, observed) <==> EnvironmentFits(world, profile, observed)
  {
    SupportedVersions(world, profile.runtime.pythonVersion);
    hide PythonSupported;
  }

  /** The plan lists this description and agrees with it, and the environment was observed for it, by this verifier
      and under its policy. */
  predicate Agree(plan: Plan, profile: Profile, observed: Observed, verifier: Digest) {
    && profile.digest in plan.body.profiles
    && (profile.body.bundle, profile.body.migrationRegistry) == (plan.body.bundle, plan.body.migrationRegistry)
    && (profile.body.canonicalization, profile.body.cryptoProfile) == (plan.body.canonicalization, plan.body.cryptoProfile)
    && (observed.body.declaredProfile, observed.body.verifier) == (profile.digest, verifier)
    && observed.body.environmentPolicy == profile.body.environmentPolicy
  }

  lemma DisagreementIsRefused(world: World, plan: Plan, profile: Profile, observed: Observed, verifier: Digest,
                              semanticResult: Option<Digest>, invariantReport: Option<Digest>, drift: Drift,
                              status: Status, failure: Option<string>)
    requires !PlanOk(world, plan) || !ProfileOk(world, profile) || !ObservedOk(world, observed)
             || !Agree(plan, profile, observed, verifier)
    ensures BuildReceipt(world, plan, profile, observed, verifier, semanticResult, invariantReport, drift, status, failure).None?
  {
    hide PlanOk, ProfileOk, ObservedOk, ReceiptOk, Classify, Compatible;
  }

  lemma AgreementLeavesStatus(world: World, plan: Plan, profile: Profile, observed: Observed, verifier: Digest,
                              semanticResult: Option<Digest>, invariantReport: Option<Digest>, drift: Drift,
                              status: Status, failure: Option<string>)
    requires PlanOk(world, plan) && ProfileOk(world, profile) && ObservedOk(world, observed)
    requires Agree(plan, profile, observed, verifier)
    ensures BuildReceipt(world, plan, profile, observed, verifier, semanticResult, invariantReport, drift, status, failure).Some?
            <==>
              && (status == Verified ==> Compatible(world, profile.body, observed.body) && failure.None?)
              && (status == Incompatible ==> !Compatible(world, profile.body, observed.body))
              && (failure.Some? ==> CleanText(failure.value))
  {
    hide PlanOk, ProfileOk, ObservedOk, CleanText, Compatible;
  }

  /** A receipt is built exactly for documents that agree, with a status that does not contradict the environment
      and no failure where it verified. */
  lemma ReceiptsAreBuiltExactlyWhen(world: World, plan: Plan, profile: Profile, observed: Observed, verifier: Digest,
                                    semanticResult: Option<Digest>, invariantReport: Option<Digest>, drift: Drift,
                                    status: Status, failure: Option<string>)
    requires forall text :: world.majorMinor(text).Some? ==> |world.majorMinor(text).value| <= 2
    ensures var built := BuildReceipt(world, plan, profile, observed, verifier, semanticResult, invariantReport, drift,
                                      status, failure);
            var fits := EnvironmentFits(world, profile.body, observed.body);
            built.Some? <==>
              && PlanOk(world, plan) && ProfileOk(world, profile) && ObservedOk(world, observed)
              && Agree(plan, profile, observed, verifier)
              && (status == Verified ==> fits && failure.None?)
              && (status == Incompatible ==> !fits)
              && (failure.Some? ==> PlainField(failure.value))
  {
    hide PlanOk, ProfileOk, ObservedOk, Agree, BuildReceipt, CleanText, PlainField, Compatible, EnvironmentFits;
    FitsExactlyWhenCompatible(world, profile.body, observed.body);
    if failure.Some? { CleanIsPlain(failure.value); }
    if PlanOk(world, plan) && ProfileOk(world, profile) && ObservedOk(world, observed) && Agree(plan, profile, observed, verifier) {
      AgreementLeavesStatus(world, plan, profile, observed, verifier, semanticResult, invariantReport, drift, status, failure);
    } else {
      DisagreementIsRefused(world, plan, profile, observed, verifier, semanticResult, invariantReport, drift, status, failure);
    }
  }

  /** It then records just what the builder was told, for the plan's artifacts and policies, and grants nothing. */
  lemma BuiltReceiptsRecord(world: World, plan: Plan, profile: Profile, observed: Observed, verifier: Digest,
                            semanticResult: Option<Digest>, invariantReport: Option<Digest>, drift: Drift,
                            status: Status, failure: Option<string>)
    requires BuildReceipt(world, plan, profile, observed, verifier, semanticResult, invariantReport, drift, status, failure).Some?
    ensures var receipt := BuildReceipt(world, plan, profile, observed, verifier, semanticResult, invariantReport, drift,
                                        status, failure).value;
            var body := receipt.body;
            && receipt.digest == world.hash(ReceiptDocument(body))
            && (body.plan, body.profile, body.observed, body.verifier) == (plan.digest, profile.digest, observed.digest, verifier)
            && (body.status, body.drift, body.failure) == (status, drift, failure)
            && (body.semanticResult, body.invariantReport) == (semanticResult, invariantReport)
            && (body.bundle, body.supplyChain, body.replayPolicy)
               == (plan.body.bundle, plan.body.supplyChain, plan.body.replayPolicy)
            && (body.migrationRegistry, body.canonicalization, body.cryptoProfile)
               == (plan.body.migrationRegistry, plan.body.canonicalization, plan.body.cryptoProfile)
            && body.network == "DENY" && !body.ledgerWrite && !body.productWrite
  {
  }
}
