/**
  The hypotheses about the hash and the builders can be met together. An explicit injective hash of
  documents, and over every injective hash two environments whose receipts and report are built and
  verified.
 */
module SampleReport {
  import opened Prelude
  import opened CrossEnvironment
  import opened CrossEnvironmentVerifier

  // ---------------------------------------------------------------- an injective hash

  datatype Term = Nil | Leaf(n: nat) | Cons(head: Term, tail: Term)

  /** 2^a (2b + 1), which takes every positive value once. */
  function Pairing(a: nat, b: nat): (n: nat)
    ensures n > 0
  {
    if a == 0 then 2 * b + 1 else 2 * Pairing(a - 1, b)
  }

  lemma {:induction false} PairingInjective(a: nat, b: nat, c: nat, d: nat)
    requires Pairing(a, b) == Pairing(c, d)
    ensures a == c && b == d
  {
    if a > 0 && c > 0 {
      PairingInjective(a - 1, b, c - 1, d);
    }
  }

  function TermNumber(term: Term): nat {
    match term
    case Nil => 0
    case Leaf(n) => Pairing(0, n)
    case Cons(head, tail) => Pairing(TermNumber(head) + 1, TermNumber(tail))
  }

  lemma {:induction false} TermNumberInjective(a: Term, b: Term)
    requires TermNumber(a) == TermNumber(b)
    ensures a == b
  {
    if a.Leaf? && b.Leaf? {
      PairingInjective(0, a.n, 0, b.n);
    } else if a.Cons? && b.Cons? {
      PairingInjective(TermNumber(a.head) + 1, TermNumber(a.tail), TermNumber(b.head) + 1, TermNumber(b.tail));
      TermNumberInjective(a.head, b.head);
      TermNumberInjective(a.tail, b.tail);
    } else if a.Leaf? && b.Cons? {
      PairingInjective(0, a.n, TermNumber(b.head) + 1, TermNumber(b.tail));
    } else if a.Cons? && b.Leaf? {
      PairingInjective(TermNumber(a.head) + 1, TermNumber(a.tail), 0, b.n);
    }
  }

  ghost predicate OneToOne<T(!new)>(f: T -> Term) {
    forall x, y {:trigger f(x), f(y)} :: f(x) == f(y) ==> x == y
  }

  function Terms(terms: seq<Term>): Term {
    if terms == [] then Nil else Cons(terms[0], Terms(terms[1..]))
  }

  lemma {:induction false} TermsInjective(a: seq<Term>, b: seq<Term>)
    requires Terms(a) == Terms(b)
    ensures a == b
  {
    if a != [] && b != [] {
      TermsInjective(a[1..], b[1..]);
      assert a == [a[0]] + a[1..] && b == [b[0]] + b[1..];
    }
  }

  function ListTerm<T>(items: seq<T>, f: T -> Term): Term {
    Terms(seq(|items|, i requires 0 <= i < |items| => f(items[i])))
  }

  lemma ListInjective<T(!new)>(a: seq<T>, b: seq<T>, f: T -> Term)
    requires OneToOne(f) && ListTerm(a, f) == ListTerm(b, f)
    ensures a == b
  {
    var s, t := seq(|a|, i requires 0 <= i < |a| => f(a[i])), seq(|b|, i requires 0 <= i < |b| => f(b[i]));
    TermsInjective(s, t);
    assert |a| == |s| == |b|;
    forall i | 0 <= i < |a| ensures a[i] == b[i] {
      assert s[i] == t[i];
    }
  }

  function Digit(n: nat): Term { Leaf(n) }

  function Letter(c: char): Term { Leaf(c as nat) }

  function Text(text: string): Term { ListTerm(text, Letter) }

  function Digests(digests: seq<Digest>): Term { ListTerm(digests, Digit) }

  function Flag(b: bool): Term { Leaf(if b then 1 else 0) }

  function Maybe<T>(o: Option<T>, f: T -> Term): Term {
    if o.None? then Nil else Cons(f(o.value), Nil)
  }

  lemma TextsInjective()
    ensures OneToOne(Text) && OneToOne(Digests)
  {
    forall a, b | Text(a) == Text(b) ensures a == b {
      ListInjective(a, b, Letter);
    }
    forall a, b | Digests(a) == Digests(b) ensures a == b {
      ListInjective(a, b, Digit);
    }
  }

  function StatusTerm(status: Status): Term {
    Leaf(match status case Verified => 0 case Failed => 1 case StatusUnverifiable => 2 case Incompatible => 3)
  }

  function DriftTerm(drift: Drift): Term {
    Leaf(match drift case NoDrift => 0 case PresentationOnly => 1 case SemanticDrift => 2 case DriftUnverifiable => 3
                     case Abstain => 4)
  }

  function ClassificationTerm(c: Classification): Term {
    Leaf(match c case ExactEnvironmentReplay => 0 case SemanticallyEquivalent => 1 case PresentationOnlyDrift => 2
                 case SemanticDriftFound => 3 case EnvironmentIncompatible => 4 case Unverifiable => 5)
  }

  function RuntimeTerm(r: Runtime): Term {
    Cons(Text(r.osFamily), Cons(Text(r.architecture), Cons(Text(r.pythonImplementation),
      Cons(Text(r.pythonVersion), Cons(Text(r.pythonCacheTag), Text(r.pythonSoabi))))))
  }

  function PlanTerm(p: PlanBody): Term {
    Cons(Text(p.schema), Cons(Leaf(p.bundle), Cons(Leaf(p.supplyChain), Cons(Digests(p.profiles),
      Cons(Leaf(p.reference), Cons(Leaf(p.replayPolicy), Cons(Leaf(p.migrationRegistry),
        Cons(Leaf(p.canonicalization), Cons(Leaf(p.cryptoProfile), Digests(p.matrix))))))))))
  }

  function ProfileTerm(p: ProfileBody): Term {
    Cons(Text(p.schema), Cons(Text(p.name), Cons(RuntimeTerm(p.runtime), Cons(Digests(p.physical),
      Cons(Leaf(p.dependencyLock), Cons(Leaf(p.canonicalization), Cons(Leaf(p.migrationRegistry),
        Cons(Leaf(p.cryptoProfile), Cons(Leaf(p.bundle), Cons(Leaf(p.verifier), Leaf(p.environmentPolicy)))))))))))
  }

  function ArtifactTerm(a: Artifact): Term {
    Cons(Flag(a.exactKeys), Cons(Text(a.name), Cons(Text(a.version), Maybe(a.filesDigest, Digit))))
  }

  function InventoryTerm(inventory: seq<Artifact>): Term { ListTerm(inventory, ArtifactTerm) }

  function ObservedTerm(o: ObservedBody): Term {
    Cons(Text(o.schema), Cons(RuntimeTerm(o.runtime), Cons(InventoryTerm(o.inventory), Cons(Leaf(o.inventoryDigest),
      Cons(Leaf(o.declaredProfile), Cons(Leaf(o.verifier), Leaf(o.environmentPolicy)))))))
  }

  function ReceiptTerm(r: ReceiptBody): Term {
    Cons(ReceiptDigests(r), Cons(Text(r.schema), Cons(StatusTerm(r.status), Cons(Maybe(r.semanticResult, Digit),
      Cons(Maybe(r.invariantReport, Digit), Cons(DriftTerm(r.drift), Cons(ClassificationTerm(r.classification),
        Cons(Text(r.network), Cons(Flag(r.ledgerWrite), Cons(Flag(r.productWrite), Maybe(r.failure, Text)))))))))))
  }

  function ReceiptDigests(r: ReceiptBody): Term {
    Cons(Leaf(r.plan), Cons(Leaf(r.bundle), Cons(Leaf(r.supplyChain), Cons(Leaf(r.profile), Cons(Leaf(r.observed),
      Cons(Leaf(r.replayPolicy), Cons(Leaf(r.migrationRegistry), Cons(Leaf(r.canonicalization),
        Cons(Leaf(r.cryptoProfile), Leaf(r.verifier))))))))))
  }

  function RecordedTerm<T>(item: Recorded<T>, f: T -> Term): Term {
    Cons(f(item.body), Leaf(item.digest))
  }

  function RecordedPlan(plan: Plan): Term { RecordedTerm(plan, PlanTerm) }
  function RecordedProfile(profile: Profile): Term { RecordedTerm(profile, ProfileTerm) }
  function RecordedObserved(observed: Observed): Term { RecordedTerm(observed, ObservedTerm) }
  function RecordedReceipt(receipt: Receipt): Term { RecordedTerm(receipt, ReceiptTerm) }

  function ReportTerm(r: ReportBody): Term {
    Cons(Text(r.schema), Cons(RecordedPlan(r.plan), Cons(ListTerm(r.profiles, RecordedProfile),
      Cons(ListTerm(r.observed, RecordedObserved), Cons(ListTerm(r.receipts, RecordedReceipt),
        Cons(Flag(r.matrixComplete), Maybe(r.supersedes, Digit)))))))
  }

  function DocumentTerm(document: Document): Term {
    match document
    case PlanDocument(plan) => Cons(Leaf(0), PlanTerm(plan))
    case ProfileDocument(profile) => Cons(Leaf(1), ProfileTerm(profile))
    case ObservedDocument(observed) => Cons(Leaf(2), ObservedTerm(observed))
    case InventoryDocument(inventory) => Cons(Leaf(3), InventoryTerm(inventory))
    case ReceiptDocument(receipt) => Cons(Leaf(4), ReceiptTerm(receipt))
    case ReportDocument(report) => Cons(Leaf(5), ReportTerm(report))
  }

  function DocumentNumber(document: Document): Digest {
    TermNumber(DocumentTerm(document))
  }

  lemma RuntimeInjective()
    ensures OneToOne(RuntimeTerm)
  {
    TextsInjective();
    hide Text;
  }

  lemma PlanInjective()
    ensures OneToOne(PlanTerm) && OneToOne(RecordedPlan)
  {
    TextsInjective();
    hide Text, Digests;
  }

  lemma ProfileInjective()
    ensures OneToOne(ProfileTerm) && OneToOne(RecordedProfile)
  {
    TextsInjective();
    RuntimeInjective();
    hide Text, Digests, RuntimeTerm;
  }

  lemma InventoryInjective()
    ensures OneToOne(InventoryTerm)
  {
    assert OneToOne(ArtifactTerm) by {
      TextsInjective();
      hide Text, Digests;
    }
    forall a, b | InventoryTerm(a) == InventoryTerm(b) ensures a == b {
      ListInjective(a, b, ArtifactTerm);
    }
  }

  lemma ObservedInjective()
    ensures OneToOne(ObservedTerm) && OneToOne(RecordedObserved)
  {
    TextsInjective();
    RuntimeInjective();
    InventoryInjective();
    hide Text, Digests, RuntimeTerm, InventoryTerm;
  }

  lemma ReceiptInjective()
    ensures OneToOne(ReceiptTerm) && OneToOne(RecordedReceipt)
  {
    TextsInjective();
    hide Text, Digests;
  }

  lemma ReportInjective()
    ensures OneToOne(ReportTerm)
  {
    TextsInjective();
    PlanInjective();
    ProfileInjective();
    ObservedInjective();
    ReceiptInjective();
    hide Text, Digests, RecordedPlan, RecordedProfile, RecordedObserved, RecordedReceipt, ListTerm;
    forall a, b | ReportTerm(a) == ReportTerm(b) ensures a == b {
      ListInjective(a.profiles, b.profiles, RecordedProfile);
      ListInjective(a.observed, b.observed, RecordedObserved);
      ListInjective(a.receipts, b.receipts, RecordedReceipt);
    }
  }

  /** An injective hash of documents exists. */
  lemma DocumentNumberInjective(majorMinor: string -> Option<seq<int>>)
    ensures Injective(World(DocumentNumber, majorMinor))
  {
    PlanInjective();
    ProfileInjective();
    InventoryInjective();
    ObservedInjective();
    ReceiptInjective();
    ReportInjective();
    hide PlanTerm, ProfileTerm, InventoryTerm, ObservedTerm, ReceiptTerm, ReportTerm;
    forall a, b | DocumentNumber(a) == DocumentNumber(b) ensures a == b {
      TermNumberInjective(DocumentTerm(a), DocumentTerm(b));
    }
  }

  // ---------------------------------------------------------------- two environments and their report

  const PIP := [Artifact(true, "pip", "24.0", Some(7))]

  function RuntimeFor(version: string): Runtime {
    Runtime("linux", "x86", "cpython", version, "tag", "soabi")
  }

  function SampleProfile(world: World, version: string, name: string): Profile {
    var body := ProfileBody(PROFILE_SCHEMA, name, RuntimeFor(version), [world.hash(InventoryDocument(PIP))], 0, 0, 0, 0, 0, 0, 0);
    Recorded(body, world.hash(ProfileDocument(body)))
  }

  function SampleObserved(world: World, version: string, profile: Profile): Observed {
    var body := ObservedBody(OBSERVED_SCHEMA, RuntimeFor(version), PIP, world.hash(InventoryDocument(PIP)), profile.digest, 0, 0);
    Recorded(body, world.hash(ObservedDocument(body)))
  }

  function SamplePlan(world: World, first: Profile, second: Profile): Plan {
    var matrix := [first.digest, second.digest];
    var body := PlanBody(PLAN_SCHEMA, 0, 0, matrix, first.digest, 0, 0, 0, 0, matrix);
    Recorded(body, world.hash(PlanDocument(body)))
  }

  /** A complete run without drift. */
  function SampleReceipt(world: World, plan: Plan, profile: Profile, observed: Observed): Option<Receipt> {
    BuildReceipt(world, plan, profile, observed, 0, Some(1), Some(2), NoDrift, Verified, None)
  }

  lemma SampleReceiptBuilt(world: World, version: string, plan: Plan, profile: Profile, observed: Observed, name: string)
    requires Injective(world) && CleanText(version) && PythonSupported(world, version) && CleanText(name)
    requires profile == SampleProfile(world, version, name) && observed == SampleObserved(world, version, profile)
    requires PlanOk(world, plan) && profile.digest in plan.body.profiles
    requires plan.body == plan.body.(bundle := 0, migrationRegistry := 0, canonicalization := 0, cryptoProfile := 0)
    ensures ProfileOk(world, profile) && ObservedOk(world, observed)
    ensures var receipt := SampleReceipt(world, plan, profile, observed);
            && receipt.Some?
            && Built(world, plan, receipt.value)
            && receipt.value.body.profile == profile.digest
            && receipt.value.body.observed == observed.digest
            && receipt.value.body.verifier == 0
            && receipt.value.body.status == Verified
  {
    hide PlanOk, PythonSupported;
    assert Compatible(world, profile.body, observed.body);
  }

  /** Over every injective hash and for every supported version some report meets all hypotheses of
      `BuiltReportsVerify`, with two environments that were both verified. */
  lemma ReportsExist(world: World, version: string)
    returns (plan: Plan, profiles: seq<Profile>, observed: seq<Observed>, receipts: seq<Receipt>)
    requires Injective(world) && CleanText(version) && PythonSupported(world, version)
    ensures BuilderAccepts(world, plan, profiles, observed, receipts)
    ensures forall r :: r in receipts ==> Built(world, plan, r) && r.body.status == Verified
    ensures forall o :: o in observed ==> InventoryHolds(o.body)
    ensures forall p, o :: p in profiles && o in observed && o.body.declaredProfile == p.digest
                           ==> o.body.inventoryDigest in p.body.physical
    ensures |receipts| == 2
  {
    var a, b := SampleProfile(world, version, "a"), SampleProfile(world, version, "b");
    assert a.body.name != b.body.name;
    assert a.digest != b.digest by {
      assert world.hash(ProfileDocument(a.body)) == a.digest && world.hash(ProfileDocument(b.body)) == b.digest;
    }
    var names := if a.digest < b.digest then ("a", "b") else ("b", "a");
    var first, second := SampleProfile(world, version, names.0), SampleProfile(world, version, names.1);
    assert first.digest < second.digest;
    plan, profiles, observed, receipts := ReportOfTwo(world, version, names.0, names.1);
  }

  lemma ReceiptsDiffer(world: World, r: Receipt, r': Receipt)
    requires Injective(world) && ReceiptOk(world, r) && ReceiptOk(world, r') && r.body.profile != r'.body.profile
    ensures r.digest != r'.digest
  {
    hide CleanText;
    assert world.hash(ReceiptDocument(r.body)) == r.digest && world.hash(ReceiptDocument(r'.body)) == r'.digest;
  }

  lemma ReportOfTwo(world: World, version: string, name: string, other: string)
    returns (plan: Plan, profiles: seq<Profile>, observed: seq<Observed>, receipts: seq<Receipt>)
    requires Injective(world) && CleanText(version) && PythonSupported(world, version)
    requires CleanText(name) && CleanText(other)
    requires SampleProfile(world, version, name).digest < SampleProfile(world, version, other).digest
    ensures BuilderAccepts(world, plan, profiles, observed, receipts)
    ensures forall r :: r in receipts ==> Built(world, plan, r) && r.body.status == Verified
    ensures forall o :: o in observed ==> InventoryHolds(o.body)
    ensures forall p, o :: p in profiles && o in observed && o.body.declaredProfile == p.digest
                           ==> o.body.inventoryDigest in p.body.physical
    ensures |receipts| == 2
  {
    hide CleanText, PythonSupported, ProfileOk, ObservedOk, ReceiptOk, ReceiptFits, Built, InventoryHolds,
      SampleReceipt, PlanOk, BuilderAccepts;
    var first, second := SampleProfile(world, version, name), SampleProfile(world, version, other);
    plan := SamplePlan(world, first, second);
    var seen, seen' := SampleObserved(world, version, first), SampleObserved(world, version, second);
    SamplePlanOk(world, first, second);
    SampleReceiptBuilt(world, version, plan, first, seen, name);
    SampleReceiptBuilt(world, version, plan, second, seen', other);
    SampleObservedDiffer(world, version, first, second);
    var r, r' := SampleReceipt(world, plan, first, seen).value, SampleReceipt(world, plan, second, seen').value;
    TwoAccepted(world, plan, first, second, seen, seen', r, r');
    PipHolds(seen.body);
    PipHolds(seen'.body);
    profiles, observed, receipts := [first, second], [seen, seen'], [r, r'];
  }

  lemma PipHolds(observed: ObservedBody)
    requires observed.inventory == PIP
    ensures InventoryHolds(observed)
  {
  }

  /** Two built receipts for the two profiles of a plan make a report. */
  lemma TwoAccepted(world: World, plan: Plan, first: Profile, second: Profile, seen: Observed, seen': Observed,
                    r: Receipt, r': Receipt)
    requires Injective(world) && PlanOk(world, plan) && plan.body.matrix == [first.digest, second.digest]
    requires ProfileOk(world, first) && ProfileOk(world, second) && first.digest != second.digest
    requires ObservedOk(world, seen) && ObservedOk(world, seen') && seen.digest != seen'.digest
    requires Built(world, plan, r) && r.body.profile == first.digest && r.body.observed == seen.digest
    requires Built(world, plan, r') && r'.body.profile == second.digest && r'.body.observed == seen'.digest
    requires r.body.verifier == first.body.verifier && r'.body.verifier == second.body.verifier
    ensures BuilderAccepts(world, plan, [first, second], [seen, seen'], [r, r'])
  {
    hide Index, ProfileOk, ObservedOk, ReceiptOk, ReceiptFits, Built, PlanOk, Injective;
    var profiles, observed, receipts := [first, second], [seen, seen'], [r, r'];
    assert first in profiles && second in profiles && seen in observed && seen' in observed;
    SampleReceiptFits(world, plan, profiles, observed, r);
    SampleReceiptFits(world, plan, profiles, observed, r');
    ReceiptsDiffer(world, r, r');
    assert r in receipts && r' in receipts;
    assert OneReceiptPerProfile(plan.body.matrix, profiles, receipts);
  }

  lemma SamplePlanOk(world: World, first: Profile, second: Profile)
    requires first.digest < second.digest
    ensures PlanOk(world, SamplePlan(world, first, second))
  {
  }

  lemma SampleObservedDiffer(world: World, version: string, first: Profile, second: Profile)
    requires Injective(world) && first.digest != second.digest
    ensures SampleObserved(world, version, first).digest != SampleObserved(world, version, second).digest
  {
    var seen, seen' := SampleObserved(world, version, first), SampleObserved(world, version, second);
    assert seen.body.declaredProfile != seen'.body.declaredProfile;
    assert world.hash(ObservedDocument(seen.body)) == seen.digest && world.hash(ObservedDocument(seen'.body)) == seen'.digest;
  }

  lemma SampleReceiptFits(world: World, plan: Plan, profiles: seq<Profile>, observed: seq<Observed>, receipt: Receipt)
    requires Injective(world) && Built(world, plan, receipt)
    requires Distinct(profiles) && Distinct(observed)
    requires exists p :: p in profiles && p.digest == receipt.body.profile && ProfileOk(world, p)
                         && p.body.verifier == receipt.body.verifier
    requires exists o :: o in observed && o.digest == receipt.body.observed && ObservedOk(world, o)
    ensures ReceiptOk(world, receipt) && ReceiptFits(world, plan, Index(profiles), Index(observed), receipt.body)
  {
    hide Index, Distinct, ProfileOk, ObservedOk, ReceiptOk, ReceiptFits, Built;
    DistinctIndex(profiles);
    DistinctIndex(observed);
    BuiltReceiptsFit(world, plan, Index(profiles), Index(observed), receipt);
  }

  lemma AcceptedReceiptsDiffer(world: World, plan: Plan, profiles: seq<Profile>, observed: seq<Observed>,
                               receipts: seq<Receipt>)
    requires BuilderAccepts(world, plan, profiles, observed, receipts)
    ensures Distinct(receipts)
  {
  }

  /** The whole chain on one world: two environments, built, reported and verified. */
  lemma SampleReportVerifies() returns (world: World, report: Report)
    ensures Injective(world) && |report.body.receipts| == 2
    ensures forall r :: r in report.body.receipts ==> r.body.status == Verified
    ensures VerifierAccepts(world, report, Some(report.digest))
  {
    var majorMinor: string -> Option<seq<int>> := text => if text == "3.12" then Some([3, 12]) else None;
    world := World(DocumentNumber, majorMinor);
    DocumentNumberInjective(majorMinor);
    assert PythonSupported(world, "3.12") by {
      assert TupleAtMost([3, 11], [3, 12]) && TupleLess([3, 12], [3, 15]);
    }
    hide Injective, BuilderAccepts, VerifierAccepts, Built, InventoryHolds, SortedValues, Index;
    var plan, profiles, observed, receipts := ReportsExist(world, "3.12");
    report := ReportOf(world, plan, profiles, observed, receipts, None);
    BuiltReportsVerify(world, plan, profiles, observed, receipts, None);
    AcceptedReceiptsDiffer(world, plan, profiles, observed, receipts);
    SortingKeepsMembers(receipts);
  }
}
