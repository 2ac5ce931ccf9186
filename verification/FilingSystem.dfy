/**
  Any number of filings and other ledger writers, interleaved one store access at a time, and what
  holds of the ledger and the Cases in every reachable state.
 */
module FilingSystem {
  import opened Prelude
  import opened Filing
  import A = ExternalActions

  datatype Pc =
    | Receipting(step: Step)
    | Recording(step: Step, receiptEvent: Event)
    | Finished(outcome: Result<Filed, Error>)

  /** A filing of one Case object, or another append to the ledger. */
  datatype Worker =
    | Filer(case_: nat, request: Request, pc: Pc)
    | Writer(call: AppendCall, step: Step)
    | Stopped

  datatype CaseState = CaseState(id: string, status: CaseStatus, lastFilingReceipt: Option<ReceiptDigest>)

  datatype State = State(ledger: Ledger, workers: map<nat, Worker>, cases: map<nat, CaseState>)

  predicate Initial(s: State) {
    && s.ledger == []
    && s.workers == map[]
    && forall c :: c in s.cases ==> s.cases[c].status != FiledStatus
  }

  function FirstPc(refusal: Option<Error>): Pc {
    if refusal.Some? then Finished(Err(refusal.value)) else Receipting(Reading)
  }

  /** Only a filing writes CASE_FILED events. */
  predicate Begins(s: State, s': State, w: nat, worker: Worker) {
    && w !in s.workers
    && s' == s.(workers := s.workers[w := worker])
    && match worker
       case Filer(c, request, pc) =>
         && c in s.cases
         && pc == FirstPc(Refusal(request, s.cases[c].id))
       case Writer(call, step) => call.eventType != CASE_FILED && step.Reading?
       case Stopped => false
  }

  function CallOf(worker: Worker): AppendCall
    requires Active(worker)
  {
    if worker.Writer? then worker.call
    else if worker.pc.Receipting? then ReceiptCall(worker.request)
    else FiledCall(worker.request, worker.pc.receiptEvent)
  }

  function StepOf(worker: Worker): Step
    requires Active(worker)
  {
    if worker.Writer? then worker.step else worker.pc.step
  }

  predicate Active(worker: Worker) {
    worker.Writer? || (worker.Filer? && !worker.pc.Finished?)
  }

  function Settle(worker: Worker, move: Move): Worker
    requires Active(worker)
  {
    match move
    case Goto(step) => if worker.Writer? then worker.(step := step) else worker.(pc := worker.pc.(step := step))
    case Failed(error) => if worker.Writer? then Stopped else worker.(pc := Finished(Err(error)))
    case Landed(event) =>
      if worker.Writer? then Stopped
      else if worker.pc.Receipting? then worker.(pc := Recording(Reading, event))
      else worker.(pc := Finished(Ok(Filed(worker.pc.receiptEvent, event))))
  }

  /** The Case is marked in the step that reads the filing back. */
  function CasesAfter(cases: map<nat, CaseState>, worker: Worker): map<nat, CaseState> {
    if worker.Filer? && worker.pc.Finished? && worker.pc.outcome.Ok? && worker.case_ in cases
    then cases[worker.case_ := cases[worker.case_].(status := FiledStatus,
                                                    lastFilingReceipt := Some(ReceiptDigest(worker.request.receipt)))]
    else cases
  }

  predicate Steps(s: State, s': State, w: nat) {
    && w in s.workers
    && Active(s.workers[w])
    && var worker := s.workers[w];
    && var call := CallOf(worker);
    && var (move, added) := AppendStep(call, StepOf(worker), s.ledger);
    && var after := Settle(worker, move);
    && s' == State(Add(s.ledger, call.caseId, added), s.workers[w := after], CasesAfter(s.cases, after))
  }

  ghost predicate Next(s: State, s': State) {
    || (exists w, worker :: Begins(s, s', w, worker))
    || (exists w :: Steps(s, s', w))
  }

  ghost predicate IsRun(run: seq<State>) {
    && |run| > 0
    && Initial(run[0])
    && forall i :: 0 <= i < |run| - 1 ==> Next(run[i], run[i + 1])
  }

  // ---------------------------------------------------------------- what is claimed of a ledger

  /** The event at j is a filing directly behind the receipt it is for. The receipt proves success of
      the same action on the same artifact, and the filing names it as head and as cause. */
  predicate FollowsReceipt(stream: Stream, j: nat)
    requires j < |stream|
  {
    && j > 0
    && var before, filed := stream[j - 1], stream[j];
    && before.eventType == RECEIPT_RECORDED
    && before.envelope.payload.ReceiptRecorded?
    && filed.envelope.payload.CaseFiled?
    && var recorded, filing := before.envelope.payload, filed.envelope.payload;
    && filing.receiptDigest == ReceiptDigest(recorded.receipt)
    && filing.identityDigest == A.DigestOf(recorded.identity) == recorded.receipt.identityDigest
    && filing.artifactId == recorded.identity.artifactId
    && filing.artifactVersion == recorded.identity.artifactVersion
    && recorded.receipt.outcome == A.ConfirmedSuccessOutcome
    && recorded.identity.caseId == filed.caseId
    && filed.previous == Some(EventId(before))
    && filed.envelope.causation == CausedBy(EventId(before))
  }

  predicate WellFiled(stream: Stream) {
    forall j :: 0 <= j < |stream| && stream[j].eventType == CASE_FILED ==> FollowsReceipt(stream, j)
  }

  /** The ledger of the Case holds the filing that the Case records. */
  predicate OnLedger(stream: Stream, case_: CaseState) {
    exists j :: 0 <= j < |stream| && stream[j].eventType == CASE_FILED
                && stream[j].envelope.payload.CaseFiled?
                && case_.lastFilingReceipt == Some(stream[j].envelope.payload.receiptDigest)
  }

  // ---------------------------------------------------------------- invariant

  /** The stream and its backend head as they stood together at some moment of the ledger. */
  ghost predicate WasRead(ledger: Ledger, caseId: string, seen: Stream, head: BackendHead) {
    exists m: nat :: m <= |ledger| && StreamOf(ledger[..m], caseId) == seen && BackendHeadOf(ledger[..m], caseId) == head
  }

  ghost predicate StepOk(call: AppendCall, step: Step, ledger: Ledger) {
    || step.Reading?
    || (&& Decodes(step.seen, call.caseId) && |step.seen| < MAX_CASE_EVENTS && Head(step.seen) == call.expectedHead
        && (step.Appending? ==> WasRead(ledger, call.caseId, step.seen, step.head)))
  }

  ghost predicate WorkerOk(worker: Worker, cases: map<nat, CaseState>, ledger: Ledger) {
    && (Active(worker) ==> StepOk(CallOf(worker), StepOf(worker), ledger))
    && (worker.Writer? ==> worker.call.eventType != CASE_FILED)
    && (worker.Filer? && Active(worker) ==>
          worker.case_ in cases && Refusal(worker.request, cases[worker.case_].id).None?)
    && (worker.Filer? && worker.pc.Recording? ==>
          var r := worker.pc.receiptEvent;
          && r.caseId == worker.request.identity.caseId
          && r.eventType == RECEIPT_RECORDED
          && r.envelope == ReceiptCall(worker.request).envelope)
  }

  predicate StreamOk(stream: Stream, caseId: string) {
    Decodes(stream, caseId) && WellFiled(stream)
  }

  ghost predicate Inv(s: State) {
    && (forall c: string :: StreamOk(StreamOf(s.ledger, c), c))
    && (forall w :: w in s.workers ==> WorkerOk(s.workers[w], s.cases, s.ledger))
    && (forall c :: c in s.cases && s.cases[c].status == FiledStatus ==>
          OnLedger(StreamOf(s.ledger, s.cases[c].id), s.cases[c]))
  }

  lemma ReadStays(ledger: Ledger, longer: Ledger, caseId: string, seen: Stream, head: BackendHead)
    requires WasRead(ledger, caseId, seen, head) && ledger <= longer
    ensures WasRead(longer, caseId, seen, head)
  {
    var m: nat :| m <= |ledger| && StreamOf(ledger[..m], caseId) == seen && BackendHeadOf(ledger[..m], caseId) == head;
    assert longer[..m] == ledger[..m];
  }

  /** An append that finds its head unchanged finds its stream unchanged, whatever other cases
      received since the read. */
  lemma UnchangedHead(ledger: Ledger, caseId: string, seen: Stream, head: BackendHead)
    requires WasRead(ledger, caseId, seen, head) && BackendHeadOf(ledger, caseId) == head
    ensures StreamOf(ledger, caseId) == seen
  {
    var m: nat :| m <= |ledger| && StreamOf(ledger[..m], caseId) == seen && BackendHeadOf(ledger[..m], caseId) == head;
    assert ledger == ledger[..m] + ledger[m..];
    HeadMovesWithStream(ledger[..m], ledger[m..], caseId);
  }

  /** The event a well-placed worker appends keeps its stream legal and its filings well placed. */
  lemma AppendKeepsStream(worker: Worker, cases: map<nat, CaseState>, ledger: Ledger)
    requires Active(worker) && WorkerOk(worker, cases, ledger)
    requires StreamOk(StreamOf(ledger, CallOf(worker).caseId), CallOf(worker).caseId)
    ensures StreamOk(StreamOf(ledger, CallOf(worker).caseId) + AppendStep(CallOf(worker), StepOf(worker), ledger).1,
                     CallOf(worker).caseId)
  {
    hide StreamOf, BackendHeadOf, StreamOk, Decodes, Refusal, Linked, ReceiptCall, FiledCall;
    var call, step := CallOf(worker), StepOf(worker);
    var stream := StreamOf(ledger, call.caseId);
    if step.Appending? && BackendHeadOf(ledger, call.caseId) == step.head {
      UnchangedHead(ledger, call.caseId, step.seen, step.head);
      EventKeepsStream(worker, cases, ledger, stream);
    } else {
      assert stream + [] == stream;
    }
  }

  lemma EventKeepsStream(worker: Worker, cases: map<nat, CaseState>, ledger: Ledger, seen: Stream)
    requires Active(worker) && WorkerOk(worker, cases, ledger)
    requires StepOf(worker).Appending? && StepOf(worker).seen == seen
    requires StreamOk(seen, CallOf(worker).caseId)
    ensures StreamOk(seen + [EventFor(CallOf(worker), seen)], CallOf(worker).caseId)
  {
    hide WasRead;
    var call := CallOf(worker);
    var event := EventFor(call, seen);
    var stream := seen + [event];
    ChainGrows(call, seen);
    hide IsChain;
    forall j | 0 <= j < |stream| && stream[j].eventType == CASE_FILED ensures FollowsReceipt(stream, j) {
      if j < |seen| {
        assert FollowsReceipt(seen, j);
      } else {
        assert worker.Filer? && worker.pc.Recording?;
        assert Head(seen) == Some(EventId(worker.pc.receiptEvent));
        assert stream[j - 1] == worker.pc.receiptEvent;
      }
    }
  }

  lemma MoveKeepsWorker(worker: Worker, cases: map<nat, CaseState>, ledger: Ledger)
    requires Active(worker) && WorkerOk(worker, cases, ledger)
    ensures WorkerOk(Settle(worker, AppendStep(CallOf(worker), StepOf(worker), ledger).0), cases, ledger)
  {
    hide Decodes, Refusal, StreamOf, BackendHeadOf, WasRead;
    var call, step := CallOf(worker), StepOf(worker);
    if step.Reading? {
      JustRead(ledger, call.caseId);
    }
  }

  lemma JustRead(ledger: Ledger, caseId: string)
    ensures WasRead(ledger, caseId, StreamOf(ledger, caseId), BackendHeadOf(ledger, caseId))
  {
    assert ledger[..|ledger|] == ledger;
  }

  lemma WorkerStays(worker: Worker, cases: map<nat, CaseState>, cases': map<nat, CaseState>, ledger: Ledger, longer: Ledger)
    requires WorkerOk(worker, cases, ledger) && ledger <= longer
    requires cases'.Keys == cases.Keys && forall c :: c in cases ==> cases'[c].id == cases[c].id
    ensures WorkerOk(worker, cases', longer)
  {
    hide Decodes, Refusal, WasRead, ReceiptCall, FiledCall;
    if Active(worker) && StepOf(worker).Appending? {
      var step := StepOf(worker);
      ReadStays(ledger, longer, CallOf(worker).caseId, step.seen, step.head);
    }
  }

  /** A successful filing has just seen its event at the end of its stream. */
  lemma FiledEventIsThere(worker: Worker, cases: map<nat, CaseState>, ledger: Ledger)
    requires Active(worker) && worker.Filer? && WorkerOk(worker, cases, ledger)
    requires worker.pc.Recording? && AppendStep(CallOf(worker), StepOf(worker), ledger).0.Landed?
    ensures CallOf(worker).caseId == cases[worker.case_].id
    ensures OnLedger(StreamOf(ledger, CallOf(worker).caseId),
                     cases[worker.case_].(status := FiledStatus,
                                          lastFilingReceipt := Some(ReceiptDigest(worker.request.receipt))))
  {
    hide Decodes, StreamOf, BackendHeadOf, WasRead;
    var stream := StreamOf(ledger, CallOf(worker).caseId);
    var last := stream[|stream| - 1];
    assert last.eventType == CASE_FILED && last.envelope.payload.CaseFiled?;
  }

  lemma OnLedgerStays(stream: Stream, longer: Stream, case_: CaseState)
    requires OnLedger(stream, case_) && stream <= longer
    ensures OnLedger(longer, case_)
  {
    var j :| 0 <= j < |stream| && stream[j].eventType == CASE_FILED && stream[j].envelope.payload.CaseFiled?
             && case_.lastFilingReceipt == Some(stream[j].envelope.payload.receiptDigest);
    assert longer[j] == stream[j];
  }

  lemma StepKeepsStreams(s: State, s': State, w: nat)
    requires Inv(s) && Steps(s, s', w)
    ensures s.ledger <= s'.ledger
    ensures forall c: string :: StreamOf(s.ledger, c) <= StreamOf(s'.ledger, c)
    ensures forall c: string :: StreamOk(StreamOf(s'.ledger, c), c)
  {
    hide StreamOk, WorkerOk, Decodes, StreamOf, AppendStep;
    var worker := s.workers[w];
    var call := CallOf(worker);
    var added := AppendStep(call, StepOf(worker), s.ledger).1;
    assert WorkerOk(worker, s.cases, s.ledger);
    AppendKeepsStream(worker, s.cases, s.ledger);
    forall c: string
      ensures StreamOf(s.ledger, c) <= StreamOf(s'.ledger, c) && StreamOk(StreamOf(s'.ledger, c), c)
    {
      AddExtends(s.ledger, call.caseId, added, c);
      assert StreamOf(s.ledger, c) + [] == StreamOf(s.ledger, c);
    }
  }

  lemma StepKeepsCases(s: State, s': State, w: nat)
    requires Inv(s) && Steps(s, s', w)
    ensures s'.cases.Keys == s.cases.Keys && forall c :: c in s.cases ==> s'.cases[c].id == s.cases[c].id
    ensures forall c :: c in s'.cases && s'.cases[c].status == FiledStatus ==>
              OnLedger(StreamOf(s'.ledger, s'.cases[c].id), s'.cases[c])
  {
    StepKeepsStreams(s, s', w);
    hide StreamOk, Decodes, Refusal, OnLedger, AppendStep, StreamOf, StepOk;
    var worker := s.workers[w];
    assert WorkerOk(worker, s.cases, s.ledger);
    var call := CallOf(worker);
    var move := AppendStep(call, StepOf(worker), s.ledger).0;
    forall c | c in s'.cases && s'.cases[c].status == FiledStatus
      ensures OnLedger(StreamOf(s'.ledger, s'.cases[c].id), s'.cases[c])
    {
      if s'.cases[c] == s.cases[c] {
        OnLedgerStays(StreamOf(s.ledger, s.cases[c].id), StreamOf(s'.ledger, s.cases[c].id), s.cases[c]);
      } else {
        assert worker.Filer? && worker.pc.Recording? && move.Landed? && worker.case_ == c;
        FiledEventIsThere(worker, s.cases, s.ledger);
        OnLedgerStays(StreamOf(s.ledger, call.caseId), StreamOf(s'.ledger, call.caseId), s'.cases[c]);
      }
    }
  }

  lemma StepKeepsInv(s: State, s': State, w: nat)
    requires Inv(s) && Steps(s, s', w)
    ensures Inv(s')
  {
    StepKeepsStreams(s, s', w);
    StepKeepsCases(s, s', w);
    hide StreamOk, OnLedger, AppendStep, WorkerOk, StreamOf, Add, CasesAfter;
    var worker := s.workers[w];
    assert WorkerOk(worker, s.cases, s.ledger);
    MoveKeepsWorker(worker, s.cases, s.ledger);
    forall v | v in s'.workers ensures WorkerOk(s'.workers[v], s'.cases, s'.ledger) {
      if v != w {
        assert WorkerOk(s.workers[v], s.cases, s.ledger);
      }
      WorkerStays(s'.workers[v], s.cases, s'.cases, s.ledger, s'.ledger);
    }
  }

  lemma BeginKeepsInv(s: State, s': State, w: nat, worker: Worker)
    requires Inv(s) && Begins(s, s', w, worker)
    ensures Inv(s')
  {
    hide StreamOk, Decodes, OnLedger;
    assert WorkerOk(worker, s.cases, s.ledger) by {
      if worker.Filer? {
        var refusal := Refusal(worker.request, s.cases[worker.case_].id);
      }
    }
  }

  lemma NextKeepsInv(s: State, s': State)
    requires Inv(s) && Next(s, s')
    ensures Inv(s')
  {
    hide Inv, Steps, Begins;
    if w, worker :| Begins(s, s', w, worker) {
      BeginKeepsInv(s, s', w, worker);
    } else {
      var w :| Steps(s, s', w);
      StepKeepsInv(s, s', w);
    }
  }

  lemma {:induction false} RunKeepsInv(run: seq<State>, k: nat)
    requires IsRun(run) && k < |run|
    ensures Inv(run[k])
  {
    hide Inv, Steps, Begins;
    if k == 0 {
      InitialInv(run[0]);
    } else {
      RunKeepsInv(run, k - 1);
      assert Next(run[k - 1], run[k - 1 + 1]);
      NextKeepsInv(run[k - 1], run[k]);
    }
  }

  lemma InitialInv(s: State)
    requires Initial(s)
    ensures Inv(s)
  {
  }

  // ---------------------------------------------------------------- approvals behind filings

  /** The event at j files under the approval of one of the workers. The receipt event before it names that
      approval, and the approval was given for this very action and in force when the action took place. */
  predicate FiledUnder(request: Request, stream: Stream, j: nat)
    requires 0 < j < |stream|
  {
    var approval, identity, receipt := request.approval, request.identity, request.receipt;
    var at := stream[j].envelope.occurredAt;
    && stream[j - 1].envelope.payload == ReceiptRecorded(identity, receipt, approval.approvalId)
    && stream[j].envelope.actorRef == stream[j - 1].envelope.actorRef == approval.actorRef
    && stream[j].envelope.authorityRef == stream[j - 1].envelope.authorityRef == approval.authorityBasis
    && at == stream[j - 1].envelope.occurredAt
    && (receipt.externalTimestamp == Some(at) || (receipt.externalTimestamp.None? && receipt.recordedAt == at))
    && (approval.caseId, approval.artifactId, approval.artifactVersion, approval.artifactDigest, approval.actionType)
       == (identity.caseId, identity.artifactId, identity.artifactVersion, identity.artifactDigest, identity.actionType)
    && approval.grantedAt <= at
    && !(approval.revokedAt.Some? && approval.revokedAt.value <= at)
    && !(approval.expiresAt.Some? && approval.expiresAt.value < at)
  }

  ghost predicate Sponsored(workers: map<nat, Worker>, stream: Stream, j: nat) {
    0 < j < |stream| && exists w :: w in workers && workers[w].Filer? && FiledUnder(workers[w].request, stream, j)
  }

  ghost predicate AllSponsored(workers: map<nat, Worker>, stream: Stream) {
    forall j :: 0 <= j < |stream| && stream[j].eventType == CASE_FILED ==> Sponsored(workers, stream, j)
  }

  ghost predicate SponsorInv(s: State) {
    forall c: string :: AllSponsored(s.workers, StreamOf(s.ledger, c))
  }

  /** Workers keep their requests. */
  ghost predicate Keeps(workers: map<nat, Worker>, later: map<nat, Worker>) {
    forall w :: w in workers && workers[w].Filer? ==>
      w in later && later[w].Filer? && later[w].request == workers[w].request
  }

  lemma SponsorsStay(workers: map<nat, Worker>, later: map<nat, Worker>, stream: Stream, longer: Stream, j: nat)
    requires Sponsored(workers, stream, j) && Keeps(workers, later) && stream <= longer
    ensures Sponsored(later, longer, j)
  {
    var w :| w in workers && workers[w].Filer? && FiledUnder(workers[w].request, stream, j);
    assert longer[j] == stream[j] && longer[j - 1] == stream[j - 1];
    assert FiledUnder(later[w].request, longer, j);
  }

  /** The filing that a worker lands is under its own approval. */
  lemma LandedFilingIsSponsored(worker: Worker, cases: map<nat, CaseState>, ledger: Ledger, seen: Stream)
    requires Active(worker) && WorkerOk(worker, cases, ledger)
    requires StepOf(worker).Appending? && StepOf(worker).seen == seen
    requires CallOf(worker).eventType == CASE_FILED
    ensures worker.Filer? && seen != [] && FiledUnder(worker.request, seen + [EventFor(CallOf(worker), seen)], |seen|)
  {
    hide WasRead, Decodes;
    assert worker.Filer? && worker.pc.Recording?;
    assert Head(seen) == Some(EventId(worker.pc.receiptEvent));
  }

  lemma StepKeepsSponsors(s: State, s': State, w: nat)
    requires Inv(s) && SponsorInv(s) && Steps(s, s', w)
    ensures SponsorInv(s')
  {
    hide StreamOk, WorkerOk, Decodes, StreamOf, FiledUnder, Sponsored, BackendHeadOf, EventFor;
    var worker := s.workers[w];
    var call, step := CallOf(worker), StepOf(worker);
    var added := AppendStep(call, step, s.ledger).1;
    assert WorkerOk(worker, s.cases, s.ledger);
    assert Keeps(s.workers, s'.workers);
    forall c: string ensures AllSponsored(s'.workers, StreamOf(s'.ledger, c)) {
      var stream, longer := StreamOf(s.ledger, c), StreamOf(s'.ledger, c);
      AddExtends(s.ledger, call.caseId, added, c);
      assert AllSponsored(s.workers, stream);
      assert stream + [] == stream;
      forall j | 0 <= j < |longer| && longer[j].eventType == CASE_FILED ensures Sponsored(s'.workers, longer, j) {
        if j < |stream| {
          assert longer[j] == stream[j];
          SponsorsStay(s.workers, s'.workers, stream, longer, j);
        } else {
          LandedHere(worker, s.cases, s.ledger, stream);
          assert longer == stream + [EventFor(call, step.seen)];
          NowSponsored(s'.workers, w, longer, j);
        }
      }
    }
  }

  /** What a step adds is the event of a landed append, on the stream that its worker has seen. */
  lemma LandedHere(worker: Worker, cases: map<nat, CaseState>, ledger: Ledger, stream: Stream)
    requires Active(worker) && WorkerOk(worker, cases, ledger)
    requires stream == StreamOf(ledger, CallOf(worker).caseId)
    requires var added := AppendStep(CallOf(worker), StepOf(worker), ledger).1;
             added != [] && added[0].eventType == CASE_FILED
    ensures StepOf(worker).Appending? && StepOf(worker).seen == stream
    ensures AppendStep(CallOf(worker), StepOf(worker), ledger).1 == [EventFor(CallOf(worker), stream)]
    ensures worker.Filer? && stream != [] && FiledUnder(worker.request, stream + [EventFor(CallOf(worker), stream)], |stream|)
  {
    hide StreamOf, BackendHeadOf, Decodes, Refusal, FiledUnder;
    var step := StepOf(worker);
    UnchangedHead(ledger, CallOf(worker).caseId, step.seen, step.head);
    LandedFilingIsSponsored(worker, cases, ledger, stream);
  }

  lemma NowSponsored(workers: map<nat, Worker>, w: nat, stream: Stream, j: nat)
    requires w in workers && workers[w].Filer? && 0 < j < |stream| && FiledUnder(workers[w].request, stream, j)
    ensures Sponsored(workers, stream, j)
  {
  }

  lemma BeginKeepsSponsors(s: State, s': State, w: nat, worker: Worker)
    requires SponsorInv(s) && Begins(s, s', w, worker)
    ensures SponsorInv(s')
  {
    hide StreamOf, Sponsored;
    assert Keeps(s.workers, s'.workers);
    forall c: string ensures AllSponsored(s'.workers, StreamOf(s'.ledger, c)) {
      var stream := StreamOf(s.ledger, c);
      assert AllSponsored(s.workers, stream);
      forall j | 0 <= j < |stream| && stream[j].eventType == CASE_FILED ensures Sponsored(s'.workers, stream, j) {
        SponsorsStay(s.workers, s'.workers, stream, stream, j);
      }
    }
  }

  lemma {:induction false} RunKeepsSponsors(run: seq<State>, k: nat)
    requires IsRun(run) && k < |run|
    ensures SponsorInv(run[k])
  {
    hide Inv, Steps, Begins, Sponsored;
    if k > 0 {
      RunKeepsSponsors(run, k - 1);
      RunKeepsInv(run, k - 1);
      var s, s' := run[k - 1], run[k];
      assert Next(s, run[k - 1 + 1]);
      if w, worker :| Begins(s, s', w, worker) {
        BeginKeepsSponsors(s, s', w, worker);
      } else {
        var w :| Steps(s, s', w);
        StepKeepsSponsors(s, s', w);
      }
    }
  }

  // ---------------------------------------------------------------- theorems

  /** In every interleaving, every CASE_FILED event on the ledger stands directly behind the recorded
      receipt of the same identity. */
  lemma FilingFollowsItsReceipt(run: seq<State>, k: nat, caseId: string, j: nat)
    requires IsRun(run) && k < |run|
    requires j < |StreamOf(run[k].ledger, caseId)|
    requires StreamOf(run[k].ledger, caseId)[j].eventType == CASE_FILED
    ensures FollowsReceipt(StreamOf(run[k].ledger, caseId), j)
  {
    RunKeepsInv(run, k);
    assert StreamOk(StreamOf(run[k].ledger, caseId), caseId);
  }

  /** In every interleaving, every CASE_FILED event was filed by a worker whose approval, named by the receipt
      event before it, was given for the recorded action and in force at the recorded time of the action. */
  lemma FilingsAreApproved(run: seq<State>, k: nat, caseId: string, j: nat)
    requires IsRun(run) && k < |run|
    requires j < |StreamOf(run[k].ledger, caseId)|
    requires StreamOf(run[k].ledger, caseId)[j].eventType == CASE_FILED
    ensures j > 0
    ensures exists w :: w in run[k].workers && run[k].workers[w].Filer?
                        && FiledUnder(run[k].workers[w].request, StreamOf(run[k].ledger, caseId), j)
  {
    hide StreamOf, FiledUnder;
    RunKeepsSponsors(run, k);
    assert AllSponsored(run[k].workers, StreamOf(run[k].ledger, caseId));
    assert Sponsored(run[k].workers, StreamOf(run[k].ledger, caseId), j);
  }

  /** No interleaving of ledger writers makes a case's stream unreadable. */
  lemma StreamsStayReadable(run: seq<State>, k: nat, caseId: string)
    requires IsRun(run) && k < |run|
    ensures Decodes(StreamOf(run[k].ledger, caseId), caseId)
  {
    RunKeepsInv(run, k);
    assert StreamOk(StreamOf(run[k].ledger, caseId), caseId);
  }

  /** A Case that is FILED has its filing, and the receipt before it, on the ledger. */
  lemma FiledCaseIsOnLedger(run: seq<State>, k: nat, c: nat)
    requires IsRun(run) && k < |run|
    requires c in run[k].cases && run[k].cases[c].status == FiledStatus
    ensures var stream := StreamOf(run[k].ledger, run[k].cases[c].id);
            exists j :: 0 < j < |stream| && stream[j].eventType == CASE_FILED && FollowsReceipt(stream, j)
                        && run[k].cases[c].lastFilingReceipt == Some(ReceiptDigest(stream[j - 1].envelope.payload.receipt))
  {
    RunKeepsInv(run, k);
    var id := run[k].cases[c].id;
    var stream := StreamOf(run[k].ledger, id);
    assert StreamOk(stream, id) && OnLedger(stream, run[k].cases[c]);
    var j :| 0 <= j < |stream| && stream[j].eventType == CASE_FILED && stream[j].envelope.payload.CaseFiled?
             && run[k].cases[c].lastFilingReceipt == Some(stream[j].envelope.payload.receiptDigest);
    assert FollowsReceipt(stream, j);
  }

  /** A Case changes in no other step than the one in which a filing of it returns successfully. A
      filing that fails at any point, the second append included, leaves every Case as it was. */
  lemma OnlySuccessChangesACase(s: State, s': State, c: nat)
    requires Next(s, s') && c in s.cases
    requires c !in s'.cases || s'.cases[c] != s.cases[c]
    ensures exists w :: && w in s.workers && s.workers[w].Filer? && s.workers[w].case_ == c && s.workers[w].pc.Recording?
                        && w in s'.workers && s'.workers[w].Filer? && s'.workers[w].pc.Finished?
                        && s'.workers[w].pc.outcome.Ok?
                        && s'.cases[c].lastFilingReceipt == Some(ReceiptDigest(s.workers[w].request.receipt))
  {
    hide AppendStep, Refusal, Add;
    if w :| Steps(s, s', w) {
      assert s.workers[w].Filer? && s'.workers[w].pc.Finished?;
    }
  }
}
