/**
  Recording an external receipt and filing the Case: two appends to the canonical case ledger, each
  of them a read of the case's stream, a compare-and-append and a second read, with other writers on
  the same ledger in between.

  Content addresses are free constructors. The ledger is a provenance log whose streams are the cases,
  and an append names the backend head of its stream that its first read returned.
 */
module Filing {
  import opened Prelude
  import A = ExternalActions
  import P = ProvenanceLog

  datatype ReceiptDigest = ReceiptDigest(receipt: A.Receipt)

  datatype Payload =
    | ReceiptRecorded(identity: A.Identity, receipt: A.Receipt, approvalId: string)
    | CaseFiled(receiptDigest: ReceiptDigest, identityDigest: A.IdentityDigest, artifactId: string, artifactVersion: string)
    | OtherPayload(text: string)

  datatype Causation = Text(text: string) | CausedBy(event: EventId)

  datatype Envelope = Envelope(
    payload: Payload,
    policyVersion: string,
    actorRef: string,
    authorityRef: string,
    correlationId: string,
    causation: Causation,
    occurredAt: int)

  /** One event of a case's chain; its address covers all of it. */
  datatype Event = Event(
    caseId: string,
    sequence: nat,
    eventType: string,
    runtime: string,
    envelope: Envelope,
    previous: Option<EventId>)

  datatype EventId = EventId(event: Event)

  const RECEIPT_RECORDED := "EXTERNAL_ACTION_RECEIPT_RECORDED"
  const CASE_FILED := "CASE_FILED"
  const MAX_CASE_EVENTS: nat := 10_000

  type Stream = seq<Event>

  /** The log in which every case has a stream. */
  type Ledger = P.Log<string, Event>

  type BackendHead = P.LogDigest<string, Event>

  function StreamOf(ledger: Ledger, caseId: string): Stream {
    P.Stream(ledger, caseId)
  }

  function BackendHeadOf(ledger: Ledger, caseId: string): BackendHead {
    P.HeadOf(ledger, caseId)
  }

  function Head(stream: Stream): Option<EventId> {
    if stream == [] then None else Some(EventId(stream[|stream| - 1]))
  }

  /** Events of one case, numbered, each naming the event before it. */
  predicate IsChain(stream: Stream, caseId: string) {
    forall i :: 0 <= i < |stream| ==> Linked(stream, i, caseId)
  }

  predicate Linked(stream: Stream, i: nat, caseId: string)
    requires i < |stream|
  {
    && stream[i].caseId == caseId
    && stream[i].sequence == i
    && stream[i].previous == Head(stream[..i])
  }

  /** A stream that a snapshot can decode. */
  predicate Decodes(stream: Stream, caseId: string) {
    |stream| <= MAX_CASE_EVENTS && IsChain(stream, caseId)
  }

  /** An expected head pins a whole history: readable streams with the same head are the same stream, of the
      same case. */
  lemma {:induction false} HeadPinsHistory(a: Stream, b: Stream, caseA: string, caseB: string)
    requires IsChain(a, caseA) && IsChain(b, caseB) && Head(a) == Head(b)
    ensures a == b && (a != [] ==> caseA == caseB)
    decreases |a|
  {
    if a != [] {
      var m, n := |a| - 1, |b| - 1;
      assert Linked(a, m, caseA) && Linked(b, n, caseB);
      FrontIsChain(a, caseA);
      FrontIsChain(b, caseB);
      HeadPinsHistory(a[..m], b[..n], caseA, caseB);
      assert a == a[..m] + [a[m]] && b == b[..n] + [b[n]];
    }
  }

  lemma FrontIsChain(stream: Stream, caseId: string)
    requires IsChain(stream, caseId) && stream != []
    ensures IsChain(stream[..|stream| - 1], caseId)
  {
    var front := stream[..|stream| - 1];
    forall i | 0 <= i < |front| ensures Linked(front, i, caseId) {
      assert Linked(stream, i, caseId) && front[..i] == stream[..i];
    }
  }

  datatype Error =
    | CaseMismatch
    | NotAuthorized
    | ReceiptIdentityMismatch
    | ReceiptNotSuccess
    | Undecodable
    | HeadMismatch
    | LimitExceeded
    | LostBackendHead
    | VerificationMismatch

  // ---------------------------------------------------------------- one append to the ledger

  datatype AppendCall = AppendCall(
    caseId: string,
    eventType: string,
    runtime: string,
    envelope: Envelope,
    expectedHead: Option<EventId>)

  /** Where an append stands between its three store accesses. */
  datatype Step = Reading | Appending(seen: Stream, head: BackendHead) | Verifying(seen: Stream)

  datatype Move = Goto(step: Step) | Failed(error: Error) | Landed(event: Event)

  function EventFor(call: AppendCall, seen: Stream): Event {
    Event(call.caseId, |seen|, call.eventType, call.runtime, call.envelope, Head(seen))
  }

  /** One store access: what the call does next, and the events it adds to the stream of its case. */
  function AppendStep(call: AppendCall, step: Step, ledger: Ledger): (result: (Move, seq<Event>))
    ensures |result.1| <= 1
  {
    var stream := StreamOf(ledger, call.caseId);
    match step
    case Reading =>
      if !Decodes(stream, call.caseId) then (Failed(Undecodable), [])
      else if Head(stream) != call.expectedHead then (Failed(HeadMismatch), [])
      else if |stream| >= MAX_CASE_EVENTS then (Failed(LimitExceeded), [])
      else (Goto(Appending(stream, BackendHeadOf(ledger, call.caseId))), [])
    case Appending(seen, head) =>
      if BackendHeadOf(ledger, call.caseId) != head then (Failed(LostBackendHead), [])
      else (Goto(Verifying(seen)), [EventFor(call, seen)])
    case Verifying(seen) =>
      if !Decodes(stream, call.caseId) then (Failed(Undecodable), [])
      else if |stream| != |seen| + 1 || stream[|stream| - 1] != EventFor(call, seen) then (Failed(VerificationMismatch), [])
      else (Landed(EventFor(call, seen)), [])
  }

  function Add(ledger: Ledger, caseId: string, added: seq<Event>): Ledger {
    if added == [] then ledger else ledger + [P.Entry(caseId, added[0])]
  }

  lemma AddExtends(ledger: Ledger, caseId: string, added: seq<Event>, other: string)
    requires |added| <= 1
    ensures StreamOf(Add(ledger, caseId, added), other)
         == StreamOf(ledger, other) + (if other == caseId then added else [])
  {
    if added != [] {
      P.StreamSnoc(ledger, P.Entry(caseId, added[0]), other);
    }
  }

  /** The head of a stream is unchanged exactly when the stream is, whatever other cases received. */
  lemma HeadMovesWithStream(ledger: Ledger, more: Ledger, caseId: string)
    ensures BackendHeadOf(ledger + more, caseId) == BackendHeadOf(ledger, caseId) <==> StreamOf(more, caseId) == []
    ensures StreamOf(ledger + more, caseId) == StreamOf(ledger, caseId) + StreamOf(more, caseId)
  {
    P.StreamConcat(ledger, more, caseId);
    assert (ledger + more)[..|ledger|] == ledger;
    if StreamOf(more, caseId) == [] {
      P.StreamPinsHead(ledger + more, |ledger|, caseId);
    }
    if BackendHeadOf(ledger + more, caseId) == BackendHeadOf(ledger, caseId) {
      P.HeadPinsStream(ledger + more, |ledger|, caseId);
    }
  }

  // ---------------------------------------------------------------- a filing

  datatype Approval = Approval(
    approvalId: string,
    actorRef: string,
    authorityBasis: string,
    caseId: string,
    artifactId: string,
    artifactVersion: string,
    artifactDigest: string,
    actionType: string,
    grantedAt: int,
    expiresAt: Option<int>,
    revokedAt: Option<int>)

  predicate Authorizes(approval: Approval, identity: A.Identity, at: int) {
    && approval.grantedAt <= at
    && (approval.revokedAt.Some? ==> at < approval.revokedAt.value)
    && (approval.expiresAt.Some? ==> at <= approval.expiresAt.value)
    && approval.caseId == identity.caseId
    && approval.artifactId == identity.artifactId
    && approval.artifactVersion == identity.artifactVersion
    && approval.artifactDigest == identity.artifactDigest
    && approval.actionType == identity.actionType
  }

  datatype Request = Request(
    identity: A.Identity,
    receipt: A.Receipt,
    approval: Approval,
    runtime: string,
    expectedHead: Option<EventId>,
    policyVersion: string,
    correlationId: string,
    causationId: string)

  function ActionTime(receipt: A.Receipt): int {
    if receipt.externalTimestamp.Some? then receipt.externalTimestamp.value else receipt.recordedAt
  }

  /** None where a filing of this case may begin. */
  function Refusal(request: Request, caseId: string): Option<Error> {
    if caseId != request.identity.caseId then Some(CaseMismatch)
    else if !Authorizes(request.approval, request.identity, ActionTime(request.receipt)) then Some(NotAuthorized)
    else if request.receipt.identityDigest != A.DigestOf(request.identity) then Some(ReceiptIdentityMismatch)
    else if request.receipt.outcome != A.ConfirmedSuccessOutcome then Some(ReceiptNotSuccess)
    else None
  }

  function ReceiptCall(request: Request): AppendCall {
    AppendCall(request.identity.caseId, RECEIPT_RECORDED, request.runtime,
               Envelope(ReceiptRecorded(request.identity, request.receipt, request.approval.approvalId),
                        request.policyVersion, request.approval.actorRef, request.approval.authorityBasis,
                        request.correlationId, Text(request.causationId), ActionTime(request.receipt)),
               request.expectedHead)
  }

  function FiledCall(request: Request, receiptEvent: Event): AppendCall {
    AppendCall(request.identity.caseId, CASE_FILED, request.runtime,
               Envelope(CaseFiled(ReceiptDigest(request.receipt), A.DigestOf(request.identity),
                                  request.identity.artifactId, request.identity.artifactVersion),
                        request.policyVersion, request.approval.actorRef, request.approval.authorityBasis,
                        request.correlationId, CausedBy(EventId(receiptEvent)), ActionTime(request.receipt)),
               Some(EventId(receiptEvent)))
  }

  datatype Filed = Filed(receiptEvent: Event, filedEvent: Event)

  // ---------------------------------------------------------------- the program, under a schedule of other writers

  /** What other writers append to the ledger before each store access. */
  type Schedule = seq<Ledger>

  function Burst(schedule: Schedule): Ledger {
    if schedule == [] then [] else schedule[0]
  }

  function Later(schedule: Schedule): Schedule {
    if schedule == [] then [] else schedule[1..]
  }

  /** An append from one of its accesses to its end. */
  function AppendRun(call: AppendCall, step: Step, ledger: Ledger, schedule: Schedule)
    : (Result<Event, Error>, Ledger, Schedule)
    decreases if step.Reading? then 2 else if step.Appending? then 1 else 0
  {
    var now := ledger + Burst(schedule);
    var (move, added) := AppendStep(call, step, now);
    var after := Add(now, call.caseId, added);
    match move
    case Goto(next) => AppendRun(call, next, after, Later(schedule))
    case Failed(error) => (Err(error), after, Later(schedule))
    case Landed(event) => (Ok(event), after, Later(schedule))
  }

  function FilingRun(request: Request, caseId: string, ledger: Ledger, schedule: Schedule)
    : (Result<Filed, Error>, Ledger, Schedule)
  {
    var refusal := Refusal(request, caseId);
    if refusal.Some? then (Err(refusal.value), ledger, schedule)
    else
      var (first, mid, rest) := AppendRun(ReceiptCall(request), Reading, ledger, schedule);
      if first.Err? then (Err(first.error), mid, rest)
      else
        var (second, after, end) := AppendRun(FiledCall(request, first.value), Reading, mid, rest);
        if second.Err? then (Err(second.error), after, end)
        else (Ok(Filed(first.value, second.value)), after, end)
  }

  /** The events that an append itself adds to the ledger, from one of its accesses to its end. */
  function AppendWrites(call: AppendCall, step: Step, ledger: Ledger, schedule: Schedule): seq<Event>
    decreases if step.Reading? then 2 else if step.Appending? then 1 else 0
  {
    var now := ledger + Burst(schedule);
    var (move, added) := AppendStep(call, step, now);
    match move
    case Goto(next) => added + AppendWrites(call, next, Add(now, call.caseId, added), Later(schedule))
    case Failed(_) => added
    case Landed(_) => added
  }

  /** The events that a filing itself adds to the ledger. */
  function FilingWrites(request: Request, caseId: string, ledger: Ledger, schedule: Schedule): seq<Event> {
    if Refusal(request, caseId).Some? then []
    else
      var (first, mid, rest) := AppendRun(ReceiptCall(request), Reading, ledger, schedule);
      AppendWrites(ReceiptCall(request), Reading, ledger, schedule)
      + if first.Err? then [] else AppendWrites(FiledCall(request, first.value), Reading, mid, rest)
  }

  datatype CaseStatus = FiledStatus | OtherStatus(name: string)

  class Case {
    const id: string
    var status: CaseStatus
    var lastFilingReceipt: Option<ReceiptDigest>

    constructor (id: string, status: CaseStatus)
      ensures this.id == id && this.status == status && lastFilingReceipt == None
    {
      this.id := id;
      this.status := status;
      lastFilingReceipt := None;
    }
  }

  class CanonicalCaseLedger {
    var log: Ledger
    var schedule: Schedule

    constructor (schedule: Schedule)
      ensures log == [] && this.schedule == schedule
    {
      log := [];
      this.schedule := schedule;
    }

    /** Other writers act before this writer's next store access. */
    method Interleave()
      modifies this
      ensures log == old(log) + Burst(old(schedule))
      ensures schedule == Later(old(schedule))
    {
      log := log + Burst(schedule);
      schedule := Later(schedule);
    }

    /** The decoded events of a case and the backend head of its stream. */
    method Snapshot(caseId: string) returns (snapshot: Option<(Stream, BackendHead)>)
      modifies this
      ensures log == old(log) + Burst(old(schedule)) && schedule == Later(old(schedule))
      ensures snapshot == if Decodes(StreamOf(log, caseId), caseId)
                          then Some((StreamOf(log, caseId), BackendHeadOf(log, caseId))) else None
    {
      Interleave();
      var stream := StreamOf(log, caseId);
      snapshot := if Decodes(stream, caseId) then Some((stream, BackendHeadOf(log, caseId))) else None;
    }

    /** The store's append lands exactly when the stream's head is the expected one. */
    method Append(entry: P.LogEntry<string, Event>, expected: BackendHead) returns (landed: bool)
      modifies this
      ensures schedule == Later(old(schedule))
      ensures var now := old(log) + Burst(old(schedule));
              var appended := P.CompareAndAppend(now, entry, expected);
              landed == appended.Some? && log == if appended.Some? then appended.value else now
    {
      Interleave();
      var appended := P.CompareAndAppend(log, entry, expected);
      if appended.None? {
        return false;
      }
      log := appended.value;
      return true;
    }

    method AppendEvent(call: AppendCall) returns (result: Result<Event, Error>)
      modifies this
      ensures (result, log, schedule) == AppendRun(call, Reading, old(log), old(schedule))
    {
      hide Decodes;
      var snapshot := Snapshot(call.caseId);
      if snapshot.None? {
        return Err(Undecodable);
      }
      var (events, backendHead) := snapshot.value;
      var actualHead := Head(events);
      if actualHead != call.expectedHead {
        return Err(HeadMismatch);
      }
      if |events| >= MAX_CASE_EVENTS {
        return Err(LimitExceeded);
      }
      var event := EventFor(call, events);
      var landed := Append(P.Entry(call.caseId, event), backendHead);
      if !landed {
        return Err(LostBackendHead);
      }
      var verified := Snapshot(call.caseId);
      if verified.None? {
        return Err(Undecodable);
      }
      var found := verified.value.0;
      if |found| != |events| + 1 || found[|found| - 1] != event {
        return Err(VerificationMismatch);
      }
      result := Ok(event);
    }
  }

  /** Records the receipt, then the filing, then marks the Case. The Case is touched only after both
      appends have been read back. */
  method RecordReceiptAndFileCase(case_: Case, ledger: CanonicalCaseLedger, request: Request)
    returns (result: Result<Filed, Error>)
    modifies case_, ledger
    ensures (result, ledger.log, ledger.schedule) == FilingRun(request, case_.id, old(ledger.log), old(ledger.schedule))
    ensures result.Ok? ==> case_.status == FiledStatus && case_.lastFilingReceipt == Some(ReceiptDigest(request.receipt))
    ensures result.Err? ==> case_.status == old(case_.status) && case_.lastFilingReceipt == old(case_.lastFilingReceipt)
  {
    hide AppendRun, Refusal;
    var refusal := Refusal(request, case_.id);
    if refusal.Some? {
      return Err(refusal.value);
    }
    var receiptEvent := ledger.AppendEvent(ReceiptCall(request));
    if receiptEvent.Err? {
      return Err(receiptEvent.error);
    }
    var filedEvent := ledger.AppendEvent(FiledCall(request, receiptEvent.value));
    if filedEvent.Err? {
      return Err(filedEvent.error);
    }
    case_.status := FiledStatus;
    case_.lastFilingReceipt := Some(ReceiptDigest(request.receipt));
    result := Ok(Filed(receiptEvent.value, filedEvent.value));
  }

  // ---------------------------------------------------------------- when a filing succeeds

  /** What the others append to one case before a given access, counted from 0. */
  function Others(schedule: Schedule, access: nat, caseId: string): Stream {
    if access < |schedule| then StreamOf(schedule[access], caseId) else []
  }

  /** The stream can take the append that its first read prepares. */
  predicate Ready(call: AppendCall, seen: Stream) {
    Decodes(seen, call.caseId) && Head(seen) == call.expectedHead && |seen| < MAX_CASE_EVENTS
  }

  /** One append, access by access, on the stream of its case: what it answers, what it leaves and what
      it added itself. */
  lemma AppendRunOnStream(call: AppendCall, ledger: Ledger, schedule: Schedule)
    ensures var (outcome, after, rest) := AppendRun(call, Reading, ledger, schedule);
            var writes := AppendWrites(call, Reading, ledger, schedule);
            var c := call.caseId;
            var seen := StreamOf(ledger, c) + Others(schedule, 0, c);
            if !Ready(call, seen) then outcome.Err? && StreamOf(after, c) == seen && writes == []
            else if Others(schedule, 1, c) != [] then
              outcome.Err? && StreamOf(after, c) == seen + Others(schedule, 1, c) && writes == []
            else
              && StreamOf(after, c) == seen + [EventFor(call, seen)] + Others(schedule, 2, c)
              && writes == [EventFor(call, seen)]
              && (outcome.Ok? <==> Others(schedule, 2, c) == [])
              && (outcome.Ok? ==> outcome.value == EventFor(call, seen) && rest == Later(Later(Later(schedule))))
  {
    hide Decodes, StreamOf, BackendHeadOf;
    var c := call.caseId;
    var seen := StreamOf(ledger, c) + Others(schedule, 0, c);
    var now := ledger + Burst(schedule);
    NextBurst(ledger, schedule, c);
    if Ready(call, seen) {
      AppendAfterReading(call, seen, now, Later(schedule));
      assert Others(Later(schedule), 0, c) == Others(schedule, 1, c);
      assert Others(Later(schedule), 1, c) == Others(schedule, 2, c);
    }
  }

  /** What the others add to the case's stream before the next access, and whether its head moves. */
  lemma NextBurst(ledger: Ledger, schedule: Schedule, caseId: string)
    ensures StreamOf(ledger + Burst(schedule), caseId) == StreamOf(ledger, caseId) + Others(schedule, 0, caseId)
    ensures BackendHeadOf(ledger + Burst(schedule), caseId) == BackendHeadOf(ledger, caseId)
            <==> Others(schedule, 0, caseId) == []
  {
    HeadMovesWithStream(ledger, Burst(schedule), caseId);
  }

  /** Every event the ledger appends continues the chain it was built on. */
  lemma ChainGrows(call: AppendCall, seen: Stream)
    requires Decodes(seen, call.caseId)
    ensures IsChain(seen + [EventFor(call, seen)], call.caseId)
    ensures |seen| < MAX_CASE_EVENTS ==> Decodes(seen + [EventFor(call, seen)], call.caseId)
  {
    var stream := seen + [EventFor(call, seen)];
    forall i | 0 <= i < |stream| ensures Linked(stream, i, call.caseId) {
      if i < |seen| {
        assert Linked(seen, i, call.caseId);
        assert stream[..i] == seen[..i];
      } else {
        assert stream[..i] == seen;
      }
    }
  }

  lemma AppendAfterReading(call: AppendCall, seen: Stream, ledger: Ledger, schedule: Schedule)
    requires StreamOf(ledger, call.caseId) == seen && Ready(call, seen)
    ensures var step := Appending(seen, BackendHeadOf(ledger, call.caseId));
            var (outcome, after, rest) := AppendRun(call, step, ledger, schedule);
            var writes := AppendWrites(call, step, ledger, schedule);
            var c := call.caseId;
            if Others(schedule, 0, c) != [] then
              outcome.Err? && StreamOf(after, c) == seen + Others(schedule, 0, c) && writes == []
            else
              && StreamOf(after, c) == seen + [EventFor(call, seen)] + Others(schedule, 1, c)
              && writes == [EventFor(call, seen)]
              && (outcome.Ok? <==> Others(schedule, 1, c) == [])
              && (outcome.Ok? ==> outcome.value == EventFor(call, seen) && rest == Later(Later(schedule)))
  {
    hide Decodes, StreamOf, BackendHeadOf, Ready;
    var c := call.caseId;
    var event := EventFor(call, seen);
    var now := ledger + Burst(schedule);
    NextBurst(ledger, schedule, c);
    if Others(schedule, 0, c) == [] {
      AddExtends(now, c, [event], c);
      AppendAfterWriting(call, seen, Add(now, c, [event]), Later(schedule));
      assert Others(Later(schedule), 0, c) == Others(schedule, 1, c);
    }
  }

  lemma AppendAfterWriting(call: AppendCall, seen: Stream, ledger: Ledger, schedule: Schedule)
    requires StreamOf(ledger, call.caseId) == seen + [EventFor(call, seen)] && Ready(call, seen)
    ensures var (outcome, after, rest) := AppendRun(call, Verifying(seen), ledger, schedule);
            && StreamOf(after, call.caseId) == seen + [EventFor(call, seen)] + Others(schedule, 0, call.caseId)
            && AppendWrites(call, Verifying(seen), ledger, schedule) == []
            && (outcome.Ok? <==> Others(schedule, 0, call.caseId) == [])
            && (outcome.Ok? ==> outcome.value == EventFor(call, seen) && rest == Later(schedule))
  {
    ChainGrows(call, seen);
    hide Decodes, StreamOf, BackendHeadOf;
    NextBurst(ledger, schedule, call.caseId);
    if Others(schedule, 0, call.caseId) == [] {
      assert seen + [EventFor(call, seen)] + [] == seen + [EventFor(call, seen)];
    }
  }

  /** The whole fate of a filing, for every request, ledger and schedule. The accesses are the read, the
      append and the read-back of the receipt (0, 1, 2) and of the filing (3, 4, 5). For each access at
      which it can fail: what it added to the ledger itself, and the stream it leaves. */
  lemma FilingFate(request: Request, caseId: string, ledger: Ledger, schedule: Schedule)
    ensures var (outcome, after, _) := FilingRun(request, caseId, ledger, schedule);
            var writes := FilingWrites(request, caseId, ledger, schedule);
            var left := StreamOf(after, caseId);
            var seen := StreamOf(ledger, caseId) + Others(schedule, 0, caseId);
            var r := EventFor(ReceiptCall(request), seen);
            var f := EventFor(FiledCall(request, r), seen + [r]);
            if Refusal(request, caseId).Some? then outcome.Err? && after == ledger && writes == []
            else if !Ready(ReceiptCall(request), seen) then outcome.Err? && left == seen && writes == []
            else if Others(schedule, 1, caseId) != [] then
              outcome.Err? && left == seen + Others(schedule, 1, caseId) && writes == []
            else if Others(schedule, 2, caseId) != [] then
              outcome.Err? && left == seen + [r] + Others(schedule, 2, caseId) && writes == [r]
            else if Others(schedule, 3, caseId) != [] || |seen| + 1 == MAX_CASE_EVENTS then
              outcome.Err? && left == seen + [r] + Others(schedule, 3, caseId) && writes == [r]
            else if Others(schedule, 4, caseId) != [] then
              outcome.Err? && left == seen + [r] + Others(schedule, 4, caseId) && writes == [r]
            else
              && left == seen + [r, f] + Others(schedule, 5, caseId) && writes == [r, f]
              && (outcome == Ok(Filed(r, f)) <==> Others(schedule, 5, caseId) == [])
              && (outcome.Ok? <==> Others(schedule, 5, caseId) == [])
  {
    hide AppendRun, AppendWrites, Refusal, Ready, ReceiptCall, FiledCall, StreamOf, Others, EventFor;
    if Refusal(request, caseId).None? {
      RefusalNamesCase(request, caseId);
      var call := ReceiptCall(request);
      var seen := StreamOf(ledger, caseId) + Others(schedule, 0, caseId);
      AppendRunOnStream(call, ledger, schedule);
      var (first, mid, rest) := AppendRun(call, Reading, ledger, schedule);
      if first.Ok? {
        var r := first.value;
        LaterOthers(schedule, caseId);
        assert Others(rest, 1, caseId) == Others(schedule, 4, caseId) && Others(rest, 2, caseId) == Others(schedule, 5, caseId);
        assert seen + [r] + [] == seen + [r];
        SecondAppend(request, caseId, seen, mid, rest);
        var (second, after, end) := AppendRun(FiledCall(request, r), Reading, mid, rest);
        assert FilingRun(request, caseId, ledger, schedule)
            == (if second.Err? then Err(second.error) else Ok(Filed(r, second.value)), after, end);
      }
    }
  }

  /** The second append, on a stream that ends in the receipt event, with the others' appends that
      remain. */
  lemma SecondAppend(request: Request, caseId: string, seen: Stream, ledger: Ledger, schedule: Schedule)
    requires Refusal(request, caseId).None? && Ready(ReceiptCall(request), seen)
    requires StreamOf(ledger, caseId) == seen + [EventFor(ReceiptCall(request), seen)]
    ensures var r := EventFor(ReceiptCall(request), seen);
            var call := FiledCall(request, r);
            var f := EventFor(call, seen + [r]);
            var (outcome, after, rest) := AppendRun(call, Reading, ledger, schedule);
            var writes := AppendWrites(call, Reading, ledger, schedule);
            var left := StreamOf(after, caseId);
            if Others(schedule, 0, caseId) != [] || |seen| + 1 == MAX_CASE_EVENTS then
              outcome.Err? && left == seen + [r] + Others(schedule, 0, caseId) && writes == []
            else if Others(schedule, 1, caseId) != [] then
              outcome.Err? && left == seen + [r] + Others(schedule, 1, caseId) && writes == []
            else
              && left == seen + [r, f] + Others(schedule, 2, caseId) && writes == [f]
              && (outcome.Ok? <==> Others(schedule, 2, caseId) == [])
              && (outcome.Ok? ==> outcome.value == f)
  {
    hide AppendRun, AppendWrites, Refusal, Decodes, ReceiptCall, FiledCall, StreamOf, Others;
    RefusalNamesCase(request, caseId);
    var r := EventFor(ReceiptCall(request), seen);
    var call := FiledCall(request, r);
    var between := Others(schedule, 0, caseId);
    AppendRunOnStream(call, ledger, schedule);
    ChainGrows(ReceiptCall(request), seen);
    LongerChain(seen, r, between, caseId);
    if between == [] {
      assert seen + [r] + between == seen + [r];
      assert seen + [r] + [EventFor(call, seen + [r])] == seen + [r, EventFor(call, seen + [r])];
    }
  }

  /** Exactly when a filing succeeds. The request must be admissible, the case's stream readable with
      the expected head and room for two events, and between the first read and the last nobody else
      may have appended to this case. The stream then ends in the receipt event and the filing. */
  lemma FilingSucceedsExactlyWhen(request: Request, caseId: string, ledger: Ledger, schedule: Schedule)
    ensures var (outcome, after, _) := FilingRun(request, caseId, ledger, schedule);
            var seen := StreamOf(ledger, caseId) + Others(schedule, 0, caseId);
            && (outcome.Ok? <==>
                  && Refusal(request, caseId).None?
                  && Decodes(seen, caseId) && Head(seen) == request.expectedHead && |seen| + 2 <= MAX_CASE_EVENTS
                  && (forall access :: 1 <= access <= 5 ==> Others(schedule, access, caseId) == []))
            && (outcome.Ok? ==>
                  StreamOf(after, caseId) == seen + [outcome.value.receiptEvent, outcome.value.filedEvent])
  {
    hide FilingRun, FilingWrites, Refusal, Decodes, ReceiptCall, FiledCall, StreamOf, Others, EventFor;
    FilingFate(request, caseId, ledger, schedule);
    if Refusal(request, caseId).None? {
      RefusalNamesCase(request, caseId);
      if FilingRun(request, caseId, ledger, schedule).0.Ok? {
        assert Others(schedule, 3, caseId) == [] && Others(schedule, 4, caseId) == [];
      }
    }
  }

  /** Exactly when ledger and Case part. This call's filing lands on the ledger if and only if the
      request is admissible, the stream is ready with room for two events, and nobody else appends to the
      case from the first append to the second. A filing that landed is answered, and the Case marked, if
      and only if nobody appends before its read-back either; a filing that did not land is never
      answered. */
  lemma FiledWithoutTheCase(request: Request, caseId: string, ledger: Ledger, schedule: Schedule)
    ensures var (outcome, after, _) := FilingRun(request, caseId, ledger, schedule);
            var seen := StreamOf(ledger, caseId) + Others(schedule, 0, caseId);
            && (FilingLands(request, caseId, ledger, schedule) <==>
                  && Refusal(request, caseId).None?
                  && Decodes(seen, caseId) && Head(seen) == request.expectedHead && |seen| + 2 <= MAX_CASE_EVENTS
                  && (forall access :: 1 <= access <= 4 ==> Others(schedule, access, caseId) == []))
            && (outcome.Ok? <==>
                  FilingLands(request, caseId, ledger, schedule) && Others(schedule, 5, caseId) == [])
  {
    hide FilingRun, FilingWrites, Refusal, Decodes, StreamOf, Others;
    FilingFate(request, caseId, ledger, schedule);
    if Refusal(request, caseId).None? {
      RefusalNamesCase(request, caseId);
      if FilingLands(request, caseId, ledger, schedule) {
        assert Others(schedule, 3, caseId) == [] && Others(schedule, 4, caseId) == [];
      }
    }
  }

  /** The call itself put a CASE_FILED event on the ledger. */
  predicate FilingLands(request: Request, caseId: string, ledger: Ledger, schedule: Schedule) {
    exists event :: event in FilingWrites(request, caseId, ledger, schedule) && event.eventType == CASE_FILED
  }

  // ---------------------------------------------------------------- which approvals cover a filing

  /** Some filing of this identity under this approval, for an action at this time, puts its CASE_FILED
      event on some ledger. */
  ghost predicate CanFile(approval: Approval, identity: A.Identity, at: int) {
    exists request: Request, caseId, ledger, schedule ::
      && request.approval == approval && request.identity == identity && ActionTime(request.receipt) == at
      && FilingLands(request, caseId, ledger, schedule)
  }

  /** The approvals that cover a filing. Filings of an identity can land under an approval exactly if it was
      given for this case, artifact, version, digest and type of action, and then exactly for actions from
      its grant on, before any revocation, and up to and including any expiry. */
  lemma FilingTimes(approval: Approval, identity: A.Identity, at: int)
    ensures CanFile(approval, identity, at) <==>
              && (approval.caseId, approval.artifactId, approval.artifactVersion, approval.artifactDigest, approval.actionType)
                 == (identity.caseId, identity.artifactId, identity.artifactVersion, identity.artifactDigest, identity.actionType)
              && approval.grantedAt <= at
              && !(approval.revokedAt.Some? && approval.revokedAt.value <= at)
              && !(approval.expiresAt.Some? && approval.expiresAt.value < at)
  {
    hide FilingLands, Decodes, Others, StreamOf;
    var receipt := A.Receipt("", A.DigestOf(identity), "", A.ConfirmedSuccessOutcome, "", at, None);
    var request := Request(identity, receipt, approval, "", None, "", "", "");
    NothingFiledYet(identity.caseId);
    FiledWithoutTheCase(request, identity.caseId, [], []);
    forall other: Request, caseId, ledger, schedule | FilingLands(other, caseId, ledger, schedule)
      ensures Refusal(other, caseId).None?
    {
      FiledWithoutTheCase(other, caseId, ledger, schedule);
    }
  }

  lemma NothingFiledYet(caseId: string)
    ensures StreamOf([], caseId) == [] && Decodes([], caseId)
    ensures forall k: nat :: Others([], k, caseId) == []
  {
  }

  /** An approval given for anything else covers nothing: the filing appends no event, leaves the ledger as
      it is and answers with an error, which leaves the Case alone. */
  lemma OtherApprovalsFileNothing(request: Request, caseId: string, ledger: Ledger, schedule: Schedule)
    requires || request.approval.caseId != request.identity.caseId
             || request.approval.artifactId != request.identity.artifactId
             || request.approval.artifactVersion != request.identity.artifactVersion
             || request.approval.artifactDigest != request.identity.artifactDigest
             || request.approval.actionType != request.identity.actionType
    ensures FilingWrites(request, caseId, ledger, schedule) == []
    ensures var (outcome, after, _) := FilingRun(request, caseId, ledger, schedule);
            outcome.Err? && after == ledger
  {
  }

  lemma LaterOthers(schedule: Schedule, caseId: string)
    ensures forall k: nat :: Others(Later(Later(Later(schedule))), k, caseId) == Others(schedule, k + 3, caseId)
  {
  }

  lemma RefusalNamesCase(request: Request, caseId: string)
    requires Refusal(request, caseId).None?
    ensures ReceiptCall(request).caseId == caseId && ReceiptCall(request).expectedHead == request.expectedHead
    ensures forall event :: FiledCall(request, event).caseId == caseId
                            && FiledCall(request, event).expectedHead == Some(EventId(event))
  {
  }

  /** In a legal chain an event's address appears as the head only while the event is last. */
  lemma LongerChain(seen: Stream, event: Event, more: Stream, caseId: string)
    requires event.sequence == |seen|
    ensures var stream := seen + [event] + more;
            Decodes(stream, caseId) && Head(stream) == Some(EventId(event)) ==> more == []
  {
    var stream := seen + [event] + more;
    if Decodes(stream, caseId) && Head(stream) == Some(EventId(event)) {
      assert Linked(stream, |stream| - 1, caseId);
    }
  }
}
