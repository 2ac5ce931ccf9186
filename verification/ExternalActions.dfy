/**
  The vocabulary of external actions: immutable identities, receipts, the records of one
  logical-action stream, and the replay that turns a stream into the coordinated state.

  Content addresses are modelled by constructors, so equal digests mean equal values: this is
  the one assumption made about SHA-256 over canonical JSON.
 */
module ExternalActions {
  import opened Prelude

  const SCHEMA := "lukart.durable-external-action.v1"
  const MAX_TRANSITIONS: nat := 1000

  datatype Identity = Identity(
    caseId: string,
    artifactId: string,
    artifactVersion: string,
    artifactDigest: string,
    logicalActionId: string,
    actionType: string,
    channel: string,
    payloadDigest: Option<string>)

  datatype IdentityDigest = DigestOf(identity: Identity)

  /** The logical scope whose digest names a stream. */
  datatype Scope = Scope(caseId: string, logicalActionId: string)

  function ScopeOf(identity: Identity): Scope {
    Scope(identity.caseId, identity.logicalActionId)
  }

  datatype ReceiptOutcome = ConfirmedSuccessOutcome | ConfirmedNoEffectOutcome | UnknownOutcome | AmbiguousOutcome

  /** An instant, and whether the value that carries it has a time zone. */
  datatype Moment = Moment(instant: int, aware: bool)

  datatype Receipt = Receipt(
    receiptId: string,
    identityDigest: IdentityDigest,
    attemptId: string,
    outcome: ReceiptOutcome,
    evidenceRef: string,
    recordedAt: int,
    externalTimestamp: Option<int>)

  datatype ActionState =
    | Reserved
    | PreEffectFailed
    | OutcomeUnknown
    | ConfirmedExternalSuccess
    | ConfirmedNoEffect
    | ReceiptRecovered

  datatype EventType =
    | ReservedEvent
    | DispatchedEvent
    | PreEffectFailedEvent
    | OutcomeUnknownEvent
    | ConfirmedSuccessEvent
    | ConfirmedNoEffectEvent
    | ReceiptRecoveredEvent
    | UnsupportedEvent(name: string)

  /** A record payload. A key that the dictionary lacks is None; an absent schema or identity
      digest behaves as any other value that differs from the expected one. */
  datatype Payload = Payload(
    schema: string,
    identityDigest: IdentityDigest,
    identity: Option<Identity>,
    attemptId: Option<string>,
    dispatchRef: Option<string>,
    startedAt: Option<Moment>,
    reconciliationRef: Option<string>,
    receipt: Option<Receipt>)

  datatype Record = Record(event: EventType, payload: Payload)

  datatype Disposition = InvokeAllowed | InProgress | ReplayConfirmed | ReconcileRequired

  datatype Error =
    | NotCanonical(field: string)
    | NaiveTimestamp
    | TransitionLimitExceeded
    | StreamWithoutReservation
    | MalformedPayload
    | IdempotencyConflict
    | UnsupportedSchema
    | TransitionIdentityMismatch
    | InvalidTransition(event: EventType)
    | AttemptMismatch
    | ReceiptIdentityMismatch
    | ReceiptNotSuccess
    | NoReservation
    | NotInvokable
    | NotOwner
    | OutcomeAlreadyUnknown
    | LostCompareAndAppend
    | ReservationVerificationFailed
    | ReservationOwnerMismatch
    | LostRepeatedRaces
    | DispatchVerificationFailed
    | RecordDisappeared
    | RequiresOutcomeUnknown
    | DifferentReceipt
    | ProviderForbidden(disposition: Disposition)
    | ConfirmedWithoutReceipt
    | ProviderRaised

  /** The state that a stream replays to. */
  datatype Action = Action(
    identity: Identity,
    state: ActionState,
    owner: string,
    attemptCount: nat,
    receipt: Option<Receipt>)

  predicate Confirmed(state: ActionState) {
    state == ConfirmedExternalSuccess || state == ReceiptRecovered
  }

  predicate Retryable(state: ActionState) {
    state == PreEffectFailed || state == ConfirmedNoEffect
  }

  /** A receipt accepted for a transition: it names the identity and proves success. */
  function VerifyReceipt(receipt: Receipt, identity: Identity): Result<(), Error> {
    if receipt.identityDigest != DigestOf(identity) then Err(ReceiptIdentityMismatch)
    else if receipt.outcome != ConfirmedSuccessOutcome then Err(ReceiptNotSuccess)
    else Ok(())
  }

  // ---------------------------------------------------------------- replay of one stream

  /** The first record of a stream. */
  function Begin(identity: Identity, record: Record): Result<Action, Error> {
    var payload := record.payload;
    if record.event != ReservedEvent then Err(StreamWithoutReservation)
    else if payload.identity.None? then Err(MalformedPayload)
    else if DigestOf(payload.identity.value) != DigestOf(identity) then Err(IdempotencyConflict)
    else if !HasText(payload.attemptId) then Err(MalformedPayload)
    else if payload.schema != SCHEMA then Err(UnsupportedSchema)
    else if payload.identityDigest != DigestOf(identity) then Err(TransitionIdentityMismatch)
    else Ok(Action(payload.identity.value, Reserved, payload.attemptId.value, 1, None))
  }

  /** A receipt record: the receipt must be present, name the owner and prove success. */
  function Confirm(action: Action, payload: Payload, target: ActionState): Result<Action, Error> {
    if payload.receipt.None? then Err(MalformedPayload)
    else if payload.receipt.value.attemptId != action.owner then Err(AttemptMismatch)
    else match VerifyReceipt(payload.receipt.value, action.identity)
      case Err(e) => Err(e)
      case Ok(_) => Ok(action.(state := target, receipt := payload.receipt))
  }

  /** Every later record of a stream. */
  function Advance(identity: Identity, action: Action, record: Record): Result<Action, Error> {
    var payload := record.payload;
    if payload.schema != SCHEMA then Err(UnsupportedSchema)
    else if payload.identityDigest != DigestOf(identity) then Err(TransitionIdentityMismatch)
    else
      match record.event
      case ReservedEvent =>
        if !Retryable(action.state) then Err(InvalidTransition(record.event))
        else if !HasText(payload.attemptId) then Err(MalformedPayload)
        else Ok(action.(state := Reserved, owner := payload.attemptId.value,
                        attemptCount := action.attemptCount + 1, receipt := None))
      case DispatchedEvent =>
        if action.state != Reserved then Err(InvalidTransition(record.event))
        else if !HasText(payload.attemptId) then Err(MalformedPayload)
        else if payload.attemptId.value != action.owner then Err(AttemptMismatch)
        else if !HasText(payload.dispatchRef) then Err(MalformedPayload)
        else if payload.startedAt.None? || !payload.startedAt.value.aware then Err(MalformedPayload)
        else Ok(action.(state := OutcomeUnknown))
      case PreEffectFailedEvent =>
        if action.state != Reserved then Err(InvalidTransition(record.event))
        else Ok(action.(state := PreEffectFailed))
      case OutcomeUnknownEvent =>
        if action.state != Reserved then Err(InvalidTransition(record.event))
        else Ok(action.(state := OutcomeUnknown))
      case ConfirmedSuccessEvent =>
        if action.state != OutcomeUnknown then Err(InvalidTransition(record.event))
        else Confirm(action, payload, ConfirmedExternalSuccess)
      case ConfirmedNoEffectEvent =>
        if action.state != OutcomeUnknown then Err(InvalidTransition(record.event))
        else if !HasText(payload.reconciliationRef) then Err(MalformedPayload)
        else Ok(action.(state := ConfirmedNoEffect))
      case ReceiptRecoveredEvent =>
        if action.state != OutcomeUnknown then Err(InvalidTransition(record.event))
        else if !HasText(payload.reconciliationRef) then Err(MalformedPayload)
        else Confirm(action, payload, ReceiptRecovered)
      case UnsupportedEvent(_) => Err(InvalidTransition(record.event))
  }

  /** One more record, on a stream that so far replays to `prior`. */
  function Extend(identity: Identity, prior: Option<Action>, record: Record): Result<Action, Error> {
    if prior.None? then Begin(identity, record) else Advance(identity, prior.value, record)
  }

  /** The state a stream replays to under the identity a caller supplies. */
  function Replay(identity: Identity, records: seq<Record>): Result<Option<Action>, Error> {
    if records == [] then Ok(None)
    else
      var prior := Replay(identity, records[..|records| - 1]);
      if prior.Err? then prior
      else
        var next := Extend(identity, prior.value, records[|records| - 1]);
        if next.Err? then Err(next.error) else Ok(Some(next.value))
  }

  /** What loading a stream of this length returns: replay, unless the stream is over the limit. */
  function LoadRecords(identity: Identity, records: seq<Record>): Result<Option<Action>, Error> {
    if |records| > MAX_TRANSITIONS then Err(TransitionLimitExceeded) else Replay(identity, records)
  }

  /** The errors that loading a stream can raise. */
  predicate IsLoadError(e: Error) {
    || e == TransitionLimitExceeded
    || e == StreamWithoutReservation
    || e == MalformedPayload
    || e == IdempotencyConflict
    || e == UnsupportedSchema
    || e == TransitionIdentityMismatch
    || e.InvalidTransition?
    || e == AttemptMismatch
    || e == ReceiptIdentityMismatch
    || e == ReceiptNotSuccess
  }

  lemma ExtendRaisesLoadErrors(identity: Identity, prior: Option<Action>, record: Record)
    ensures Extend(identity, prior, record).Err? ==> IsLoadError(Extend(identity, prior, record).error)
  {
  }

  lemma {:induction false} ReplayRaisesLoadErrors(identity: Identity, records: seq<Record>)
    ensures Replay(identity, records).Err? ==> IsLoadError(Replay(identity, records).error)
    decreases |records|
  {
    hide Extend, IsLoadError;
    if records != [] {
      var front, last := records[..|records| - 1], records[|records| - 1];
      ReplayRaisesLoadErrors(identity, front);
      if Replay(identity, front).Ok? {
        ExtendRaisesLoadErrors(identity, Replay(identity, front).value, last);
      }
    }
  }

  /** A stream accepted for its scope: empty, or replayable under the identity it starts with. */
  predicate Accepted(scope: Scope, records: seq<Record>) {
    records != [] ==>
      var stored := records[0].payload.identity;
      stored.Some? && ScopeOf(stored.value) == scope && Replay(stored.value, records).Ok?
  }

  predicate ReplaysTo(identity: Identity, records: seq<Record>, action: Action) {
    Replay(identity, records) == Ok(Some(action))
  }

  // ---------------------------------------------------------------- facts about replay

  /** Replay proceeds record by record. */
  lemma ReplaySnoc(identity: Identity, records: seq<Record>, record: Record)
    requires Replay(identity, records).Ok?
    ensures var next := Extend(identity, Replay(identity, records).value, record);
            Replay(identity, records + [record]) ==
            if next.Err? then Err(next.error) else Ok(Some(next.value))
  {
    assert (records + [record])[..|records|] == records;
  }

  /** A replayed prefix of an accepted stream is accepted too, and None means empty. */
  lemma {:induction false} ReplayPrefix(identity: Identity, records: seq<Record>, n: nat)
    requires n <= |records| && Replay(identity, records).Ok?
    ensures Replay(identity, records[..n]).Ok?
    ensures Replay(identity, records[..n]).value.None? <==> n == 0
    decreases |records|
  {
    if n == |records| {
      assert records[..n] == records;
      if n > 0 { ReplayNonempty(identity, records); }
    } else {
      ReplayPrefix(identity, records[..|records| - 1], n);
      assert records[..|records| - 1][..n] == records[..n];
    }
  }

  lemma ReplayNonempty(identity: Identity, records: seq<Record>)
    requires records != [] && Replay(identity, records).Ok?
    ensures Replay(identity, records).value.Some?
  {
  }

  /** Only the identity that reserved a stream first can replay it, and it owns its scope. */
  lemma {:induction false} ReplayFixesIdentity(identity: Identity, records: seq<Record>)
    requires records != [] && Replay(identity, records).Ok?
    ensures records[0].payload.identity == Some(identity)
    ensures Replay(identity, records).value.Some? && Replay(identity, records).value.value.identity == identity
    decreases |records|
  {
    if |records| > 1 {
      var front := records[..|records| - 1];
      ReplayFixesIdentity(identity, front);
      assert front[0] == records[0];
    } else {
      assert records[..0] == [];
    }
  }

  /** Confirmed states are absorbing: no record extends a confirmed stream. */
  lemma {:induction false} ConfirmedAbsorbs(identity: Identity, records: seq<Record>, more: seq<Record>)
    requires Replay(identity, records).Ok? && Replay(identity, records).value.Some?
    requires Confirmed(Replay(identity, records).value.value.state)
    requires records <= more && Replay(identity, more).Ok?
    ensures more == records
  {
    if |more| > |records| {
      var next := more[|records|];
      assert more[..|records| + 1] == records + [next];
      ConfirmedRefuses(identity, records, next);
      ReplayPrefix(identity, more, |records| + 1);
    }
  }

  lemma ConfirmedRefuses(identity: Identity, records: seq<Record>, next: Record)
    requires Replay(identity, records).Ok? && Replay(identity, records).value.Some?
    requires Confirmed(Replay(identity, records).value.value.state)
    ensures Replay(identity, records + [next]).Err?
  {
    ReplaySnoc(identity, records, next);
  }

  /** In every replayable stream a receipt is present exactly in the two confirmed states, and it
      names the owning attempt and the stored identity; owners are canonical text. */
  lemma {:induction false} ReceiptExactlyWhenConfirmed(identity: Identity, records: seq<Record>, action: Action)
    requires ReplaysTo(identity, records, action)
    ensures action.receipt.Some? <==> Confirmed(action.state)
    ensures action.receipt.Some? ==>
              && action.receipt.value.attemptId == action.owner
              && VerifyReceipt(action.receipt.value, identity).Ok?
    ensures Canonical(action.owner)
    decreases |records|
  {
    ReplayFixesIdentity(identity, records);
    if |records| > 1 {
      var front := records[..|records| - 1];
      ReplayPrefix(identity, records, |records| - 1);
      ReplayFixesIdentity(identity, front);
      ReceiptExactlyWhenConfirmed(identity, front, Replay(identity, front).value.value);
    }
  }

  // ---------------------------------------------------------------- conservation

  function CountOf(records: seq<Record>, event: EventType): nat {
    if records == [] then 0
    else CountOf(records[..|records| - 1], event) + (if records[|records| - 1].event == event then 1 else 0)
  }

  lemma CountSnoc(records: seq<Record>, record: Record, event: EventType)
    ensures CountOf(records + [record], event) == CountOf(records, event) + (if record.event == event then 1 else 0)
  {
    assert (records + [record])[..|records|] == records;
  }

  function One(holds: bool): int {
    if holds then 1 else 0
  }

  /** What one transition does to the balances. */
  lemma TransitionBalance(identity: Identity, action: Action, record: Record)
    requires Advance(identity, action, record).Ok?
    ensures var next, event := Advance(identity, action, record).value, record.event;
            && next.attemptCount == action.attemptCount + One(event == ReservedEvent)
            && One(!Retryable(next.state))
               == One(!Retryable(action.state)) + One(event == ReservedEvent)
                  - One(event == PreEffectFailedEvent) - One(event == ConfirmedNoEffectEvent)
            && One(next.state == OutcomeUnknown)
               == One(action.state == OutcomeUnknown) + One(event == DispatchedEvent) + One(event == OutcomeUnknownEvent)
                  - One(event == ConfirmedNoEffectEvent) - One(event == ConfirmedSuccessEvent) - One(event == ReceiptRecoveredEvent)
            && One(Confirmed(next.state))
               == One(Confirmed(action.state)) + One(event == ConfirmedSuccessEvent) + One(event == ReceiptRecoveredEvent)
  {
  }

  /** Attempts, dispatches and resolutions balance in every replayable stream. */
  lemma {:induction false} Conservation(identity: Identity, records: seq<Record>, action: Action)
    requires ReplaysTo(identity, records, action)
    ensures action.attemptCount == CountOf(records, ReservedEvent)
    ensures action.attemptCount ==
            CountOf(records, PreEffectFailedEvent) + CountOf(records, ConfirmedNoEffectEvent)
            + (if Retryable(action.state) then 0 else 1)
    ensures CountOf(records, DispatchedEvent) + CountOf(records, OutcomeUnknownEvent) ==
            CountOf(records, ConfirmedNoEffectEvent) + CountOf(records, ConfirmedSuccessEvent)
            + CountOf(records, ReceiptRecoveredEvent) + (if action.state == OutcomeUnknown then 1 else 0)
    ensures CountOf(records, ConfirmedSuccessEvent) + CountOf(records, ReceiptRecoveredEvent) ==
            (if Confirmed(action.state) then 1 else 0)
    decreases |records|
  {
    hide Advance;
    var front := records[..|records| - 1];
    if |records| > 1 {
      ReplayPrefix(identity, records, |records| - 1);
      Conservation(identity, front, Replay(identity, front).value.value);
      TransitionBalance(identity, Replay(identity, front).value.value, records[|records| - 1]);
    } else {
      assert front == [];
    }
  }

  /** At most one dispatch more than the dispatches that were reconciled as having no effect. */
  lemma DispatchBound(identity: Identity, records: seq<Record>)
    requires Replay(identity, records).Ok?
    ensures CountOf(records, DispatchedEvent) <= 1 + CountOf(records, ConfirmedNoEffectEvent)
  {
    if records != [] {
      ReplayNonempty(identity, records);
      Conservation(identity, records, Replay(identity, records).value.value);
    }
  }

  lemma {:induction false} ReceiptConfirms(identity: Identity, records: seq<Record>, record: Record)
    requires Replay(identity, records).Ok? && Replay(identity, records + [record]).Ok?
    requires record.event == ConfirmedSuccessEvent || record.event == ReceiptRecoveredEvent
    ensures var replayed := Replay(identity, records + [record]).value;
            replayed.Some? && Confirmed(replayed.value.state)
  {
    ReplaySnoc(identity, records, record);
  }

  /** No record of any kind, in particular no dispatch, follows a confirmed or recovered receipt. */
  lemma {:induction false} NothingFollowsReceipt(identity: Identity, records: seq<Record>, k: nat)
    requires Replay(identity, records).Ok? && k < |records|
    requires records[k].event == ConfirmedSuccessEvent || records[k].event == ReceiptRecoveredEvent
    ensures k == |records| - 1
  {
    var front, upTo := records[..k], records[..k + 1];
    assert upTo == front + [records[k]];
    ReplayPrefix(identity, records, k);
    ReplayPrefix(identity, records, k + 1);
    ReceiptConfirms(identity, front, records[k]);
    ConfirmedAbsorbs(identity, upTo, records);
  }

  // ---------------------------------------------------------------- retry windows

  /** A stream that a reservation may extend: empty, or in a retryable state. */
  predicate Open(identity: Identity, records: seq<Record>) {
    var replayed := Replay(identity, records);
    replayed.Ok? && (replayed.value.Some? ==> Retryable(replayed.value.value.state))
  }

  /** Between two different moments at which a stream is open, it grows by at least two records. */
  lemma OpenWindowsAreTwoApart(identity: Identity, records: seq<Record>, n: nat)
    requires n < |records| && Replay(identity, records).Ok?
    requires Open(identity, records[..n]) && Open(identity, records)
    ensures n + 2 <= |records|
  {
    if |records| == n + 1 {
      assert records == records[..n] + [records[n]];
      ReplaySnoc(identity, records[..n], records[n]);
    }
  }
}
