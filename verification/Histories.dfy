/**
  Which streams can be replayed, said without replaying them: the order of events is that of a small
  grammar, each record carries what its event needs, and the replayed state can be read off the last record
  and the last reservation.
 */
module Histories {
  import opened Prelude
  import opened ExternalActions

  /** The events that may come next. */
  predicate MayFollow(previous: EventType, next: EventType) {
    match previous
    case ReservedEvent => next in {DispatchedEvent, PreEffectFailedEvent, OutcomeUnknownEvent}
    case DispatchedEvent => next in {ConfirmedSuccessEvent, ConfirmedNoEffectEvent, ReceiptRecoveredEvent}
    case OutcomeUnknownEvent => next in {ConfirmedSuccessEvent, ConfirmedNoEffectEvent, ReceiptRecoveredEvent}
    case PreEffectFailedEvent => next == ReservedEvent
    case ConfirmedNoEffectEvent => next == ReservedEvent
    case _ => false
  }

  /** The attempt of the latest reservation. */
  function LatestAttempt(records: seq<Record>): string {
    if records == [] then ""
    else
      var last := records[|records| - 1];
      if last.event == ReservedEvent && last.payload.attemptId.Some? then last.payload.attemptId.value
      else LatestAttempt(records[..|records| - 1])
  }

  /** The record carries what its event needs, in a stream whose latest reservation was made for `attempt`. */
  predicate Carries(identity: Identity, record: Record, attempt: string) {
    var payload := record.payload;
    && payload.schema == "lukart.durable-external-action.v1" && payload.identityDigest.identity == identity
    && (record.event == ReservedEvent ==> HasText(payload.attemptId))
    && (record.event == DispatchedEvent ==>
          && payload.attemptId == Some(attempt) && HasText(payload.dispatchRef)
          && payload.startedAt.Some? && payload.startedAt.value.aware)
    && (record.event in {ConfirmedNoEffectEvent, ReceiptRecoveredEvent} ==> HasText(payload.reconciliationRef))
    && (record.event in {ConfirmedSuccessEvent, ReceiptRecoveredEvent} ==>
          && payload.receipt.Some? && payload.receipt.value.attemptId == attempt
          && payload.receipt.value.identityDigest.identity == identity
          && payload.receipt.value.outcome == ConfirmedSuccessOutcome)
  }

  /** The record at k may stand there. */
  predicate Fits(identity: Identity, records: seq<Record>, k: nat)
    requires k < |records|
  {
    && Carries(identity, records[k], LatestAttempt(records[..k]))
    && if k == 0 then records[0].event == ReservedEvent && records[0].payload.identity == Some(identity)
       else MayFollow(records[k - 1].event, records[k].event)
  }

  predicate Legal(identity: Identity, records: seq<Record>) {
    forall k :: 0 <= k < |records| ==> Fits(identity, records, k)
  }

  function StateAfter(event: EventType): ActionState {
    match event
    case DispatchedEvent => OutcomeUnknown
    case OutcomeUnknownEvent => OutcomeUnknown
    case PreEffectFailedEvent => PreEffectFailed
    case ConfirmedSuccessEvent => ConfirmedExternalSuccess
    case ConfirmedNoEffectEvent => ConfirmedNoEffect
    case ReceiptRecoveredEvent => ReceiptRecovered
    case _ => Reserved
  }

  /** What a legal history amounts to. */
  function Summary(identity: Identity, records: seq<Record>): Option<Action> {
    if records == [] then None
    else
      var last := records[|records| - 1];
      Some(Action(identity, StateAfter(last.event), LatestAttempt(records), CountOf(records, ReservedEvent),
                  if last.event == ConfirmedSuccessEvent || last.event == ReceiptRecoveredEvent then last.payload.receipt else None))
  }

  lemma LegalSnoc(identity: Identity, records: seq<Record>)
    requires records != []
    ensures Legal(identity, records) <==>
              Legal(identity, records[..|records| - 1]) && Fits(identity, records, |records| - 1)
  {
    hide Carries, MayFollow;
    var front := records[..|records| - 1];
    forall k | 0 <= k < |front| ensures Fits(identity, front, k) <==> Fits(identity, records, k) {
      assert front[..k] == records[..k];
    }
  }

  lemma FirstRecord(identity: Identity, record: Record)
    ensures Begin(identity, record).Ok? <==> Fits(identity, [record], 0)
    ensures Begin(identity, record).Ok? ==> Some(Begin(identity, record).value) == Summary(identity, [record])
  {
    assert [record][..0] == [];
    CountSnoc([], record, ReservedEvent);
    assert [] + [record] == [record];
  }

  /** One transition, from the state that an event left. */
  lemma Transition(identity: Identity, previous: EventType, attempt: string, count: nat, receipt: Option<Receipt>,
                   record: Record)
    requires Canonical(attempt) && !previous.UnsupportedEvent?
    ensures var next := Advance(identity, Action(identity, StateAfter(previous), attempt, count, receipt), record);
            && (next.Ok? <==> Carries(identity, record, attempt) && MayFollow(previous, record.event))
            && (next.Ok? ==>
                  next.value == Action(identity, StateAfter(record.event),
                                       if record.event == ReservedEvent then record.payload.attemptId.value else attempt,
                                       count + (if record.event == ReservedEvent then 1 else 0),
                                       if record.event == ReservedEvent then None
                                       else if record.event in {ConfirmedSuccessEvent, ReceiptRecoveredEvent} then record.payload.receipt
                                       else receipt))
  {
    hide Canonical;
    var action := Action(identity, StateAfter(previous), attempt, count, receipt);
    match record.event {
      case ReservedEvent =>
      case DispatchedEvent =>
      case PreEffectFailedEvent =>
      case OutcomeUnknownEvent =>
      case ConfirmedSuccessEvent => Confirmation(identity, action, record, ConfirmedExternalSuccess);
      case ConfirmedNoEffectEvent =>
      case ReceiptRecoveredEvent => Confirmation(identity, action, record, ReceiptRecovered);
      case UnsupportedEvent(_) =>
    }
  }

  lemma Confirmation(identity: Identity, action: Action, record: Record, target: ActionState)
    requires action.identity == identity
    ensures var payload := record.payload;
            Confirm(action, payload, target).Ok? <==>
              && payload.receipt.Some? && payload.receipt.value.attemptId == action.owner
              && payload.receipt.value.identityDigest.identity == identity
              && payload.receipt.value.outcome == ConfirmedSuccessOutcome
  {
  }

  /** One more record on a legal history. */
  lemma NextRecord(identity: Identity, front: seq<Record>, record: Record)
    requires front != [] && Legal(identity, front) && Canonical(LatestAttempt(front))
    ensures var records := front + [record];
            var next := Advance(identity, Summary(identity, front).value, record);
            && (next.Ok? <==> Fits(identity, records, |front|))
            && (next.Ok? ==> Some(next.value) == Summary(identity, records))
  {
    hide Advance, Carries;
    var records := front + [record];
    assert records[..|front|] == front;
    CountSnoc(front, record, ReservedEvent);
    var last := front[|front| - 1];
    assert Fits(identity, front, |front| - 1);
    var receipt := Summary(identity, front).value.receipt;
    Transition(identity, last.event, LatestAttempt(front), CountOf(front, ReservedEvent), receipt, record);
    ReservationsCarryText(identity, record, LatestAttempt(front));
  }

  lemma ReservationsCarryText(identity: Identity, record: Record, attempt: string)
    ensures Carries(identity, record, attempt) && record.event == ReservedEvent ==> record.payload.attemptId.Some?
  {
  }

  lemma {:induction false} AttemptsAreText(identity: Identity, records: seq<Record>)
    requires records != [] && Legal(identity, records)
    ensures Canonical(LatestAttempt(records))
    decreases |records|
  {
    LegalSnoc(identity, records);
    if |records| > 1 { AttemptsAreText(identity, records[..|records| - 1]); }
  }

  /** Replay accepts exactly the legal histories, and computes their summary. */
  lemma {:induction false} ReplayExactlyWhenLegal(identity: Identity, records: seq<Record>)
    ensures Replay(identity, records).Ok? <==> Legal(identity, records)
    ensures Legal(identity, records) ==> Replay(identity, records).value == Summary(identity, records)
    decreases |records|
  {
    hide Begin, Advance, Fits, Summary;
    if records == [] {
      EmptySummary(identity);
    } else {
      var front, last := records[..|records| - 1], records[|records| - 1];
      ReplayExactlyWhenLegal(identity, front);
      LegalSnoc(identity, records);
      assert records == front + [last];
      if front == [] {
        FirstRecord(identity, last);
        EmptySummary(identity);
      } else if Legal(identity, front) {
        AttemptsAreText(identity, front);
        SummaryIsSome(identity, front);
        NextRecord(identity, front, last);
      }
    }
  }

  lemma EmptySummary(identity: Identity)
    ensures Summary(identity, []) == None
  {
  }

  lemma SummaryIsSome(identity: Identity, records: seq<Record>)
    requires records != []
    ensures Summary(identity, records).Some?
  {
  }
}
