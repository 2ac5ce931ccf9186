/**
  The in-process coordinator: two dictionaries and mutable action records, updated under a lock.
  Its methods are proved against functions on `Reference`, the value of the two dictionaries.
 */
module SafeCoordinator {
  import opened Prelude
  import opened ExternalActions
  import Calls = ActionCalls

  /** What the dictionaries hold. The idempotency key of an identity is its digest. */
  datatype Reference = Reference(actions: map<Identity, Action>, keys: map<Scope, Identity>)

  const EMPTY := Reference(map[], map[])

  /** Each scope maps to the one identity reserved for it, and every reserved identity is found so. */
  ghost predicate Consistent(reference: Reference) {
    && (forall identity :: identity in reference.actions ==>
          && reference.actions[identity].identity == identity
          && ScopeOf(identity) in reference.keys && reference.keys[ScopeOf(identity)] == identity)
    && (forall scope :: scope in reference.keys ==>
          reference.keys[scope] in reference.actions && ScopeOf(reference.keys[scope]) == scope)
  }

  /** The dictionaries with one action recorded, new or replaced. */
  function Put(reference: Reference, action: Action): Reference {
    Reference(reference.actions[action.identity := action],
              reference.keys[ScopeOf(action.identity) := action.identity])
  }

  lemma PutKeepsConsistent(reference: Reference, action: Action)
    requires Consistent(reference)
    requires ScopeOf(action.identity) in reference.keys ==> reference.keys[ScopeOf(action.identity)] == action.identity
    ensures Consistent(Put(reference, action))
  {
  }

  function Held(reference: Reference, identity: Identity, attempt: string): Result<Action, Error> {
    if identity !in reference.actions then Err(NoReservation)
    else
      var action := reference.actions[identity];
      if action.state != Reserved then Err(NotInvokable)
      else if action.owner != attempt then Err(NotOwner)
      else Ok(action)
  }

  function ReserveIn(reference: Reference, identity: Identity, attempt: string): (Reference, Calls.Outcome) {
    var scope := ScopeOf(identity);
    if !Canonical(attempt) then (reference, Err(NotCanonical("attempt_id")))
    else if scope in reference.keys && reference.keys[scope] != identity then (reference, Err(IdempotencyConflict))
    else if identity !in reference.actions then
      var action := Action(identity, Reserved, attempt, 1, None);
      (Put(reference, action), Ok(Calls.Reservation(InvokeAllowed, action)))
    else
      var action := reference.actions[identity];
      if Confirmed(action.state) then (reference, Ok(Calls.Reservation(ReplayConfirmed, action)))
      else if action.state == OutcomeUnknown then (reference, Ok(Calls.Reservation(ReconcileRequired, action)))
      else if action.state == Reserved then (reference, Ok(Calls.Reservation(InProgress, action)))
      else
        var retried := action.(state := Reserved, owner := attempt, attemptCount := action.attemptCount + 1, receipt := None);
        (Put(reference, retried), Ok(Calls.Reservation(InvokeAllowed, retried)))
  }

  /** Leaving the active reservation for `target`. */
  function LeaveIn(reference: Reference, identity: Identity, attempt: string, target: ActionState)
    : (Reference, Calls.Outcome)
  {
    var held := Held(reference, identity, attempt);
    if held.Err? then (reference, Err(held.error))
    else
      var action := held.value.(state := target);
      (Put(reference, action), Ok(Calls.Updated(action)))
  }

  function ConfirmNoEffectIn(reference: Reference, identity: Identity, reconciliationRef: string)
    : (Reference, Calls.Outcome)
  {
    if !Canonical(reconciliationRef) then (reference, Err(NotCanonical("reconciliation_ref")))
    else if identity !in reference.actions then (reference, Err(NoReservation))
    else if reference.actions[identity].state != OutcomeUnknown then (reference, Err(RequiresOutcomeUnknown))
    else
      var action := reference.actions[identity].(state := ConfirmedNoEffect);
      (Put(reference, action), Ok(Calls.Updated(action)))
  }

  function ConfirmSuccessIn(reference: Reference, identity: Identity, attempt: string, receipt: Receipt)
    : (Reference, Calls.Outcome)
  {
    var verified := VerifyReceipt(receipt, identity);
    if verified.Err? then (reference, Err(verified.error))
    else if receipt.attemptId != attempt then (reference, Err(AttemptMismatch))
    else if identity !in reference.actions then (reference, Err(NoReservation))
    else if reference.actions[identity].state != OutcomeUnknown then (reference, Err(RequiresOutcomeUnknown))
    else if reference.actions[identity].owner != attempt then (reference, Err(NotOwner))
    else
      var action := reference.actions[identity].(state := ConfirmedExternalSuccess, receipt := Some(receipt));
      (Put(reference, action), Ok(Calls.Updated(action)))
  }

  function RecoverReceiptIn(reference: Reference, identity: Identity, receipt: Receipt, reconciliationRef: string)
    : (Reference, Calls.Outcome)
  {
    var verified := VerifyReceipt(receipt, identity);
    if verified.Err? then (reference, Err(verified.error))
    else if !Canonical(reconciliationRef) then (reference, Err(NotCanonical("reconciliation_ref")))
    else if identity !in reference.actions then (reference, Err(NoReservation))
    else if reference.actions[identity].state != OutcomeUnknown then (reference, Err(RequiresOutcomeUnknown))
    else if receipt.attemptId != reference.actions[identity].owner then (reference, Err(AttemptMismatch))
    else
      var action := reference.actions[identity].(state := ReceiptRecovered, receipt := Some(receipt));
      (Put(reference, action), Ok(Calls.Updated(action)))
  }

  /** One operation on the dictionaries. `begin_dispatch` takes no dispatch reference here, and
      `mark_outcome_unknown` is the same operation. */
  function ApplyTo(reference: Reference, identity: Identity, op: Calls.Operation): (Reference, Calls.Outcome) {
    match op
    case Reserve(attempt) => ReserveIn(reference, identity, attempt)
    case BeginDispatch(attempt, _, _) => LeaveIn(reference, identity, attempt, OutcomeUnknown)
    case MarkPreEffectFailed(attempt) => LeaveIn(reference, identity, attempt, PreEffectFailed)
    case MarkOutcomeUnknown(attempt) => LeaveIn(reference, identity, attempt, OutcomeUnknown)
    case ConfirmNoEffect(reconciliationRef) => ConfirmNoEffectIn(reference, identity, reconciliationRef)
    case ConfirmSuccess(attempt, receipt) => ConfirmSuccessIn(reference, identity, attempt, receipt)
    case RecoverReceipt(receipt, reconciliationRef) => RecoverReceiptIn(reference, identity, receipt, reconciliationRef)
  }

  /** An operation leaves the dictionaries alone or records one action of its own identity. */
  lemma ApplyPutsOwnAction(reference: Reference, identity: Identity, op: Calls.Operation)
    requires Consistent(reference)
    ensures var (next, outcome) := ApplyTo(reference, identity, op);
            && (outcome.Err? ==> next == reference)
            && (outcome.Ok? ==>
                  && (outcome.value.Updated? || outcome.value.Reservation?)
                  && outcome.value.action.identity == identity
                  && (next == reference ==> identity in reference.actions && reference.actions[identity] == outcome.value.action)
                  && (next != reference ==> next == Put(reference, outcome.value.action))
                  && (ScopeOf(identity) in reference.keys ==> reference.keys[ScopeOf(identity)] == identity))
  {
    if identity in reference.actions {
      assert reference.actions[identity].identity == identity;
    }
  }

  /** Every operation keeps the two dictionaries matched; the identity a scope was first reserved
      with stays its only one; other actions stay as they were. */
  lemma ApplyKeepsConsistent(reference: Reference, identity: Identity, op: Calls.Operation)
    requires Consistent(reference)
    ensures var (next, outcome) := ApplyTo(reference, identity, op);
            && Consistent(next)
            && (forall scope :: scope in reference.keys ==> scope in next.keys && next.keys[scope] == reference.keys[scope])
            && (forall other :: other in reference.actions && other != identity ==>
                  other in next.actions && next.actions[other] == reference.actions[other])
            && (outcome.Ok? ==> ScopeOf(identity) in next.keys && next.keys[ScopeOf(identity)] == identity)
  {
    ApplyPutsOwnAction(reference, identity, op);
    var (next, outcome) := ApplyTo(reference, identity, op);
    if outcome.Ok? && next != reference { PutKeepsConsistent(reference, outcome.value.action); }
  }

  /** A mutable action record. */
  class CoordinatedAction {
    var identity: Identity
    var state: ActionState
    var owner: string
    var attemptCount: nat
    var receipt: Option<Receipt>

    constructor (identity: Identity, owner: string)
      ensures View() == Action(identity, Reserved, owner, 1, None)
    {
      this.identity := identity;
      this.state := Reserved;
      this.owner := owner;
      this.attemptCount := 1;
      this.receipt := None;
    }

    function View(): Action
      reads this
    {
      Action(identity, state, owner, attemptCount, receipt)
    }
  }

  class SafeExternalActionCoordinator {
    var records: map<Identity, CoordinatedAction>
    var logicalKeys: map<Scope, Identity>

    constructor ()
      ensures Contents() == EMPTY && Valid()
    {
      records, logicalKeys := map[], map[];
    }

    /** The dictionaries as a value. */
    ghost function Contents(): Reference
      reads this, records.Values
    {
      Reference(map identity | identity in records :: records[identity].View(), logicalKeys)
    }

    ghost predicate Valid()
      reads this, records.Values
    {
      Consistent(Contents())
    }

    /** Changing the fields of one stored record replaces exactly that action in the dictionaries. */
    twostate lemma InPlaceUpdate(identity: Identity)
      requires old(Valid()) && unchanged(this) && identity in records && records[identity].identity == identity
      requires forall other :: other in records && records[other] != records[identity] ==> unchanged(records[other])
      ensures Valid() && Contents() == Put(old(Contents()), records[identity].View())
    {
      var before := old(Contents());
      assert before.actions[identity].identity == identity;
      forall other | other in records && other != identity ensures records[other] != records[identity] {
        assert before.actions[other].identity == other;
      }
      assert Contents().actions == before.actions[identity := records[identity].View()];
      assert before.keys[ScopeOf(identity) := identity] == before.keys;
      PutKeepsConsistent(before, records[identity].View());
    }

    method Require(identity: Identity) returns (found: Result<CoordinatedAction, Error>)
      ensures found == if identity in records then Ok(records[identity]) else Err(NoReservation)
    {
      if identity !in records { return Err(NoReservation); }
      return Ok(records[identity]);
    }

    method Owned(identity: Identity, attempt: string) returns (found: Result<CoordinatedAction, Error>)
      ensures var held := Held(Contents(), identity, attempt);
              if held.Err? then found == Err(held.error) else identity in records && found == Ok(records[identity])
    {
      var record := Require(identity);
      if record.Err? { return record; }
      if record.value.state != Reserved { return Err(NotInvokable); }
      if record.value.owner != attempt { return Err(NotOwner); }
      return record;
    }

    /** The caller receives the stored record itself, not a copy. */
    ghost predicate Returns(result: Result<CoordinatedAction, Error>, identity: Identity, outcome: Calls.Outcome)
      reads this, records.Values
    {
      match result
      case Err(e) => outcome == Err(e)
      case Ok(record) => identity in records && record == records[identity] && outcome == Ok(Calls.Updated(record.View()))
    }

    method Reserve(identity: Identity, attempt: string)
      returns (result: Result<(Disposition, CoordinatedAction), Error>)
      requires Valid()
      modifies this, records.Values
      ensures Valid()
      ensures fresh(records.Values - old(records.Values))
      ensures Contents() == ReserveIn(old(Contents()), identity, attempt).0
      ensures var outcome := ReserveIn(old(Contents()), identity, attempt).1;
              match result
              case Err(e) => outcome == Err(e)
              case Ok((disposition, record)) =>
                identity in records && record == records[identity] && outcome == Ok(Calls.Reservation(disposition, record.View()))
    {
      if !Canonical(attempt) { return Err(NotCanonical("attempt_id")); }
      var scope := ScopeOf(identity);
      if scope in logicalKeys && logicalKeys[scope] != identity { return Err(IdempotencyConflict); }
      if identity !in records {
        var record := Register(identity, attempt);
        return Ok((InvokeAllowed, record));
      }
      var existing := records[identity];
      if Confirmed(existing.state) { return Ok((ReplayConfirmed, existing)); }
      if existing.state == OutcomeUnknown { return Ok((ReconcileRequired, existing)); }
      if existing.state == Reserved { return Ok((InProgress, existing)); }
      Retake(identity, attempt);
      return Ok((InvokeAllowed, existing));
    }

    /** Enters a new action into both dictionaries. */
    method Register(identity: Identity, attempt: string) returns (record: CoordinatedAction)
      requires Valid() && identity !in records
      requires ScopeOf(identity) in logicalKeys ==> logicalKeys[ScopeOf(identity)] == identity
      modifies this
      ensures Valid() && fresh(record)
      ensures records == old(records)[identity := record]
      ensures record.View() == Action(identity, Reserved, attempt, 1, None)
      ensures Contents() == Put(old(Contents()), record.View())
    {
      ghost var before := Contents();
      record := new CoordinatedAction(identity, attempt);
      records := records[identity := record];
      logicalKeys := logicalKeys[ScopeOf(identity) := identity];
      assert Contents().actions == before.actions[identity := record.View()];
      PutKeepsConsistent(before, record.View());
    }

    /** Hands a retryable action to a new attempt. */
    method Retake(identity: Identity, attempt: string)
      requires Valid() && identity in records
      modifies records[identity]
      ensures Valid()
      ensures Contents() == Put(old(Contents()), records[identity].View())
      ensures var action := old(records[identity].View());
              records[identity].View()
              == action.(state := Reserved, owner := attempt, attemptCount := action.attemptCount + 1, receipt := None)
    {
      assert Contents().actions[identity].identity == identity;
      var existing := records[identity];
      existing.state := Reserved;
      existing.owner := attempt;
      existing.attemptCount := existing.attemptCount + 1;
      existing.receipt := None;
      InPlaceUpdate(identity);
    }

    /** Moves the owned reservation to `target`. */
    method Leave(identity: Identity, attempt: string, target: ActionState)
      returns (result: Result<CoordinatedAction, Error>)
      requires Valid() && (target == OutcomeUnknown || target == PreEffectFailed)
      modifies records.Values
      ensures Valid()
      ensures Contents() == LeaveIn(old(Contents()), identity, attempt, target).0
      ensures Returns(result, identity, LeaveIn(old(Contents()), identity, attempt, target).1)
    {
      result := Owned(identity, attempt);
      if result.Err? { return; }
      result.value.state := target;
      InPlaceUpdate(identity);
    }

    method BeginDispatch(identity: Identity, attempt: string) returns (result: Result<CoordinatedAction, Error>)
      requires Valid()
      modifies records.Values
      ensures Valid()
      ensures Contents() == LeaveIn(old(Contents()), identity, attempt, OutcomeUnknown).0
      ensures Returns(result, identity, LeaveIn(old(Contents()), identity, attempt, OutcomeUnknown).1)
    {
      result := Leave(identity, attempt, OutcomeUnknown);
    }

    method MarkPreEffectFailed(identity: Identity, attempt: string) returns (result: Result<CoordinatedAction, Error>)
      requires Valid()
      modifies records.Values
      ensures Valid()
      ensures Contents() == LeaveIn(old(Contents()), identity, attempt, PreEffectFailed).0
      ensures Returns(result, identity, LeaveIn(old(Contents()), identity, attempt, PreEffectFailed).1)
    {
      result := Leave(identity, attempt, PreEffectFailed);
    }

    method MarkOutcomeUnknown(identity: Identity, attempt: string) returns (result: Result<CoordinatedAction, Error>)
      requires Valid()
      modifies records.Values
      ensures Valid()
      ensures Contents() == LeaveIn(old(Contents()), identity, attempt, OutcomeUnknown).0
      ensures Returns(result, identity, LeaveIn(old(Contents()), identity, attempt, OutcomeUnknown).1)
    {
      result := BeginDispatch(identity, attempt);
    }

    method ConfirmNoEffect(identity: Identity, reconciliationRef: string)
      returns (result: Result<CoordinatedAction, Error>)
      requires Valid()
      modifies records.Values
      ensures Valid()
      ensures Contents() == ConfirmNoEffectIn(old(Contents()), identity, reconciliationRef).0
      ensures Returns(result, identity, ConfirmNoEffectIn(old(Contents()), identity, reconciliationRef).1)
    {
      if !Canonical(reconciliationRef) { return Err(NotCanonical("reconciliation_ref")); }
      result := Require(identity);
      if result.Err? { return; }
      if result.value.state != OutcomeUnknown { return Err(RequiresOutcomeUnknown); }
      result.value.state := ConfirmedNoEffect;
      InPlaceUpdate(identity);
    }

    method ConfirmSuccess(identity: Identity, attempt: string, receipt: Receipt)
      returns (result: Result<CoordinatedAction, Error>)
      requires Valid()
      modifies records.Values
      ensures Valid()
      ensures Contents() == ConfirmSuccessIn(old(Contents()), identity, attempt, receipt).0
      ensures Returns(result, identity, ConfirmSuccessIn(old(Contents()), identity, attempt, receipt).1)
    {
      var verified := VerifyReceipt(receipt, identity);
      if verified.Err? { return Err(verified.error); }
      if receipt.attemptId != attempt { return Err(AttemptMismatch); }
      result := Require(identity);
      if result.Err? { return; }
      if result.value.state != OutcomeUnknown { return Err(RequiresOutcomeUnknown); }
      if result.value.owner != attempt { return Err(NotOwner); }
      result.value.state := ConfirmedExternalSuccess;
      result.value.receipt := Some(receipt);
      InPlaceUpdate(identity);
    }

    method RecoverReceipt(identity: Identity, receipt: Receipt, reconciliationRef: string)
      returns (result: Result<CoordinatedAction, Error>)
      requires Valid()
      modifies records.Values
      ensures Valid()
      ensures Contents() == RecoverReceiptIn(old(Contents()), identity, receipt, reconciliationRef).0
      ensures Returns(result, identity, RecoverReceiptIn(old(Contents()), identity, receipt, reconciliationRef).1)
    {
      var verified := VerifyReceipt(receipt, identity);
      if verified.Err? { return Err(verified.error); }
      if !Canonical(reconciliationRef) { return Err(NotCanonical("reconciliation_ref")); }
      result := Require(identity);
      if result.Err? { return; }
      if result.value.state != OutcomeUnknown { return Err(RequiresOutcomeUnknown); }
      if receipt.attemptId != result.value.owner { return Err(AttemptMismatch); }
      result.value.state := ReceiptRecovered;
      result.value.receipt := Some(receipt);
      InPlaceUpdate(identity);
    }
  }
}
