/**
  One call of a public coordinator method as a small state machine.

  A call holds only what the method holds in local variables: its arguments, the state and head
  that earlier reads returned, and where it stands. `Step` performs exactly one store access, a
  read of the log or one compare-and-append, together with the computing up to the next access.
  Between two steps of a call any other call may step.
 */
module ActionCalls {
  import opened Prelude
  import opened ExternalActions
  import opened ProvenanceLog

  /** The log of external actions. */
  type Entry = LogEntry<Scope, Record>

  type Digest = LogDigest<Scope, Record>

  datatype Operation =
    | Reserve(attempt: string)
    | BeginDispatch(attempt: string, dispatchRef: string, startedAt: Moment)
    | MarkPreEffectFailed(attempt: string)
    | MarkOutcomeUnknown(attempt: string)
    | ConfirmNoEffect(reconciliationRef: string)
    | ConfirmSuccess(attempt: string, receipt: Receipt)
    | RecoverReceipt(receipt: Receipt, reconciliationRef: string)

  /** Whether the operation was called directly or is a stage of `execute`. The provider's answer
      to the one invocation that `execute` may make is fixed in advance; None means it raises. */
  datatype Mode = Direct | Executing(attempt: string, dispatchRef: string, now: int, answer: Option<Receipt>)

  datatype Answer =
    | Updated(action: Action)
    | Reservation(disposition: Disposition, action: Action)
    | Delivered(receipt: Receipt)

  type Outcome = Result<Answer, Error>

  /** Where a call stands. The heads and states are the values its earlier reads returned. */
  datatype Pc =
    | ReserveRead(retry: nat)
    | ReserveAppend(retry: nat, head: Digest, opening: bool)
    | ReserveReread
    | DispatchRead
    | DispatchRecords(current: Action, head: Digest)
    | DispatchOwned(head: Digest)
    | DispatchAppend(head: Digest)
    | DispatchWinner
    | DispatchWinnerRecords(winner: Option<Action>)
    | DispatchReread
    | MarkRead
    | MarkOwned(head: Digest)
    | MarkAppend(head: Digest)
    | ConfirmRead
    | ConfirmAppend(head: Digest)
    | ConfirmWinner
    | Reread
    | InvokeProvider
    | Done(outcome: Outcome)

  /** A call in flight. `invoked` and `began` (the stream's length when the call started) are
      history: no step reads them. */
  datatype Call = Call(identity: Identity, mode: Mode, op: Operation, pc: Pc, invoked: bool, began: nat)

  datatype Loaded = Loaded(current: Option<Action>, head: Digest)

  /** One read of the coordinator's own stream. */
  function Load(log: seq<Entry>, identity: Identity): Result<Loaded, Error> {
    var scope := ScopeOf(identity);
    var replayed := LoadRecords(identity, Stream(log, scope));
    if replayed.Err? then Err(replayed.error) else Ok(Loaded(replayed.value, HeadOf(log, scope)))
  }

  // ---------------------------------------------------------------- what each operation writes

  function EmptyPayload(identity: Identity): Payload {
    Payload(SCHEMA, DigestOf(identity), None, None, None, None, None, None)
  }

  /** The record an operation appends; `opening` is whether the reservation opens its stream. */
  function RecordFor(identity: Identity, op: Operation, opening: bool): Record {
    var base := EmptyPayload(identity);
    match op
    case Reserve(attempt) =>
      Record(ReservedEvent, base.(attemptId := Some(attempt), identity := if opening then Some(identity) else None))
    case BeginDispatch(attempt, dispatchRef, startedAt) =>
      Record(DispatchedEvent,
             base.(attemptId := Some(attempt), dispatchRef := Some(dispatchRef), startedAt := Some(startedAt)))
    case MarkPreEffectFailed(attempt) => Record(PreEffectFailedEvent, base.(attemptId := Some(attempt)))
    case MarkOutcomeUnknown(attempt) => Record(OutcomeUnknownEvent, base.(attemptId := Some(attempt)))
    case ConfirmNoEffect(reference) => Record(ConfirmedNoEffectEvent, base.(reconciliationRef := Some(reference)))
    case ConfirmSuccess(attempt, receipt) =>
      Record(ConfirmedSuccessEvent, base.(attemptId := Some(attempt), receipt := Some(receipt)))
    case RecoverReceipt(receipt, reference) =>
      Record(ReceiptRecoveredEvent, base.(receipt := Some(receipt), reconciliationRef := Some(reference)))
  }

  // ---------------------------------------------------------------- decisions between accesses

  datatype Move = Goto(pc: Pc) | Finish(outcome: Outcome)

  /** The checks an operation makes on its arguments before it touches the store. */
  function Start(identity: Identity, op: Operation): Move {
    match op
    case Reserve(attempt) =>
      if Canonical(attempt) then Goto(ReserveRead(0)) else Finish(Err(NotCanonical("attempt_id")))
    case BeginDispatch(attempt, dispatchRef, _) =>
      if !Canonical(attempt) then Finish(Err(NotCanonical("attempt_id")))
      else if !Canonical(dispatchRef) then Finish(Err(NotCanonical("dispatch_ref")))
      else Goto(DispatchRead)
    case MarkPreEffectFailed(attempt) =>
      if Canonical(attempt) then Goto(MarkRead) else Finish(Err(NotCanonical("attempt_id")))
    case MarkOutcomeUnknown(attempt) =>
      if Canonical(attempt) then Goto(MarkRead) else Finish(Err(NotCanonical("attempt_id")))
    case ConfirmNoEffect(reference) =>
      if Canonical(reference) then Goto(ConfirmRead) else Finish(Err(NotCanonical("reconciliation_ref")))
    case ConfirmSuccess(attempt, receipt) =>
      var verified := VerifyReceipt(receipt, identity);
      if verified.Err? then Finish(Err(verified.error))
      else if !Canonical(attempt) then Finish(Err(NotCanonical("attempt_id")))
      else if receipt.attemptId != attempt then Finish(Err(AttemptMismatch))
      else Goto(ConfirmRead)
    case RecoverReceipt(receipt, reference) =>
      var verified := VerifyReceipt(receipt, identity);
      if verified.Err? then Finish(Err(verified.error))
      else if !Canonical(reference) then Finish(Err(NotCanonical("reconciliation_ref")))
      else Goto(ConfirmRead)
  }

  /** The ownership check that begin_dispatch and the mark methods make on a read of their own. */
  function Owned(current: Option<Action>, attempt: string): Result<Action, Error> {
    if current.None? then Err(NoReservation)
    else if current.value.state != Reserved then Err(NotInvokable)
    else if current.value.owner != attempt then Err(NotOwner)
    else Ok(current.value)
  }

  function OnReserveRead(retry: nat, loaded: Loaded): Move {
    if loaded.current.None? then Goto(ReserveAppend(retry, loaded.head, true))
    else
      var action := loaded.current.value;
      match action.state
      case ConfirmedExternalSuccess => Finish(Ok(Reservation(ReplayConfirmed, action)))
      case ReceiptRecovered => Finish(Ok(Reservation(ReplayConfirmed, action)))
      case OutcomeUnknown => Finish(Ok(Reservation(ReconcileRequired, action)))
      case Reserved => Finish(Ok(Reservation(InProgress, action)))
      case PreEffectFailed => Goto(ReserveAppend(retry, loaded.head, false))
      case ConfirmedNoEffect => Goto(ReserveAppend(retry, loaded.head, false))
  }

  function OnReserveReread(attempt: string, current: Option<Action>): Outcome {
    if current.None? || current.value.state != Reserved then Err(ReservationVerificationFailed)
    else if current.value.owner != attempt then Err(ReservationOwnerMismatch)
    else Ok(Reservation(InvokeAllowed, current.value))
  }

  predicate IsDispatchBy(record: Record, attempt: string, dispatchRef: string) {
    && record.event == DispatchedEvent
    && record.payload.attemptId == Some(attempt)
    && record.payload.dispatchRef == Some(dispatchRef)
  }

  function OnDispatchRecords(attempt: string, dispatchRef: string, current: Action, head: Digest,
                             records: seq<Record>): Move {
    if |records| > MAX_TRANSITIONS then Finish(Err(TransitionLimitExceeded))
    else if current.state == OutcomeUnknown && records != [] then
      if IsDispatchBy(records[|records| - 1], attempt, dispatchRef) then Finish(Ok(Updated(current)))
      else Finish(Err(OutcomeAlreadyUnknown))
    else Goto(DispatchOwned(head))
  }

  function OnDispatchOwned(attempt: string, startedAt: Moment, current: Option<Action>, head: Digest): Move {
    var owned := Owned(current, attempt);
    if owned.Err? then Finish(Err(owned.error))
    else if !startedAt.aware then Finish(Err(NaiveTimestamp))
    else Goto(DispatchAppend(head))
  }

  function OnDispatchWinner(attempt: string, dispatchRef: string, winner: Option<Action>,
                            records: seq<Record>): Outcome {
    if |records| > MAX_TRANSITIONS then Err(TransitionLimitExceeded)
    else if winner.None? || records == [] then Err(LostCompareAndAppend)
    else
      var last := records[|records| - 1];
      if last.event == DispatchedEvent && winner.value.owner == attempt
         && last.payload.dispatchRef == Some(dispatchRef)
      then Ok(Updated(winner.value))
      else Err(LostCompareAndAppend)
  }

  function OnDispatchReread(current: Option<Action>): Outcome {
    if current.None? || current.value.state != OutcomeUnknown then Err(DispatchVerificationFailed)
    else Ok(Updated(current.value))
  }

  /** The state a mark method leads to, and the attempt it is called for. */
  function MarkTarget(op: Operation): (ActionState, string)
    requires op.MarkPreEffectFailed? || op.MarkOutcomeUnknown?
  {
    if op.MarkPreEffectFailed? then (PreEffectFailed, op.attempt) else (OutcomeUnknown, op.attempt)
  }

  function OnMarkRead(op: Operation, loaded: Loaded): Move
    requires op.MarkPreEffectFailed? || op.MarkOutcomeUnknown?
  {
    var (target, attempt) := MarkTarget(op);
    if loaded.current.Some? && loaded.current.value.state == target && loaded.current.value.owner == attempt
    then Finish(Ok(Updated(loaded.current.value)))
    else Goto(MarkOwned(loaded.head))
  }

  function OnMarkOwned(op: Operation, current: Option<Action>, head: Digest): Move
    requires op.MarkPreEffectFailed? || op.MarkOutcomeUnknown?
  {
    var owned := Owned(current, op.attempt);
    if owned.Err? then Finish(Err(owned.error)) else Goto(MarkAppend(head))
  }

  predicate IsConfirmation(op: Operation) {
    op.ConfirmNoEffect? || op.ConfirmSuccess? || op.RecoverReceipt?
  }

  function OnConfirmRead(op: Operation, loaded: Loaded): Move
    requires IsConfirmation(op)
  {
    if loaded.current.None? then Finish(Err(NoReservation))
    else
      var action := loaded.current.value;
      match op
      case ConfirmNoEffect(_) =>
        if action.state == ConfirmedNoEffect then Finish(Ok(Updated(action)))
        else if action.state != OutcomeUnknown then Finish(Err(RequiresOutcomeUnknown))
        else Goto(ConfirmAppend(loaded.head))
      case ConfirmSuccess(attempt, receipt) =>
        if Confirmed(action.state) then
          if action.receipt == Some(receipt) then Finish(Ok(Updated(action))) else Finish(Err(DifferentReceipt))
        else if action.state != OutcomeUnknown then Finish(Err(RequiresOutcomeUnknown))
        else if action.owner != attempt then Finish(Err(NotOwner))
        else Goto(ConfirmAppend(loaded.head))
      case RecoverReceipt(receipt, _) =>
        if Confirmed(action.state) then
          if action.receipt == Some(receipt) then Finish(Ok(Updated(action))) else Finish(Err(DifferentReceipt))
        else if action.state != OutcomeUnknown then Finish(Err(RequiresOutcomeUnknown))
        else if receipt.attemptId != action.owner then Finish(Err(AttemptMismatch))
        else Goto(ConfirmAppend(loaded.head))
  }

  function OnConfirmWinner(op: Operation, winner: Option<Action>): Outcome
    requires IsConfirmation(op)
  {
    if winner.None? then Err(LostCompareAndAppend)
    else if op.ConfirmNoEffect? then
      if winner.value.state == ConfirmedNoEffect then Ok(Updated(winner.value)) else Err(LostCompareAndAppend)
    else if Confirmed(winner.value.state) && winner.value.receipt == Some(op.receipt) then Ok(Updated(winner.value))
    else Err(LostCompareAndAppend)
  }

  function OnReread(current: Option<Action>): Outcome {
    if current.None? then Err(RecordDisappeared) else Ok(Updated(current.value))
  }

  // ---------------------------------------------------------------- one atomic step

  predicate WellPlaced(op: Operation, pc: Pc) {
    match pc
    case ReserveRead(_) => op.Reserve?
    case ReserveAppend(_, _, _) => op.Reserve?
    case ReserveReread => op.Reserve?
    case DispatchRead => op.BeginDispatch?
    case DispatchRecords(_, _) => op.BeginDispatch?
    case DispatchOwned(_) => op.BeginDispatch?
    case DispatchAppend(_) => op.BeginDispatch?
    case DispatchWinner => op.BeginDispatch?
    case DispatchWinnerRecords(_) => op.BeginDispatch?
    case DispatchReread => op.BeginDispatch?
    case MarkRead => op.MarkPreEffectFailed? || op.MarkOutcomeUnknown?
    case MarkOwned(_) => op.MarkPreEffectFailed? || op.MarkOutcomeUnknown?
    case MarkAppend(_) => op.MarkPreEffectFailed? || op.MarkOutcomeUnknown?
    case ConfirmRead => IsConfirmation(op)
    case ConfirmAppend(_) => IsConfirmation(op)
    case ConfirmWinner => IsConfirmation(op)
    case Reread => op.MarkPreEffectFailed? || op.MarkOutcomeUnknown? || IsConfirmation(op)
    case InvokeProvider => op.BeginDispatch?
    case Done(_) => true
  }

  predicate IsAppend(pc: Pc) {
    pc.ReserveAppend? || pc.DispatchAppend? || pc.MarkAppend? || pc.ConfirmAppend?
  }

  /** Places whose store access is one replaying read. */
  predicate Loads(pc: Pc) {
    && !IsAppend(pc) && !pc.DispatchRecords? && !pc.DispatchWinnerRecords? && !pc.InvokeProvider? && !pc.Done?
  }

  /** Where a call continues after its compare-and-append landed, and after it lost. */
  function AfterAppend(pc: Pc, landed: bool): Move
    requires IsAppend(pc)
  {
    match pc
    case ReserveAppend(retry, _, _) =>
      if landed then Goto(ReserveReread)
      else if retry < 3 then Goto(ReserveRead(retry + 1))
      else Finish(Err(LostRepeatedRaces))
    case DispatchAppend(_) => if landed then Goto(DispatchReread) else Goto(DispatchWinner)
    case MarkAppend(_) => if landed then Goto(Reread) else Finish(Err(LostCompareAndAppend))
    case ConfirmAppend(_) => if landed then Goto(Reread) else Goto(ConfirmWinner)
  }

  /** The move after a read that returned `loaded`. */
  function AfterLoad(op: Operation, pc: Pc, loaded: Loaded): Move
    requires WellPlaced(op, pc) && Loads(pc)
  {
    match pc
    case ReserveRead(retry) => OnReserveRead(retry, loaded)
    case ReserveReread => Finish(OnReserveReread(op.attempt, loaded.current))
    case DispatchRead =>
      if loaded.current.None? then Finish(Err(NoReservation))
      else Goto(DispatchRecords(loaded.current.value, loaded.head))
    case DispatchOwned(head) => OnDispatchOwned(op.attempt, op.startedAt, loaded.current, head)
    case DispatchWinner => Goto(DispatchWinnerRecords(loaded.current))
    case DispatchReread => Finish(OnDispatchReread(loaded.current))
    case MarkRead => OnMarkRead(op, loaded)
    case MarkOwned(head) => OnMarkOwned(op, loaded.current, head)
    case ConfirmRead => OnConfirmRead(op, loaded)
    case ConfirmWinner => Finish(OnConfirmWinner(op, loaded.current))
    case Reread => Finish(OnReread(loaded.current))
  }

  /** One store access of an operation: where it continues, and the log afterwards. */
  function Access(identity: Identity, op: Operation, pc: Pc, log: seq<Entry>): (Move, seq<Entry>)
    requires WellPlaced(op, pc) && !pc.InvokeProvider? && !pc.Done?
  {
    var scope := ScopeOf(identity);
    if IsAppend(pc) then
      var entry := Entry(scope, RecordFor(identity, op, pc.ReserveAppend? && pc.opening));
      var appended := CompareAndAppend(log, entry, pc.head);
      (AfterAppend(pc, appended.Some?), if appended.Some? then appended.value else log)
    else if pc.DispatchRecords? then
      (OnDispatchRecords(op.attempt, op.dispatchRef, pc.current, pc.head, Stream(log, scope)), log)
    else if pc.DispatchWinnerRecords? then
      (Finish(OnDispatchWinner(op.attempt, op.dispatchRef, pc.winner, Stream(log, scope))), log)
    else
      var loaded := Load(log, identity);
      (if loaded.Err? then Finish(Err(loaded.error)) else AfterLoad(op, pc, loaded.value), log)
  }

  /** Continue a call with a stage of `execute`, or with the one operation it was called for. */
  function Enter(call: Call, op: Operation): Call {
    var next := call.(op := op);
    match Start(call.identity, op)
    case Goto(pc) => next.(pc := pc)
    case Finish(outcome) => next.(pc := Done(outcome))
  }

  /** What a finished operation means for its call: the answer itself, or, inside `execute`, the
      next stage. */
  function Conclude(call: Call, outcome: Outcome): Call {
    if call.mode.Direct? || outcome.Err? then call.(pc := Done(outcome))
    else
      var mode := call.mode;
      match outcome.value
      case Reservation(ReplayConfirmed, action) =>
        call.(pc := Done(if action.receipt.None? then Err(ConfirmedWithoutReceipt)
                         else Ok(Delivered(action.receipt.value))))
      case Reservation(InvokeAllowed, _) =>
        Enter(call, BeginDispatch(mode.attempt, mode.dispatchRef, Moment(mode.now, true)))
      case Reservation(disposition, _) => call.(pc := Done(Err(ProviderForbidden(disposition))))
      case Updated(action) =>
        if call.op.ConfirmSuccess? then
          call.(pc := Done(Ok(Delivered(if action.receipt.Some? then action.receipt.value else call.op.receipt))))
        else if call.op.BeginDispatch? then call.(pc := InvokeProvider)
        else call.(pc := Done(outcome))
      case Delivered(_) => call.(pc := Done(outcome))
  }

  function Settle(call: Call, move: Move): Call {
    match move
    case Goto(pc) => call.(pc := pc)
    case Finish(outcome) => Conclude(call, outcome)
  }

  /** The provider is invoked; its answer leads to the confirmation stage. */
  function Invoke(call: Call): Call
    requires call.mode.Executing?
  {
    var invoked := call.(invoked := true);
    if call.mode.answer.None? then invoked.(pc := Done(Err(ProviderRaised)))
    else Enter(invoked, ConfirmSuccess(call.mode.attempt, call.mode.answer.value))
  }

  /** The shape every call keeps: its operation fits where it stands, and the stages of `execute`
      use the arguments it was called with. */
  predicate WellFormed(call: Call) {
    && WellPlaced(call.op, call.pc)
    && (call.pc.InvokeProvider? ==> call.mode.Executing?)
    && (call.mode.Executing? ==>
          || call.op == Reserve(call.mode.attempt)
          || call.op == BeginDispatch(call.mode.attempt, call.mode.dispatchRef, Moment(call.mode.now, true))
          || (call.mode.answer.Some? && call.op == ConfirmSuccess(call.mode.attempt, call.mode.answer.value)))
  }

  /** One atomic step of a call that has not returned yet. */
  function Step(call: Call, log: seq<Entry>): (result: (Call, seq<Entry>))
    requires WellFormed(call) && !call.pc.Done?
  {
    if call.pc.InvokeProvider? then (Invoke(call), log)
    else
      var (move, next) := Access(call.identity, call.op, call.pc, log);
      (Settle(call, move), next)
  }

  function DirectCall(identity: Identity, op: Operation, began: nat): Call {
    Enter(Call(identity, Direct, op, Done(Err(NoReservation)), false, began), op)
  }

  function ExecuteCall(identity: Identity, mode: Mode, began: nat): Call
    requires mode.Executing?
  {
    Enter(Call(identity, mode, Reserve(mode.attempt), Done(Err(NoReservation)), false, began), Reserve(mode.attempt))
  }

  // ---------------------------------------------------------------- facts about single steps

  lemma AccessStaysInOperation(identity: Identity, op: Operation, pc: Pc, log: seq<Entry>)
    requires WellPlaced(op, pc) && !pc.InvokeProvider? && !pc.Done?
    ensures var (move, _) := Access(identity, op, pc, log);
            move.Goto? ==> WellPlaced(op, move.pc) && !move.pc.InvokeProvider? && Remaining(move.pc) < Remaining(pc)
  {
  }

  lemma StartIsWellPlaced(identity: Identity, op: Operation)
    ensures var move := Start(identity, op);
            match move
            case Goto(pc) =>
              WellPlaced(op, pc) && !pc.InvokeProvider?
              && Remaining(pc) == if op.Reserve? then 9 else if op.BeginDispatch? then 6 else if IsConfirmation(op) then 3 else 4
            case Finish(outcome) => outcome.Err?
  {
  }

  lemma ConcludeKeepsForm(call: Call, outcome: Outcome)
    requires WellFormed(call)
    ensures var next := Conclude(call, outcome);
            WellFormed(next) && next.identity == call.identity && next.mode == call.mode && next.began == call.began
  {
    if call.mode.Executing? {
      StartIsWellPlaced(call.identity, BeginDispatch(call.mode.attempt, call.mode.dispatchRef, Moment(call.mode.now, true)));
    }
  }

  lemma StepKeepsForm(call: Call, log: seq<Entry>)
    requires WellFormed(call) && !call.pc.Done?
    ensures var next := Step(call, log).0;
            WellFormed(next) && next.identity == call.identity && next.mode == call.mode && next.began == call.began
  {
    if call.pc.InvokeProvider? {
      if call.mode.answer.Some? {
        StartIsWellPlaced(call.identity, ConfirmSuccess(call.mode.attempt, call.mode.answer.value));
      }
    } else {
      AccessStaysInOperation(call.identity, call.op, call.pc, log);
      var move := Access(call.identity, call.op, call.pc, log).0;
      if move.Finish? { ConcludeKeepsForm(call, move.outcome); }
    }
  }

  /** A step appends at most one record, to the caller's own stream, and only by a landed
      compare-and-append. */
  lemma StepAppends(call: Call, log: seq<Entry>)
    requires WellFormed(call) && !call.pc.Done?
    ensures var (_, after) := Step(call, log);
            after == log
            || (IsAppend(call.pc) && HeadOf(log, ScopeOf(call.identity)) == call.pc.head
                && after == log + [Entry(ScopeOf(call.identity),
                                         RecordFor(call.identity, call.op, call.pc.ReserveAppend? && call.pc.opening))])
  {
  }

  // ---------------------------------------------------------------- every call returns

  /** Store accesses that an operation can still make. */
  function Remaining(pc: Pc): nat {
    match pc
    case ReserveRead(retry) => if retry <= 3 then 9 - 2 * retry else 3
    case ReserveAppend(retry, _, _) => if retry <= 3 then 8 - 2 * retry else 2
    case ReserveReread => 1
    case DispatchRead => 6
    case DispatchRecords(_, _) => 5
    case DispatchOwned(_) => 4
    case DispatchAppend(_) => 3
    case DispatchWinner => 2
    case DispatchWinnerRecords(_) => 1
    case DispatchReread => 1
    case MarkRead => 4
    case MarkOwned(_) => 3
    case MarkAppend(_) => 2
    case ConfirmRead => 3
    case ConfirmAppend(_) => 2
    case ConfirmWinner => 1
    case Reread => 1
    case InvokeProvider => 1
    case Done(_) => 0
  }

  /** Steps that the stages of `execute` after the current one can still take. */
  function StagesAhead(call: Call): nat {
    if call.mode.Direct? || call.pc.Done? then 0
    else if call.op.Reserve? then 10
    else if call.op.BeginDispatch? then (if call.pc.InvokeProvider? then 3 else 4)
    else 0
  }

  function Budget(call: Call): nat { Remaining(call.pc) + StagesAhead(call) }

  /** Calls are wait-free: every step, whatever other calls did before it, uses up budget. A
      directly called operation starts with at most 9 steps and `execute` with 19. */
  lemma StepUsesBudget(call: Call, log: seq<Entry>)
    requires WellFormed(call) && !call.pc.Done?
    ensures Budget(Step(call, log).0) < Budget(call)
  {
    if call.pc.InvokeProvider? {
      if call.mode.answer.Some? {
        StartIsWellPlaced(call.identity, ConfirmSuccess(call.mode.attempt, call.mode.answer.value));
      }
    } else {
      AccessStaysInOperation(call.identity, call.op, call.pc, log);
      if call.mode.Executing? {
        StartIsWellPlaced(call.identity, BeginDispatch(call.mode.attempt, call.mode.dispatchRef, Moment(call.mode.now, true)));
      }
    }
  }

  lemma StartingBudget(identity: Identity, op: Operation, mode: Mode, began: nat)
    ensures Budget(DirectCall(identity, op, began)) <= 9
    ensures mode.Executing? ==> Budget(ExecuteCall(identity, mode, began)) <= 19
  {
  }
}
