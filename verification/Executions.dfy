/**
  What `execute` promises a caller: the receipt of a provider call that went well, the stored receipt of an
  action that is already confirmed, and otherwise a refusal or a stream from which the outcome can be
  reconciled.
 */
module Executions {
  import opened Prelude
  import opened ExternalActions
  import opened ProvenanceLog
  import opened ActionCalls
  import opened Driving
  import opened Undisturbed

  // ---------------------------------------------------------------- the promises

  /** A receipt with which the provider proves success of this attempt. */
  predicate Proves(answer: Option<Receipt>, identity: Identity, attempt: string) {
    && answer.Some?
    && answer.value.attemptId == attempt
    && answer.value.identityDigest.identity == identity
    && answer.value.outcome == ConfirmedSuccessOutcome
  }

  predicate IsReservationBy(record: Record, attempt: string) {
    record.event == ReservedEvent && record.payload.attemptId == Some(attempt)
  }

  predicate IsSuccessOf(record: Record, attempt: string, receipt: Receipt) {
    && record.event == ConfirmedSuccessEvent
    && record.payload.attemptId == Some(attempt)
    && record.payload.receipt == Some(receipt)
  }

  /** The stream grew by exactly a reservation and a dispatch, and its outcome is unknown. */
  predicate LeftUnknown(identity: Identity, attempt: string, dispatchRef: string, before: seq<Record>, left: seq<Record>) {
    && before <= left && |left| == |before| + 2
    && IsReservationBy(left[|before|], attempt)
    && IsDispatchBy(left[|before| + 1], attempt, dispatchRef)
    && var replayed := Replay(identity, left);
    && replayed.Ok? && replayed.value.Some?
    && replayed.value.value.state == OutcomeUnknown && replayed.value.value.owner == attempt
  }

  /** The stream grew by exactly a reservation, a dispatch and a success record with the receipt. */
  predicate LeftConfirmed(identity: Identity, attempt: string, dispatchRef: string, receipt: Receipt,
                          before: seq<Record>, left: seq<Record>) {
    && before <= left && |left| == |before| + 3
    && IsReservationBy(left[|before|], attempt)
    && IsDispatchBy(left[|before| + 1], attempt, dispatchRef)
    && IsSuccessOf(left[|before| + 2], attempt, receipt)
    && var replayed := Replay(identity, left);
    && replayed.Ok? && replayed.value.Some?
    && replayed.value.value.state == ConfirmedExternalSuccess && replayed.value.value.owner == attempt
    && replayed.value.value.receipt == Some(receipt)
  }

  /** One call of `execute`: its arguments, the log it began on, what others were about to append, and what
      came of it. `invoked` says whether the provider was called. */
  datatype Execution = Execution(
    identity: Identity,
    attempt: string,
    dispatchRef: string,
    answer: Option<Receipt>,
    log: seq<Entry>,
    schedule: Schedule,
    outcome: Outcome,
    invoked: bool,
    after: seq<Entry>)
  {
    function Scope(): Scope { ScopeOf(identity) }

    /** The log and the stream as the first read finds them. */
    function Seen(): seq<Entry> { log + Burst(schedule) }

    function Found(): seq<Record> { Stream(Seen(), Scope()) }

    /** Nobody else writes to the stream, and its action can be reserved. With two records to spare the
        provider is called, and the answer decides: proof of success is delivered and recorded, with room for
        its record; anything else leaves the outcome unknown. Without room nothing is called. */
    predicate AnswersWhenOpen() {
      var before, left := Stream(log, Scope()), Stream(after, Scope());
      Canonical(attempt) && Quiet(schedule, Scope()) && Open(identity, before) && |before| <= 1000 ==>
        if !Canonical(dispatchRef) || |before| > 998 then outcome.Err? && !invoked
        else if !Proves(answer, identity, attempt) then
          && outcome.Err? && (answer.None? ==> outcome == Err(ProviderRaised))
          && invoked && LeftUnknown(identity, attempt, dispatchRef, before, left)
        else if |before| > 997 then outcome.Err? && invoked
        else
          && outcome == Ok(Delivered(answer.value))
          && invoked && LeftConfirmed(identity, attempt, dispatchRef, answer.value, before, left)
    }

    /** A confirmed action answers with its receipt whatever legal records others try to add. */
    predicate ReplaysReceipt() {
      var replayed := Replay(identity, Stream(log, Scope()));
      && Canonical(attempt) && |Stream(log, Scope())| <= 1000
      && replayed.Ok? && replayed.value.Some? && Confirmed(replayed.value.value.state)
      && Accepted(Scope(), Found())
      ==>
      && replayed.value.value.receipt.Some?
      && outcome == Ok(Delivered(replayed.value.value.receipt.value))
      && after == Seen() && !invoked
    }

    /** An action that somebody reserved or dispatched is left alone, and the refusal says why. */
    predicate RefusesPending() {
      var replayed := Replay(identity, Found());
      && Canonical(attempt) && |Found()| <= 1000
      && replayed.Ok? && replayed.value.Some?
      && (replayed.value.value.state == Reserved || replayed.value.value.state == OutcomeUnknown)
      ==>
      && outcome == Err(ProviderForbidden(if replayed.value.value.state == Reserved then InProgress else ReconcileRequired))
      && after == Seen() && !invoked
    }

    /** An attempt id or a stream that cannot be used at all. */
    predicate RefusesUnusable() {
      && (!Canonical(attempt) ==> outcome.Err? && after == log && !invoked)
      && (Canonical(attempt) && (|Found()| > 1000 || Replay(identity, Found()).Err?) ==>
            outcome.Err? && after == Seen() && !invoked)
    }

    predicate KeepsPromises() {
      AnswersWhenOpen() && ReplaysReceipt() && RefusesPending() && RefusesUnusable()
    }
  }

  /** The execution that driving a call amounts to. */
  function Driven(identity: Identity, mode: Mode, log: seq<Entry>, schedule: Schedule): Execution
    requires mode.Executing?
  {
    var call := ExecutionOf(identity, mode);
    var (outcome, after, _) := Drive(call, log, schedule);
    Execution(identity, mode.attempt, mode.dispatchRef, mode.answer, log, schedule,
              outcome, Invokes(call, log, schedule), after)
  }

  // ---------------------------------------------------------------- operations that append

  /** An undisturbed operation that decides to append: its record lands, and the answer reports the state it
      leads to, unless the stream is now over the limit. */
  lemma Writes(log: seq<Entry>, identity: Identity, op: Operation, current: Option<Action>, opening: bool, action: Action)
    requires Start(identity, op).Goto? && |Stream(log, ScopeOf(identity))| <= MAX_TRANSITIONS
    requires Replay(identity, Stream(log, ScopeOf(identity))) == Ok(current)
    requires Decide(op, current, Stream(log, ScopeOf(identity))) == Write(opening)
    requires Extend(identity, current, RecordFor(identity, op, opening)) == Ok(action)
    ensures var (outcome, after) := Sequential(log, identity, op);
            var records := Stream(log, ScopeOf(identity));
            && Stream(after, ScopeOf(identity)) == records + [RecordFor(identity, op, opening)]
            && ReplaysTo(identity, Stream(after, ScopeOf(identity)), action)
            && outcome == if |records| == MAX_TRANSITIONS then Err(TransitionLimitExceeded) else Report(op, Some(action))
  {
    hide Decide, Extend, RecordFor, Report;
    var entry := Entry(ScopeOf(identity), RecordFor(identity, op, opening));
    StreamSnoc(log, entry, ScopeOf(identity));
    ReplaySnoc(identity, Stream(log, ScopeOf(identity)), entry.record);
  }

  // ---------------------------------------------------------------- the stages of an execution

  /** A stage of `execute` as it is entered. */
  function Staged(identity: Identity, mode: Mode, op: Operation, invoked: bool): Call {
    Enter(Call(identity, mode, op, Done(Err(NoReservation)), invoked, 0), op)
  }

  lemma StageRuns(identity: Identity, mode: Mode, op: Operation, invoked: bool, log: seq<Entry>)
    requires mode.Executing? && WellFormed(Staged(identity, mode, op, invoked))
    ensures var stage := Staged(identity, mode, op, invoked);
            var (outcome, after) := Sequential(log, identity, op);
            && WellFormed(Conclude(stage, outcome))
            && Drive(stage, log, []) == Drive(Conclude(stage, outcome), after, [])
            && Invokes(stage, log, []) == Invokes(Conclude(stage, outcome), after, [])
  {
    hide Drive, Invokes, Sequential, Conclude;
    var stage := Staged(identity, mode, op, invoked);
    StartIsWellPlaced(identity, op);
    DriveStage(stage, log, []);
    DriveIgnoresHistory(stage.(mode := Direct), log, []);
    SequentialIsUndisturbedDrive(log, identity, op);
    assert stage.(mode := Direct, invoked := false) == CallOf(identity, op);
  }

  lemma StagesAreWellFormed(identity: Identity, mode: Mode, invoked: bool)
    requires mode.Executing?
    ensures ExecutionOf(identity, mode) == Staged(identity, mode, Reserve(mode.attempt), false)
    ensures WellFormed(Staged(identity, mode, Reserve(mode.attempt), invoked))
    ensures WellFormed(Staged(identity, mode, BeginDispatch(mode.attempt, mode.dispatchRef, Moment(mode.now, true)), invoked))
    ensures mode.answer.Some? ==> WellFormed(Staged(identity, mode, ConfirmSuccess(mode.attempt, mode.answer.value), invoked))
  {
    StartIsWellPlaced(identity, Reserve(mode.attempt));
    StartIsWellPlaced(identity, BeginDispatch(mode.attempt, mode.dispatchRef, Moment(mode.now, true)));
    if mode.answer.Some? {
      StartIsWellPlaced(identity, ConfirmSuccess(mode.attempt, mode.answer.value));
    }
  }

  /** What an execution amounts to from one of its stages on: an outcome, whether the provider is invoked, and
      the log that is left. */
  ghost predicate Gives(call: Call, log: seq<Entry>, outcome: Outcome, invoked: bool, after: seq<Entry>)
    requires WellFormed(call)
  {
    Drive(call, log, []) == (outcome, after, []) && Invokes(call, log, []) == invoked
  }

  /** The stage that confirms an answer, on a dispatched stream. */
  lemma ConfirmStage(identity: Identity, mode: Mode, log: seq<Entry>, action: Action) returns (outcome: Outcome, after: seq<Entry>)
    requires mode.Executing? && mode.answer.Some? && Canonical(mode.attempt)
    requires |Stream(log, ScopeOf(identity))| <= MAX_TRANSITIONS
    requires ReplaysTo(identity, Stream(log, ScopeOf(identity)), action)
    requires action.state == OutcomeUnknown && action.owner == mode.attempt
    ensures WellFormed(Staged(identity, mode, ConfirmSuccess(mode.attempt, mode.answer.value), true))
    ensures Gives(Staged(identity, mode, ConfirmSuccess(mode.attempt, mode.answer.value), true), log, outcome, false, after)
    ensures Stream(log, ScopeOf(identity)) <= Stream(after, ScopeOf(identity))
    ensures var before, left := Stream(log, ScopeOf(identity)), Stream(after, ScopeOf(identity));
            if !Proves(mode.answer, identity, mode.attempt) then outcome.Err? && left == before
            else if |before| == MAX_TRANSITIONS then outcome.Err?
            else
              && outcome == Ok(Delivered(mode.answer.value))
              && |left| == |before| + 1 && IsSuccessOf(left[|before|], mode.attempt, mode.answer.value)
              && ReplaysTo(identity, left, action.(state := ConfirmedExternalSuccess, receipt := mode.answer))
  {
    hide Drive, Invokes, Sequential;
    var op := ConfirmSuccess(mode.attempt, mode.answer.value);
    StagesAreWellFormed(identity, mode, true);
    StageRuns(identity, mode, op, true, log);
    ReplayFixesIdentity(identity, Stream(log, ScopeOf(identity)));
    if Proves(mode.answer, identity, mode.attempt) {
      Writes(log, identity, op, Some(action), false, action.(state := ConfirmedExternalSuccess, receipt := mode.answer));
    } else {
      RefusedBeforeReading(log, identity, op);
    }
    outcome, after := Sequential(log, identity, op).0, Sequential(log, identity, op).1;
    var ended := Conclude(Staged(identity, mode, op, true), outcome);
    DriveDone(ended, after, []);
    outcome := ended.pc.outcome;
  }

  lemma RefusedBeforeReading(log: seq<Entry>, identity: Identity, op: Operation)
    requires Start(identity, op).Finish?
    ensures Sequential(log, identity, op) == (Start(identity, op).outcome, log)
  {
  }

  /** What comes of dispatching on a stream that is reserved for the attempt. */
  predicate DispatchGives(identity: Identity, mode: Mode, action: Action, before: seq<Record>,
                          outcome: Outcome, invoked: bool, left: seq<Record>)
    requires mode.Executing?
  {
    if !Canonical(mode.dispatchRef) || |before| == MAX_TRANSITIONS then outcome.Err? && !invoked
    else
      && invoked && |left| > |before| && before <= left
      && IsDispatchBy(left[|before|], mode.attempt, mode.dispatchRef)
      && if !Proves(mode.answer, identity, mode.attempt) then
           && outcome.Err? && (mode.answer.None? ==> outcome == Err(ProviderRaised))
           && |left| == |before| + 1 && ReplaysTo(identity, left, action.(state := OutcomeUnknown))
         else if |before| + 1 == MAX_TRANSITIONS then outcome.Err?
         else
           && outcome == Ok(Delivered(mode.answer.value))
           && |left| == |before| + 2 && IsSuccessOf(left[|before| + 1], mode.attempt, mode.answer.value)
           && ReplaysTo(identity, left, action.(state := ConfirmedExternalSuccess, receipt := mode.answer))
  }

  /** The stage that dispatches and invokes, on a stream reserved for the attempt. */
  lemma DispatchStage(identity: Identity, mode: Mode, log: seq<Entry>, action: Action)
    returns (outcome: Outcome, invoked: bool, after: seq<Entry>)
    requires mode.Executing? && Canonical(mode.attempt)
    requires |Stream(log, ScopeOf(identity))| <= MAX_TRANSITIONS
    requires ReplaysTo(identity, Stream(log, ScopeOf(identity)), action)
    requires action.state == Reserved && action.owner == mode.attempt
    ensures WellFormed(Staged(identity, mode, BeginDispatch(mode.attempt, mode.dispatchRef, Moment(mode.now, true)), false))
    ensures Gives(Staged(identity, mode, BeginDispatch(mode.attempt, mode.dispatchRef, Moment(mode.now, true)), false),
                  log, outcome, invoked, after)
    ensures DispatchGives(identity, mode, action, Stream(log, ScopeOf(identity)), outcome, invoked, Stream(after, ScopeOf(identity)))
  {
    hide Drive, Invokes, Sequential, Stream, Replay, Canonical, Proves;
    var op := BeginDispatch(mode.attempt, mode.dispatchRef, Moment(mode.now, true));
    StagesAreWellFormed(identity, mode, false);
    StageRuns(identity, mode, op, false, log);
    var stage := Staged(identity, mode, op, false);
    if !Canonical(mode.dispatchRef) {
      RefusedBeforeReading(log, identity, op);
      outcome, after, invoked := Sequential(log, identity, op).0, log, false;
      DriveDone(Conclude(stage, outcome), after, []);
    } else {
      var fence, mid := Dispatches(identity, op, log, action);
      var fenced := Conclude(stage, fence);
      if fence.Err? {
        outcome, after, invoked := fence, mid, false;
        DriveDone(fenced, mid, []);
      } else {
        outcome, after := AfterFence(identity, mode, fenced, mid, action.(state := OutcomeUnknown));
        invoked := true;
      }
    }
  }

  /** The dispatch record lands, and the answer is the fenced action unless the stream is now over the limit. */
  lemma Dispatches(identity: Identity, op: Operation, log: seq<Entry>, action: Action) returns (fence: Outcome, mid: seq<Entry>)
    requires op.BeginDispatch? && Canonical(op.attempt) && Canonical(op.dispatchRef) && op.startedAt.aware
    requires |Stream(log, ScopeOf(identity))| <= MAX_TRANSITIONS
    requires ReplaysTo(identity, Stream(log, ScopeOf(identity)), action)
    requires action.state == Reserved && action.owner == op.attempt
    ensures (fence, mid) == Sequential(log, identity, op)
    ensures var before, left := Stream(log, ScopeOf(identity)), Stream(mid, ScopeOf(identity));
            && |left| == |before| + 1 && before <= left && IsDispatchBy(left[|before|], op.attempt, op.dispatchRef)
            && ReplaysTo(identity, left, action.(state := OutcomeUnknown))
            && fence == if |before| == MAX_TRANSITIONS then Err(TransitionLimitExceeded)
                        else Ok(Updated(action.(state := OutcomeUnknown)))
  {
    hide Sequential;
    Writes(log, identity, op, Some(action), false, action.(state := OutcomeUnknown));
    fence, mid := Sequential(log, identity, op).0, Sequential(log, identity, op).1;
  }

  /** From the fence on the provider is invoked, and its answer confirmed. */
  lemma AfterFence(identity: Identity, mode: Mode, fenced: Call, mid: seq<Entry>, dispatched: Action)
    returns (outcome: Outcome, after: seq<Entry>)
    requires mode.Executing? && Canonical(mode.attempt) && WellFormed(fenced)
    requires fenced == Staged(identity, mode, BeginDispatch(mode.attempt, mode.dispatchRef, Moment(mode.now, true)), false)
                       .(pc := InvokeProvider)
    requires |Stream(mid, ScopeOf(identity))| <= MAX_TRANSITIONS
    requires ReplaysTo(identity, Stream(mid, ScopeOf(identity)), dispatched)
    requires dispatched.state == OutcomeUnknown && dispatched.owner == mode.attempt
    ensures Gives(fenced, mid, outcome, true, after)
    ensures var before, left := Stream(mid, ScopeOf(identity)), Stream(after, ScopeOf(identity));
            && before <= left
            && if !Proves(mode.answer, identity, mode.attempt) then
                 outcome.Err? && left == before && (mode.answer.None? ==> outcome == Err(ProviderRaised))
               else if |before| == MAX_TRANSITIONS then outcome.Err?
               else
                 && outcome == Ok(Delivered(mode.answer.value))
                 && |left| == |before| + 1 && IsSuccessOf(left[|before|], mode.attempt, mode.answer.value)
                 && ReplaysTo(identity, left, dispatched.(state := ConfirmedExternalSuccess, receipt := mode.answer))
  {
    hide Drive, Invokes, Stream, Replay;
    DriveInvoke(fenced, mid, []);
    if mode.answer.None? {
      outcome, after := Err(ProviderRaised), mid;
      DriveDone(Invoke(fenced), mid, []);
    } else {
      outcome, after := ConfirmStage(identity, mode, mid, dispatched);
      assert Invoke(fenced) == Staged(identity, mode, ConfirmSuccess(mode.attempt, mode.answer.value), true);
    }
  }

  /** The reservation an undisturbed execution makes on an open stream. */
  lemma ReserveStage(identity: Identity, mode: Mode, log: seq<Entry>) returns (outcome: Outcome, mid: seq<Entry>, action: Action)
    requires mode.Executing? && Canonical(mode.attempt)
    requires Open(identity, Stream(log, ScopeOf(identity))) && |Stream(log, ScopeOf(identity))| <= MAX_TRANSITIONS
    ensures (outcome, mid) == Sequential(log, identity, Reserve(mode.attempt))
    ensures var before, left := Stream(log, ScopeOf(identity)), Stream(mid, ScopeOf(identity));
            && |left| == |before| + 1 && before <= left && IsReservationBy(left[|before|], mode.attempt)
            && ReplaysTo(identity, left, action) && action.state == Reserved && action.owner == mode.attempt
            && outcome == if |before| == MAX_TRANSITIONS then Err(TransitionLimitExceeded)
                          else Ok(Reservation(InvokeAllowed, action))
  {
    hide Sequential;
    var op := Reserve(mode.attempt);
    var records := Stream(log, ScopeOf(identity));
    var current := Replay(identity, records).value;
    if current.None? {
      action := Action(identity, Reserved, mode.attempt, 1, None);
    } else {
      action := current.value.(state := Reserved, owner := mode.attempt,
                               attemptCount := current.value.attemptCount + 1, receipt := None);
    }
    Writes(log, identity, op, current, current.None?, action);
    outcome, mid := Sequential(log, identity, op).0, Sequential(log, identity, op).1;
  }

  lemma OpenAlone(identity: Identity, mode: Mode, log: seq<Entry>)
    requires mode.Executing? && Canonical(mode.attempt)
    requires Open(identity, Stream(log, ScopeOf(identity))) && |Stream(log, ScopeOf(identity))| <= MAX_TRANSITIONS
    ensures Driven(identity, mode, log, []).AnswersWhenOpen()
  {
    hide Drive, Invokes, Sequential, Open, Stream, Canonical, Replay;
    StagesAreWellFormed(identity, mode, false);
    StageRuns(identity, mode, Reserve(mode.attempt), false, log);
    var reserved, mid, action := ReserveStage(identity, mode, log);
    var stage := Staged(identity, mode, Reserve(mode.attempt), false);
    var next := Conclude(stage, reserved);
    if reserved.Err? {
      DriveDone(next, mid, []);
    } else {
      var outcome, invoked, after := DispatchStage(identity, mode, mid, action);
      assert next == Staged(identity, mode, BeginDispatch(mode.attempt, mode.dispatchRef, Moment(mode.now, true)), false);
      var scope := ScopeOf(identity);
      TwoStages(identity, mode, action, Stream(log, scope), Stream(mid, scope), outcome, invoked, Stream(after, scope));
    }
  }

  /** The two stages together. */
  lemma TwoStages(identity: Identity, mode: Mode, action: Action, before: seq<Record>, mid: seq<Record>,
                  outcome: Outcome, invoked: bool, left: seq<Record>)
    requires mode.Executing? && action.owner == mode.attempt
    requires |before| < MAX_TRANSITIONS && |mid| == |before| + 1 && before <= mid && IsReservationBy(mid[|before|], mode.attempt)
    requires DispatchGives(identity, mode, action, mid, outcome, invoked, left)
    ensures if !Canonical(mode.dispatchRef) || |before| > 998 then outcome.Err? && !invoked
            else if !Proves(mode.answer, identity, mode.attempt) then
              && outcome.Err? && (mode.answer.None? ==> outcome == Err(ProviderRaised))
              && invoked && LeftUnknown(identity, mode.attempt, mode.dispatchRef, before, left)
            else if |before| > 997 then outcome.Err? && invoked
            else
              && outcome == Ok(Delivered(mode.answer.value))
              && invoked && LeftConfirmed(identity, mode.attempt, mode.dispatchRef, mode.answer.value, before, left)
  {
    hide Canonical, Replay;
  }

  /** The promise for an open action, with others at work on other streams. */
  lemma AnswersOpen(identity: Identity, mode: Mode, log: seq<Entry>, schedule: Schedule)
    requires mode.Executing?
    ensures Driven(identity, mode, log, schedule).AnswersWhenOpen()
  {
    hide Drive, Invokes, Open, LeftUnknown, LeftConfirmed;
    var scope := ScopeOf(identity);
    if Canonical(mode.attempt) && Quiet(schedule, scope) && Open(identity, Stream(log, scope))
       && |Stream(log, scope)| <= MAX_TRANSITIONS {
      OpenAlone(identity, mode, log);
      var call := ExecutionOf(identity, mode);
      OnlyOwnStreamMatters(call, call, log, log, schedule);
    }
  }

  /** An execution whose reservation is refused or replayed ends with its first read. */
  lemma EndsAtFirstRead(identity: Identity, mode: Mode, log: seq<Entry>, schedule: Schedule, answer: Outcome)
    requires mode.Executing? && Canonical(mode.attempt)
    requires var read := Load(log + Burst(schedule), identity);
             if read.Err? then answer == Err(read.error)
             else OnReserveRead(0, read.value) == Finish(answer) && answer.Ok?
    ensures var execution := Driven(identity, mode, log, schedule);
            && execution.after == execution.Seen() && !execution.invoked
            && execution.outcome == match answer
                 case Err(error) => Err(error)
                 case Ok(Reservation(ReplayConfirmed, action)) =>
                   if action.receipt.None? then Err(ConfirmedWithoutReceipt) else Ok(Delivered(action.receipt.value))
                 case Ok(Reservation(disposition, _)) => Err(ProviderForbidden(disposition))
                 case Ok(_) => answer
  {
    hide Drive, Invokes;
    var call := ExecutionOf(identity, mode);
    DriveAccess(call, log, schedule);
    var (move, after) := Access(call.identity, call.op, call.pc, log + Burst(schedule));
    DriveDone(Settle(call, move), after, Later(schedule));
  }

  lemma ReplaysConfirmed(identity: Identity, mode: Mode, log: seq<Entry>, schedule: Schedule)
    requires mode.Executing?
    ensures Driven(identity, mode, log, schedule).ReplaysReceipt()
  {
    hide Drive, Invokes;
    var execution := Driven(identity, mode, log, schedule);
    var before, found := Stream(log, execution.Scope()), execution.Found();
    var replayed := Replay(identity, before);
    if Canonical(mode.attempt) && |before| <= MAX_TRANSITIONS && replayed.Ok? && replayed.value.Some?
       && Confirmed(replayed.value.value.state) && Accepted(execution.Scope(), found) {
      StreamConcat(log, Burst(schedule), execution.Scope());
      ReplayFixesIdentity(identity, before);
      assert found[0] == before[0];
      ConfirmedAbsorbs(identity, before, found);
      ReceiptExactlyWhenConfirmed(identity, before, replayed.value.value);
      EndsAtFirstRead(identity, mode, log, schedule, Ok(Reservation(ReplayConfirmed, replayed.value.value)));
    }
  }

  lemma RefusesOthersActions(identity: Identity, mode: Mode, log: seq<Entry>, schedule: Schedule)
    requires mode.Executing?
    ensures Driven(identity, mode, log, schedule).RefusesPending()
    ensures Driven(identity, mode, log, schedule).RefusesUnusable()
  {
    hide Drive, Invokes, Replay;
    var execution := Driven(identity, mode, log, schedule);
    if !Canonical(mode.attempt) {
      DriveDone(ExecutionOf(identity, mode), log, schedule);
    } else {
      var read := LoadRecords(identity, execution.Found());
      if read.Err? {
        EndsAtFirstRead(identity, mode, log, schedule, Err(read.error));
      } else if read.value.Some? {
        var action := read.value.value;
        if action.state == Reserved {
          EndsAtFirstRead(identity, mode, log, schedule, Ok(Reservation(InProgress, action)));
        } else if action.state == OutcomeUnknown {
          EndsAtFirstRead(identity, mode, log, schedule, Ok(Reservation(ReconcileRequired, action)));
        }
      }
    }
  }

  /** Every execution keeps its promises, whatever others append. */
  lemma ExecutionsKeepPromises(identity: Identity, mode: Mode, log: seq<Entry>, schedule: Schedule)
    requires mode.Executing?
    ensures Driven(identity, mode, log, schedule).KeepsPromises()
  {
    AnswersOpen(identity, mode, log, schedule);
    ReplaysConfirmed(identity, mode, log, schedule);
    RefusesOthersActions(identity, mode, log, schedule);
  }
}
