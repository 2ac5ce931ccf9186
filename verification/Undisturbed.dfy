/**
  One call of a public method when nobody else writes to its stream: what it answers and what it leaves.

  `Sequential` is what a method computes when nobody else touches the store at all; it is proved equal to
  driving the method's call under the empty schedule. Writers of other streams make no difference to that.
 */
module Undisturbed {
  import opened Prelude
  import opened ExternalActions
  import opened ProvenanceLog
  import opened ActionCalls
  import opened Driving

  // ---------------------------------------------------------------- one call without interference

  datatype Decision = Respond(outcome: Outcome) | Write(opening: bool)

  /** What an operation does after loading its stream: answer, or append its record. */
  function Decide(op: Operation, current: Option<Action>, records: seq<Record>): Decision {
    match op
    case Reserve(_) =>
      if current.None? then Write(true)
      else if Confirmed(current.value.state) then Respond(Ok(Reservation(ReplayConfirmed, current.value)))
      else if current.value.state == OutcomeUnknown then Respond(Ok(Reservation(ReconcileRequired, current.value)))
      else if current.value.state == Reserved then Respond(Ok(Reservation(InProgress, current.value)))
      else Write(false)
    case BeginDispatch(attempt, dispatchRef, startedAt) =>
      if current.None? then Respond(Err(NoReservation))
      else if current.value.state == OutcomeUnknown then
        if records != [] && IsDispatchBy(records[|records| - 1], attempt, dispatchRef) then Respond(Ok(Updated(current.value)))
        else Respond(Err(OutcomeAlreadyUnknown))
      else
        var owned := Owned(current, attempt);
        if owned.Err? then Respond(Err(owned.error))
        else if !startedAt.aware then Respond(Err(NaiveTimestamp))
        else Write(false)
    case MarkPreEffectFailed(attempt) => DecideMark(PreEffectFailed, attempt, current)
    case MarkOutcomeUnknown(attempt) => DecideMark(OutcomeUnknown, attempt, current)
    case _ =>
      var move := OnConfirmRead(op, Loaded(current, Genesis));
      if move.Goto? then Write(false) else Respond(move.outcome)
  }

  function DecideMark(target: ActionState, attempt: string, current: Option<Action>): Decision {
    if current.Some? && current.value.state == target && current.value.owner == attempt
    then Respond(Ok(Updated(current.value)))
    else
      var owned := Owned(current, attempt);
      if owned.Err? then Respond(Err(owned.error)) else Write(false)
  }

  /** The answer after the append, from the state read back. */
  function Report(op: Operation, current: Option<Action>): Outcome {
    match op
    case Reserve(attempt) => OnReserveReread(attempt, current)
    case BeginDispatch(_, _, _) => OnDispatchReread(current)
    case _ => OnReread(current)
  }

  /** A whole call when nobody else touches the store: load, decide, append, read back. */
  function Sequential(log: seq<Entry>, identity: Identity, op: Operation): (Outcome, seq<Entry>) {
    var start := Start(identity, op);
    if start.Finish? then (start.outcome, log)
    else
      var read := Load(log, identity);
      if read.Err? then (Err(read.error), log)
      else
        match Decide(op, read.value.current, Stream(log, ScopeOf(identity)))
        case Respond(outcome) => (outcome, log)
        case Write(opening) =>
          var after := log + [Entry(ScopeOf(identity), RecordFor(identity, op, opening))];
          var reread := Load(after, identity);
          (if reread.Err? then Err(reread.error) else Report(op, reread.value.current), after)
  }

  lemma DriveAlone(call: Call, log: seq<Entry>)
    requires WellFormed(call) && !call.pc.Done? && !call.pc.InvokeProvider?
    ensures var (move, after) := Access(call.identity, call.op, call.pc, log);
            && WellFormed(Settle(call, move))
            && Drive(call, log, []) == Drive(Settle(call, move), after, [])
            && Invokes(call, log, []) == Invokes(Settle(call, move), after, [])
  {
    assert log + Burst([]) == log;
    DriveAccess(call, log, []);
  }

  lemma AppendAlone(call: Call, log: seq<Entry>)
    requires WellFormed(call) && call.mode.Direct? && IsAppend(call.pc)
    requires call.pc.head == HeadOf(log, ScopeOf(call.identity))
    ensures var after := log + [Entry(ScopeOf(call.identity),
                                      RecordFor(call.identity, call.op, call.pc.ReserveAppend? && call.pc.opening))];
            var read := Load(after, call.identity);
            Drive(call, log, [])
            == (if read.Err? then Err(read.error) else Report(call.op, read.value.current), after, [])
  {
    hide Drive, Load, RecordFor, HeadOf, Invokes;
    var after := log + [Entry(ScopeOf(call.identity), RecordFor(call.identity, call.op, call.pc.ReserveAppend? && call.pc.opening))];
    DriveAlone(call, log);
    var reading := call.(pc := AfterAppend(call.pc, true).pc);
    DriveAlone(reading, after);
    var read := Load(after, call.identity);
    var outcome := if read.Err? then Err(read.error) else Report(call.op, read.value.current);
    DriveDone(call.(pc := Done(outcome)), after, []);
  }

  /** Without interference every public method computes `Sequential`; in particular a reservation
      finishes in its first iteration. */
  lemma SequentialIsUndisturbedDrive(log: seq<Entry>, identity: Identity, op: Operation)
    ensures Drive(CallOf(identity, op), log, [])
         == (Sequential(log, identity, op).0, Sequential(log, identity, op).1, [])
  {
    hide Drive;
    var call := CallOf(identity, op);
    StartIsWellPlaced(identity, op);
    if call.pc.Done? {
      DriveDone(call, log, []);
    } else {
      DriveAlone(call, log);
      var read := Load(log, identity);
      if read.Err? {
        DriveDone(call.(pc := Done(Err(read.error))), log, []);
      } else {
        match op
        case Reserve(_) => FromFirstRead(call, log, read.value);
        case BeginDispatch(_, _, _) => DispatchAlone(call, log, read.value);
        case MarkPreEffectFailed(_) => MarkAlone(call, log, read.value);
        case MarkOutcomeUnknown(_) => MarkAlone(call, log, read.value);
        case _ => FromFirstRead(call, log, read.value);
      }
    }
  }

  /** The first read of a reservation or confirmation leads where `Decide` says. */
  lemma FirstReadDecides(op: Operation, pc: Pc, loaded: Loaded, records: seq<Record>)
    requires WellPlaced(op, pc) && (pc == ReserveRead(0) || pc == ConfirmRead)
    ensures match Decide(op, loaded.current, records)
            case Respond(outcome) => AfterLoad(op, pc, loaded) == Finish(outcome)
            case Write(opening) =>
              && AfterLoad(op, pc, loaded).Goto?
              && IsAppend(AfterLoad(op, pc, loaded).pc) && AfterLoad(op, pc, loaded).pc.head == loaded.head
              && opening == (AfterLoad(op, pc, loaded).pc.ReserveAppend? && AfterLoad(op, pc, loaded).pc.opening)
  {
    if pc == ConfirmRead {
      assert IsConfirmation(op);
    }
  }

  /** Operations that append straight after their first read. */
  lemma FromFirstRead(call: Call, log: seq<Entry>, loaded: Loaded)
    requires WellFormed(call) && call.mode.Direct? && Load(log, call.identity) == Ok(loaded)
    requires Start(call.identity, call.op).Goto? && (call.pc == ReserveRead(0) || call.pc == ConfirmRead)
    requires WellFormed(Settle(call, AfterLoad(call.op, call.pc, loaded)))
    ensures Drive(Settle(call, AfterLoad(call.op, call.pc, loaded)), log, [])
         == (Sequential(log, call.identity, call.op).0, Sequential(log, call.identity, call.op).1, [])
  {
    LoadedHead(log, call.identity);
    var records := Stream(log, ScopeOf(call.identity));
    FirstReadDecides(call.op, call.pc, loaded, records);
    hide Drive, Load, AfterLoad, Decide, Report, RecordFor, Start, Stream, HeadOf;
    var move := AfterLoad(call.op, call.pc, loaded);
    if move.Goto? {
      AppendAlone(call.(pc := move.pc), log);
    } else {
      DriveDone(call.(pc := Done(move.outcome)), log, []);
    }
  }

  lemma LoadedHead(log: seq<Entry>, identity: Identity)
    requires Load(log, identity).Ok?
    ensures Load(log, identity).value.head == HeadOf(log, ScopeOf(identity))
  {
  }

  lemma DispatchAlone(call: Call, log: seq<Entry>, loaded: Loaded)
    requires WellFormed(call) && call.mode.Direct? && Load(log, call.identity) == Ok(loaded)
    requires Start(call.identity, call.op).Goto? && call.op.BeginDispatch? && call.pc == DispatchRead
    requires WellFormed(Settle(call, AfterLoad(call.op, call.pc, loaded)))
    ensures Drive(Settle(call, AfterLoad(call.op, call.pc, loaded)), log, [])
         == (Sequential(log, call.identity, call.op).0, Sequential(log, call.identity, call.op).1, [])
  {
    hide Drive;
    var records := Stream(log, ScopeOf(call.identity));
    if loaded.current.None? {
      DriveDone(call.(pc := Done(Err(NoReservation))), log, []);
    } else {
      var current, head := loaded.current.value, loaded.head;
      DriveAlone(call.(pc := DispatchRecords(current, head)), log);
      var listed := OnDispatchRecords(call.op.attempt, call.op.dispatchRef, current, head, records);
      if listed.Finish? {
        DriveDone(call.(pc := Done(listed.outcome)), log, []);
        assert records != [];
      } else {
        DriveAlone(call.(pc := DispatchOwned(head)), log);
        var owned := OnDispatchOwned(call.op.attempt, call.op.startedAt, loaded.current, head);
        if owned.Finish? {
          DriveDone(call.(pc := Done(owned.outcome)), log, []);
        } else {
          AppendAlone(call.(pc := DispatchAppend(head)), log);
        }
      }
    }
  }

  lemma MarkAlone(call: Call, log: seq<Entry>, loaded: Loaded)
    requires WellFormed(call) && call.mode.Direct? && Load(log, call.identity) == Ok(loaded)
    requires Start(call.identity, call.op).Goto? && call.pc == MarkRead
    requires WellFormed(Settle(call, AfterLoad(call.op, call.pc, loaded)))
    ensures Drive(Settle(call, AfterLoad(call.op, call.pc, loaded)), log, [])
         == (Sequential(log, call.identity, call.op).0, Sequential(log, call.identity, call.op).1, [])
  {
    hide Drive;
    var move := AfterLoad(call.op, call.pc, loaded);
    if move.Finish? {
      DriveDone(call.(pc := Done(move.outcome)), log, []);
    } else {
      DriveAlone(call.(pc := MarkOwned(loaded.head)), log);
      var owned := OnMarkOwned(call.op, loaded.current, loaded.head);
      if owned.Finish? {
        DriveDone(call.(pc := Done(owned.outcome)), log, []);
      } else {
        AppendAlone(call.(pc := MarkAppend(loaded.head)), log);
      }
    }
  }

  // ---------------------------------------------------------------- writers of other streams

  /** The others append to other streams only. */
  predicate Quiet(schedule: Schedule, scope: Scope) {
    forall k :: 0 <= k < |schedule| ==> Stream(schedule[k], scope) == []
  }

  /** The head that a place holds. */
  function HeldHead(pc: Pc): Option<Digest> {
    match pc
    case ReserveAppend(_, head, _) => Some(head)
    case DispatchRecords(_, head) => Some(head)
    case DispatchOwned(head) => Some(head)
    case DispatchAppend(head) => Some(head)
    case MarkOwned(head) => Some(head)
    case MarkAppend(head) => Some(head)
    case ConfirmAppend(head) => Some(head)
    case _ => None
  }

  function WithoutHead(pc: Pc): Pc {
    match pc
    case ReserveAppend(retry, _, opening) => ReserveAppend(retry, Genesis, opening)
    case DispatchRecords(current, _) => DispatchRecords(current, Genesis)
    case DispatchOwned(_) => DispatchOwned(Genesis)
    case DispatchAppend(_) => DispatchAppend(Genesis)
    case MarkOwned(_) => MarkOwned(Genesis)
    case MarkAppend(_) => MarkAppend(Genesis)
    case ConfirmAppend(_) => ConfirmAppend(Genesis)
    case _ => pc
  }

  /** The head a call holds is still that of its stream. */
  predicate HeadIsCurrent(call: Call, log: seq<Entry>) {
    var held := HeldHead(call.pc);
    held.Some? ==> held.value == HeadOf(log, ScopeOf(call.identity))
  }

  /** One call on two logs with the same stream: it stands at the same place, with the head of each log. */
  predicate Alike(a: Call, b: Call, logA: seq<Entry>, logB: seq<Entry>) {
    && a.(pc := b.pc) == b && WithoutHead(a.pc) == WithoutHead(b.pc)
    && HeadIsCurrent(a, logA) && HeadIsCurrent(b, logB)
    && Stream(logA, ScopeOf(a.identity)) == Stream(logB, ScopeOf(a.identity))
  }

  lemma OthersLeaveStream(log: seq<Entry>, more: seq<Entry>, scope: Scope)
    requires Stream(more, scope) == []
    ensures Stream(log + more, scope) == Stream(log, scope) && HeadOf(log + more, scope) == HeadOf(log, scope)
  {
    StreamConcat(log, more, scope);
    assert (log + more)[..|log|] == log;
    StreamPinsHead(log + more, |log|, scope);
  }

  predicate MovesAlike(a: Move, b: Move, headA: Digest, headB: Digest) {
    if a.Finish? || b.Finish? then a == b
    else
      && WithoutHead(a.pc) == WithoutHead(b.pc)
      && (HeldHead(a.pc).Some? ==> HeldHead(a.pc).value == headA)
      && (HeldHead(b.pc).Some? ==> HeldHead(b.pc).value == headB)
  }

  lemma LoadsAlike(op: Operation, a: Pc, b: Pc, current: Option<Action>, headA: Digest, headB: Digest)
    requires WellPlaced(op, a) && WellPlaced(op, b) && Loads(a) && Loads(b)
    requires WithoutHead(a) == WithoutHead(b)
    requires HeldHead(a).Some? ==> HeldHead(a).value == headA
    requires HeldHead(b).Some? ==> HeldHead(b).value == headB
    ensures MovesAlike(AfterLoad(op, a, Loaded(current, headA)), AfterLoad(op, b, Loaded(current, headB)), headA, headB)
  {
  }

  lemma AccessesAlike(identity: Identity, op: Operation, a: Pc, b: Pc, logA: seq<Entry>, logB: seq<Entry>)
    requires WellPlaced(op, a) && WellPlaced(op, b)
    requires !a.InvokeProvider? && !a.Done? && !b.InvokeProvider? && !b.Done?
    requires WithoutHead(a) == WithoutHead(b)
    requires HeldHead(a).Some? ==> HeldHead(a).value == HeadOf(logA, ScopeOf(identity))
    requires HeldHead(b).Some? ==> HeldHead(b).value == HeadOf(logB, ScopeOf(identity))
    requires Stream(logA, ScopeOf(identity)) == Stream(logB, ScopeOf(identity))
    ensures var (moveA, afterA) := Access(identity, op, a, logA);
            var (moveB, afterB) := Access(identity, op, b, logB);
            && MovesAlike(moveA, moveB, HeadOf(afterA, ScopeOf(identity)), HeadOf(afterB, ScopeOf(identity)))
            && Stream(afterA, ScopeOf(identity)) == Stream(afterB, ScopeOf(identity))
  {
    hide LoadRecords, RecordFor, Stream, HeadOf, AfterLoad, OnDispatchWinner;
    var scope := ScopeOf(identity);
    if IsAppend(a) {
      var entry := Entry(scope, RecordFor(identity, op, a.ReserveAppend? && a.opening));
      StreamSnoc(logA, entry, scope);
      StreamSnoc(logB, entry, scope);
    } else if Loads(a) {
      var replayed := LoadRecords(identity, Stream(logA, scope));
      if replayed.Ok? {
        LoadsAlike(op, a, b, replayed.value, HeadOf(logA, scope), HeadOf(logB, scope));
      }
    }
  }

  lemma ConcludingHoldsNoHead(call: Call, outcome: Outcome)
    ensures HeldHead(Conclude(call, outcome).pc).None? && Conclude(call, outcome).identity == call.identity
  {
  }

  /** A step keeps two calls alike: it depends on nothing but the call's own stream. */
  lemma StepsAlike(a: Call, b: Call, logA: seq<Entry>, logB: seq<Entry>)
    requires WellFormed(a) && WellFormed(b) && !a.pc.Done? && !b.pc.Done? && Alike(a, b, logA, logB)
    ensures Alike(Step(a, logA).0, Step(b, logB).0, Step(a, logA).1, Step(b, logB).1)
  {
    hide Stream, HeadOf, Access;
    if !a.pc.InvokeProvider? {
      AccessesAlike(a.identity, a.op, a.pc, b.pc, logA, logB);
      var move := Access(a.identity, a.op, a.pc, logA).0;
      if move.Finish? {
        ConcludeFromAnywhere(b, a.pc, move.outcome);
        ConcludingHoldsNoHead(b, move.outcome);
        assert a == b.(pc := a.pc);
        hide Conclude;
      } else {
        var (moveA, afterA) := Access(a.identity, a.op, a.pc, logA);
        var (moveB, afterB) := Access(b.identity, b.op, b.pc, logB);
        assert Step(a, logA) == (a.(pc := moveA.pc), afterA);
        assert Step(b, logB) == (b.(pc := moveB.pc), afterB);
        assert a.(pc := b.pc).(pc := moveB.pc) == b.(pc := moveB.pc);
        assert HeadIsCurrent(a.(pc := moveA.pc), afterA);
        assert HeadIsCurrent(b.(pc := moveB.pc), afterB);
      }
    }
  }

  /** What a call, of a method or of `execute`, answers, whether it invokes the provider and what it leaves
      of its stream is the same whatever others append to other streams. */
  lemma {:induction false} OnlyOwnStreamMatters(a: Call, b: Call, logA: seq<Entry>, logB: seq<Entry>, schedule: Schedule)
    requires WellFormed(a) && WellFormed(b) && Alike(a, b, logA, logB)
    requires Quiet(schedule, ScopeOf(a.identity))
    ensures var (outcome, after, _) := Drive(a, logA, []);
            var (same, left, rest) := Drive(b, logB, schedule);
            && same == outcome
            && Stream(left, ScopeOf(a.identity)) == Stream(after, ScopeOf(a.identity))
            && Quiet(rest, ScopeOf(a.identity))
    ensures Invokes(b, logB, schedule) == Invokes(a, logA, [])
    decreases Budget(a)
  {
    hide Step, WellFormed, Budget;
    var scope := ScopeOf(a.identity);
    if !a.pc.Done? {
      var quiet := a.pc.InvokeProvider?;
      assert quiet == b.pc.InvokeProvider?;
      var seenA := if quiet then logA else logA + Burst([]);
      var seenB, rest := if quiet then logB else logB + Burst(schedule), if quiet then schedule else Later(schedule);
      assert seenA == logA;
      OthersLeaveStream(logB, if quiet then [] else Burst(schedule), scope);
      assert logB + [] == logB;
      StepKeepsForm(a, seenA);
      StepKeepsForm(b, seenB);
      StepUsesBudget(a, seenA);
      StepsAlike(a, b, seenA, seenB);
      OnlyOwnStreamMatters(Step(a, seenA).0, Step(b, seenB).0, Step(a, seenA).1, Step(b, seenB).1, rest);
    }
  }
}
