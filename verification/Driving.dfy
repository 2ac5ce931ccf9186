/**
  A call run to its end while other workers act on the same store.

  What the others append before each of the call's store accesses is given by a schedule, so the result of
  a call is a function of the log, the schedule and the arguments.
 */
module Driving {
  import opened Prelude
  import opened ExternalActions
  import opened ProvenanceLog
  import Calls = ActionCalls

  type Entry = Calls.Entry

  type Digest = Calls.Digest

  type Schedule = seq<seq<Entry>>

  function Burst(schedule: Schedule): seq<Entry> {
    if schedule == [] then [] else schedule[0]
  }

  function Later(schedule: Schedule): Schedule {
    if schedule == [] then [] else schedule[1..]
  }

  /** Run a call to its end, letting the schedule's next entries land before each store access. */
  function Drive(call: Calls.Call, log: seq<Entry>, schedule: Schedule): (Calls.Outcome, seq<Entry>, Schedule)
    requires Calls.WellFormed(call)
    decreases Calls.Budget(call)
  {
    if call.pc.Done? then (call.pc.outcome, log, schedule)
    else
      var (seen, rest) := if call.pc.InvokeProvider? then (log, schedule) else (log + Burst(schedule), Later(schedule));
      Calls.StepKeepsForm(call, seen);
      Calls.StepUsesBudget(call, seen);
      var (next, after) := Calls.Step(call, seen);
      Drive(next, after, rest)
  }

  /** Whether the call comes to invoke the provider. */
  predicate Invokes(call: Calls.Call, log: seq<Entry>, schedule: Schedule)
    requires Calls.WellFormed(call)
    decreases Calls.Budget(call)
  {
    if call.pc.Done? then false
    else if call.pc.InvokeProvider? then true
    else
      var seen := log + Burst(schedule);
      Calls.StepKeepsForm(call, seen);
      Calls.StepUsesBudget(call, seen);
      var (next, after) := Calls.Step(call, seen);
      Invokes(next, after, Later(schedule))
  }

  /** Where a directly called operation continues after one move. */
  function Continue(call: Calls.Call, move: Calls.Move, log: seq<Entry>, schedule: Schedule): (Calls.Outcome, seq<Entry>, Schedule)
    requires move.Goto? ==> Calls.WellFormed(call.(pc := move.pc))
  {
    match move
    case Goto(pc) => Drive(call.(pc := pc), log, schedule)
    case Finish(outcome) => (outcome, log, schedule)
  }

  lemma DriveLoad(call: Calls.Call, log: seq<Entry>, schedule: Schedule)
    requires Calls.WellFormed(call) && call.mode.Direct? && Calls.Loads(call.pc)
    ensures var seen := log + Burst(schedule);
            var read := Calls.Load(seen, call.identity);
            if read.Err? then Drive(call, log, schedule) == (Err(read.error), seen, Later(schedule))
            else
              var move := Calls.AfterLoad(call.op, call.pc, read.value);
              && (move.Goto? ==> Calls.WellFormed(call.(pc := move.pc)))
              && Drive(call, log, schedule) == Continue(call, move, seen, Later(schedule))
  {
    Calls.AccessStaysInOperation(call.identity, call.op, call.pc, log + Burst(schedule));
  }

  lemma DriveRecords(call: Calls.Call, log: seq<Entry>, schedule: Schedule)
    requires Calls.WellFormed(call) && call.mode.Direct?
    requires call.pc.DispatchRecords? || call.pc.DispatchWinnerRecords?
    ensures var seen := log + Burst(schedule);
            var move := Calls.Access(call.identity, call.op, call.pc, seen).0;
            && (move.Goto? ==> Calls.WellFormed(call.(pc := move.pc)))
            && Drive(call, log, schedule) == Continue(call, move, seen, Later(schedule))
  {
    Calls.AccessStaysInOperation(call.identity, call.op, call.pc, log + Burst(schedule));
  }

  lemma DriveAppend(call: Calls.Call, log: seq<Entry>, schedule: Schedule)
    requires Calls.WellFormed(call) && call.mode.Direct? && Calls.IsAppend(call.pc)
    ensures var seen := log + Burst(schedule);
            var record := Calls.RecordFor(call.identity, call.op, call.pc.ReserveAppend? && call.pc.opening);
            var appended := CompareAndAppend(seen, Entry(ScopeOf(call.identity), record), call.pc.head);
            var move := Calls.AfterAppend(call.pc, appended.Some?);
            && (move.Goto? ==> Calls.WellFormed(call.(pc := move.pc)))
            && Drive(call, log, schedule)
            == Continue(call, move, if appended.Some? then appended.value else seen, Later(schedule))
  {
    Calls.AccessStaysInOperation(call.identity, call.op, call.pc, log + Burst(schedule));
  }

  /** The call that `execute` stands for. */
  function ExecutionOf(identity: Identity, mode: Calls.Mode): (call: Calls.Call)
    requires mode.Executing?
    ensures Calls.WellFormed(call)
  {
    Calls.StartIsWellPlaced(identity, Calls.Reserve(mode.attempt));
    Calls.ExecuteCall(identity, mode, 0)
  }

  /** The call that a public method stands for. */
  function CallOf(identity: Identity, op: Calls.Operation): (call: Calls.Call)
    ensures Calls.WellFormed(call)
  {
    Calls.StartIsWellPlaced(identity, op);
    Calls.DirectCall(identity, op, 0)
  }

  lemma DriveDone(call: Calls.Call, log: seq<Entry>, schedule: Schedule)
    requires Calls.WellFormed(call) && call.pc.Done?
    ensures Drive(call, log, schedule) == (call.pc.outcome, log, schedule)
    ensures !Invokes(call, log, schedule)
  {
  }

  lemma DriveInvoke(call: Calls.Call, log: seq<Entry>, schedule: Schedule)
    requires Calls.WellFormed(call) && call.pc.InvokeProvider?
    ensures Calls.WellFormed(Calls.Invoke(call))
    ensures Drive(call, log, schedule) == Drive(Calls.Invoke(call), log, schedule)
    ensures Invokes(call, log, schedule)
  {
    Calls.StepKeepsForm(call, log);
  }

  /** Whether the provider was invoked is history: it does not influence a call. */
  lemma {:induction false} DriveIgnoresHistory(call: Calls.Call, log: seq<Entry>, schedule: Schedule)
    requires Calls.WellFormed(call) && call.mode.Direct?
    ensures Drive(call.(invoked := false), log, schedule) == Drive(call, log, schedule)
    decreases Calls.Budget(call)
  {
    if !call.pc.Done? {
      var seen, rest := log + Burst(schedule), Later(schedule);
      Calls.StepKeepsForm(call, seen);
      Calls.StepUsesBudget(call, seen);
      var (next, after) := Calls.Step(call, seen);
      DriveIgnoresHistory(next, after, rest);
      assert Calls.Step(call.(invoked := false), seen) == (next.(invoked := false), after);
    }
  }

  /** One store access of a running call. */
  lemma DriveAccess(call: Calls.Call, log: seq<Entry>, schedule: Schedule)
    requires Calls.WellFormed(call) && !call.pc.Done? && !call.pc.InvokeProvider?
    ensures var (move, after) := Calls.Access(call.identity, call.op, call.pc, log + Burst(schedule));
            && Calls.WellFormed(Calls.Settle(call, move))
            && Drive(call, log, schedule) == Drive(Calls.Settle(call, move), after, Later(schedule))
            && Invokes(call, log, schedule) == Invokes(Calls.Settle(call, move), after, Later(schedule))
  {
    Calls.StepKeepsForm(call, log + Burst(schedule));
  }

  /** Concluding overwrites the place: only the operation and the arguments matter. */
  lemma ConcludeFromAnywhere(call: Calls.Call, pc: Calls.Pc, outcome: Calls.Outcome)
    ensures Calls.Conclude(call.(pc := pc), outcome) == Calls.Conclude(call, outcome)
  {
  }

  /** A stage of `execute` runs exactly as the operation called directly, and then concludes. */
  lemma {:induction false} DriveStage(stage: Calls.Call, log: seq<Entry>, schedule: Schedule)
    requires Calls.WellFormed(stage) && stage.mode.Executing? && !stage.pc.InvokeProvider?
    requires stage.pc.Done? ==> stage.pc.outcome.Err?
    ensures Calls.WellFormed(stage.(mode := Calls.Direct))
    ensures var (outcome, after, rest) := Drive(stage.(mode := Calls.Direct), log, schedule);
            && Calls.WellFormed(Calls.Conclude(stage, outcome))
            && Drive(stage, log, schedule) == Drive(Calls.Conclude(stage, outcome), after, rest)
            && Invokes(stage, log, schedule) == Invokes(Calls.Conclude(stage, outcome), after, rest)
    decreases Calls.Remaining(stage.pc), 0
  {
    hide Drive, Invokes;
    var direct := stage.(mode := Calls.Direct);
    if stage.pc.Done? {
      DriveDone(direct, log, schedule);
    } else {
      DriveAccess(stage, log, schedule);
      DriveAccess(direct, log, schedule);
      var (move, after) := Calls.Access(stage.identity, stage.op, stage.pc, log + Burst(schedule));
      Calls.AccessStaysInOperation(stage.identity, stage.op, stage.pc, log + Burst(schedule));
      if move.Goto? {
        DriveGoto(stage, move.pc, after, Later(schedule));
      } else {
        DriveDone(direct.(pc := Calls.Done(move.outcome)), after, Later(schedule));
      }
    }
  }

  lemma {:induction false} DriveGoto(stage: Calls.Call, pc: Calls.Pc, log: seq<Entry>, schedule: Schedule)
    requires Calls.WellFormed(stage) && stage.mode.Executing? && Calls.WellFormed(stage.(pc := pc))
    requires !pc.InvokeProvider? && !pc.Done?
    ensures var (outcome, after, rest) := Drive(stage.(mode := Calls.Direct, pc := pc), log, schedule);
            && Calls.WellFormed(Calls.Conclude(stage, outcome))
            && Drive(stage.(pc := pc), log, schedule) == Drive(Calls.Conclude(stage, outcome), after, rest)
            && Invokes(stage.(pc := pc), log, schedule) == Invokes(Calls.Conclude(stage, outcome), after, rest)
    decreases Calls.Remaining(pc), 1
  {
    hide Drive, Invokes;
    var next := stage.(pc := pc);
    DriveStage(next, log, schedule);
    ConcludeFromAnywhere(stage, pc, Drive(next.(mode := Calls.Direct), log, schedule).0);
  }
}
