/**
  The coordinator's methods are proved equal to `Drive` under a schedule of what others append, and the
  theorems of ActionTheorems are about runs. Here the two meet: a call that returns in a run returns what
  `Drive` gives under the schedule of the entries that the others appended meanwhile.
 */
module MethodsInRuns {
  import opened Prelude
  import opened ExternalActions
  import opened ProvenanceLog
  import opened ActionCalls
  import opened ActionSystem
  import opened Driving

  function Flat(schedule: Schedule): seq<Entry> {
    if schedule == [] then [] else schedule[0] + Flat(schedule[1..])
  }

  /** Driven from the log under the schedule the call gives the outcome and invokes the provider or not, and
      the log it leaves together with the entries still to come is the final log. */
  ghost predicate Explains(call: Call, log: seq<Entry>, schedule: Schedule, outcome: Outcome, invoked: bool, final: seq<Entry>)
    requires WellFormed(call)
  {
    var (answer, left, rest) := Drive(call, log, schedule);
    answer == outcome && (call.invoked || Invokes(call, log, schedule)) == invoked && left + Flat(rest) == final
  }

  function Prepend(delta: seq<Entry>, schedule: Schedule): Schedule {
    if schedule == [] then [delta] else [delta + schedule[0]] + schedule[1..]
  }

  /** Entries that others append before a call's next access belong to the burst of that access. */
  lemma {:induction false} OthersComeFirst(call: Call, log: seq<Entry>, delta: seq<Entry>, schedule: Schedule,
                                           outcome: Outcome, invoked: bool, final: seq<Entry>) returns (earlier: Schedule)
    requires WellFormed(call) && Explains(call, log + delta, schedule, outcome, invoked, final)
    ensures Explains(call, log, earlier, outcome, invoked, final)
    decreases Budget(call)
  {
    if call.pc.Done? {
      earlier := [delta] + schedule;
      assert earlier[1..] == schedule;
      assert log + delta + Flat(schedule) == log + (delta + Flat(schedule));
    } else if call.pc.InvokeProvider? {
      DriveInvoke(call, log + delta, schedule);
      StepUsesBudget(call, log);
      earlier := OthersComeFirst(Invoke(call), log, delta, schedule, outcome, invoked, final);
      DriveInvoke(call, log, earlier);
    } else {
      earlier := Prepend(delta, schedule);
      assert log + Burst(earlier) == log + delta + Burst(schedule);
      assert Later(earlier) == Later(schedule);
      DriveAccess(call, log, earlier);
      DriveAccess(call, log + delta, schedule);
    }
  }

  lemma StepRemembers(call: Call, log: seq<Entry>)
    requires WellFormed(call) && !call.pc.Done?
    ensures Step(call, log).0.invoked == (call.invoked || call.pc.InvokeProvider?)
  {
    hide Access, Load;
  }

  /** A step of the call itself is an access before which nobody else appends. */
  lemma OwnStepIsDriven(call: Call, log: seq<Entry>, schedule: Schedule, outcome: Outcome, invoked: bool, final: seq<Entry>)
    returns (earlier: Schedule)
    requires WellFormed(call) && !call.pc.Done? && WellFormed(Step(call, log).0)
    requires Explains(Step(call, log).0, Step(call, log).1, schedule, outcome, invoked, final)
    ensures Explains(call, log, earlier, outcome, invoked, final)
  {
    StepRemembers(call, log);
    hide Access, Settle, Invoke, Drive, Invokes, Load;
    if call.pc.InvokeProvider? {
      DriveInvoke(call, log, schedule);
      earlier := schedule;
    } else {
      earlier := [[]] + schedule;
      assert log + Burst(earlier) == log;
      assert Later(earlier) == schedule;
      DriveAccess(call, log, earlier);
    }
  }

  /** Whatever the run did between two of its states, the call's part of it is driven. */
  lemma {:induction false} RunsAreDriven(run: seq<State>, m: nat, k: nat, i: nat) returns (schedule: Schedule)
    requires IsRun(run) && m <= k < |run| && i < |run[m].calls|
    requires i < |run[k].calls| && run[k].calls[i].pc.Done?
    ensures WellFormed(run[m].calls[i])
    ensures Explains(run[m].calls[i], run[m].log, schedule, run[k].calls[i].pc.outcome, run[k].calls[i].invoked, run[k].log)
    decreases k - m
  {
    RunKeepsInv(run, m);
    assert CallInv(run[m].calls[i], run[m].log);
    if m == k {
      schedule := [];
      DriveDone(run[k].calls[i], run[k].log, []);
      assert run[k].log + [] == run[k].log;
    } else {
      var st, next, outcome, invoked, final :=
        run[m], run[m + 1], run[k].calls[i].pc.outcome, run[k].calls[i].invoked, run[k].log;
      assert Next(st, next);
      var later := LaterSchedule(run, m, k, i);
      if j: nat :| Moves(st, next, j) {
        if i == j {
          schedule := OwnStepIsDriven(st.calls[i], st.log, later, outcome, invoked, final);
        } else {
          StepAppends(st.calls[j], st.log);
          assert next.calls[i] == st.calls[i];
          var delta := next.log[|st.log|..];
          assert next.log == st.log + delta;
          schedule := OthersComeFirst(st.calls[i], st.log, delta, later, outcome, invoked, final);
        }
      } else {
        assert next.log == st.log && next.calls[i] == st.calls[i];
        schedule := later;
      }
    }
  }

  lemma {:induction false} LaterSchedule(run: seq<State>, m: nat, k: nat, i: nat) returns (schedule: Schedule)
    requires IsRun(run) && m < k < |run| && i < |run[m].calls|
    requires i < |run[k].calls| && run[k].calls[i].pc.Done?
    ensures i < |run[m + 1].calls| && WellFormed(run[m + 1].calls[i])
    ensures Explains(run[m + 1].calls[i], run[m + 1].log, schedule, run[k].calls[i].pc.outcome, run[k].calls[i].invoked, run[k].log)
    decreases k - m, 0
  {
    assert Next(run[m], run[m + 1]);
    schedule := RunsAreDriven(run, m + 1, k, i);
  }

  /** When a call began is history: it does not influence it. */
  lemma {:induction false} DriveIgnoresBeginning(call: Call, began: nat, log: seq<Entry>, schedule: Schedule)
    requires WellFormed(call)
    ensures Drive(call.(began := began), log, schedule) == Drive(call, log, schedule)
    ensures Invokes(call.(began := began), log, schedule) == Invokes(call, log, schedule)
    decreases Budget(call)
  {
    if !call.pc.Done? {
      var (seen, rest) := if call.pc.InvokeProvider? then (log, schedule) else (log + Burst(schedule), Later(schedule));
      StepKeepsForm(call, seen);
      StepUsesBudget(call, seen);
      var (next, after) := Step(call, seen);
      StepIgnoresBeginning(call, began, seen);
      hide Step, WellFormed, Budget;
      DriveIgnoresBeginning(next, began, after, rest);
    }
  }

  lemma StepIgnoresBeginning(call: Call, began: nat, log: seq<Entry>)
    requires WellFormed(call) && !call.pc.Done?
    ensures WellFormed(call.(began := began))
    ensures var (next, after) := Step(call, log);
            Step(call.(began := began), log) == (next.(began := began), after)
  {
    hide Load, HeadOf, RecordFor;
  }

  /** A direct call in a run answers as its method does: for the schedule of what the others appended
      from its beginning on, the outcome is the method's, and the method's log and the entries that came
      after it make up the run's log. */
  lemma MethodsAnswerAsInRuns(run: seq<State>, m: nat, k: nat, i: nat, identity: Identity, op: Operation)
    requires IsRun(run) && m <= k < |run| && i < |run[m].calls|
    requires run[m].calls[i] == DirectCall(identity, op, run[m].calls[i].began)
    requires i < |run[k].calls| && run[k].calls[i].pc.Done?
    ensures exists schedule :: Explains(CallOf(identity, op), run[m].log, schedule, run[k].calls[i].pc.outcome,
                                        run[k].calls[i].invoked, run[k].log)
  {
    var schedule := RunsAreDriven(run, m, k, i);
    DriveIgnoresBeginning(run[m].calls[i], 0, run[m].log, schedule);
    assert Explains(CallOf(identity, op), run[m].log, schedule, run[k].calls[i].pc.outcome, run[k].calls[i].invoked, run[k].log);
  }

  /** The same for a call of `execute`. */
  lemma ExecutionsAnswerAsInRuns(run: seq<State>, m: nat, k: nat, i: nat, identity: Identity, mode: Mode)
    requires IsRun(run) && m <= k < |run| && i < |run[m].calls| && mode.Executing?
    requires run[m].calls[i] == ExecuteCall(identity, mode, run[m].calls[i].began)
    requires i < |run[k].calls| && run[k].calls[i].pc.Done?
    ensures exists schedule :: Explains(ExecutionOf(identity, mode), run[m].log, schedule, run[k].calls[i].pc.outcome,
                                        run[k].calls[i].invoked, run[k].log)
  {
    var schedule := RunsAreDriven(run, m, k, i);
    DriveIgnoresBeginning(run[m].calls[i], 0, run[m].log, schedule);
    assert Explains(ExecutionOf(identity, mode), run[m].log, schedule, run[k].calls[i].pc.outcome,
                    run[k].calls[i].invoked, run[k].log);
  }
}
