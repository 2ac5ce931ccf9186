/**
  Runs that show two theorems of ActionTheorems to be exact. ExactlyOnce holds for a list of executions
  if and only if no two of them, of one identity and with acceptable arguments, carry the same dispatch
  reference: any two that do can both invoke the provider. And the seven records of ContentionBound are
  reached by a run in which rivals reserve and give up.
 */
module Witnesses {
  import opened Prelude
  import opened ExternalActions
  import opened ProvenanceLog
  import opened ActionCalls
  import opened ActionSystem
  import T = ActionTheorems

  ghost predicate Reachable(st: State) {
    exists run :: IsRun(run) && run[|run| - 1] == st
  }

  lemma GoOn(st: State, next: State)
    requires Reachable(st) && Next(st, next)
    ensures Reachable(next)
  {
    var run :| IsRun(run) && run[|run| - 1] == st;
    var longer := run + [next];
    forall k | 0 <= k < |longer| - 1 ensures Next(longer[k], longer[k + 1]) {
      if k < |run| - 1 {
        assert Next(run[k], run[k + 1]);
      }
    }
    assert IsRun(longer) && longer[|longer| - 1] == next;
  }

  lemma Take(st: State, i: nat, call: Call, log: seq<Entry>)
    requires Reachable(st) && i < |st.calls| && WellFormed(st.calls[i]) && !st.calls[i].pc.Done?
    requires Step(st.calls[i], st.log) == (call, log)
    ensures Reachable(State(log, st.calls[i := call]))
  {
    assert Moves(st, State(log, st.calls[i := call]), i);
    GoOn(st, State(log, st.calls[i := call]));
  }

  // ---------------------------------------------------------------- logs and what they read as

  /** What a read of the log by a call of the identity returns. */
  predicate ReadsAs(log: seq<Entry>, identity: Identity, current: Option<Action>) {
    Load(log, identity) == Ok(Loaded(current, HeadOf(log, ScopeOf(identity))))
  }

  function With(log: seq<Entry>, identity: Identity, record: Record): seq<Entry> {
    log + [Entry(ScopeOf(identity), record)]
  }

  /** A record that extends the stream is read back by the next load. */
  lemma ReadsOn(log: seq<Entry>, identity: Identity, current: Option<Action>, record: Record, next: Action)
    requires ReadsAs(log, identity, current) && |Stream(log, ScopeOf(identity))| < MAX_TRANSITIONS
    requires Extend(identity, current, record) == Ok(next)
    ensures ReadsAs(With(log, identity, record), identity, Some(next))
    ensures Stream(With(log, identity, record), ScopeOf(identity)) == Stream(log, ScopeOf(identity)) + [record]
  {
    StreamSnoc(log, Entry(ScopeOf(identity), record), ScopeOf(identity));
    ReplaySnoc(identity, Stream(log, ScopeOf(identity)), record);
  }

  lemma EmptyReads(identity: Identity)
    ensures ReadsAs([], identity, None) && Stream<Scope, Record>([], ScopeOf(identity)) == []
  {
  }

  /** Record number n of a rival: reservations, each followed by giving up. */
  function RivalRecord(identity: Identity, rival: string, n: nat): Record {
    if n % 2 == 1 then RecordFor(identity, Reserve(rival), n == 1)
    else RecordFor(identity, MarkPreEffectFailed(rival), false)
  }

  function RivalLog(identity: Identity, rival: string, n: nat): seq<Entry> {
    if n == 0 then [] else With(RivalLog(identity, rival, n - 1), identity, RivalRecord(identity, rival, n))
  }

  function RivalAction(identity: Identity, rival: string, n: nat): Option<Action> {
    if n == 0 then None
    else Some(Action(identity, if n % 2 == 1 then Reserved else PreEffectFailed, rival, (n + 1) / 2, None))
  }

  lemma RivalExtends(identity: Identity, rival: string, n: nat)
    requires Canonical(rival) && n > 0
    ensures RivalAction(identity, rival, n).Some?
    ensures Extend(identity, RivalAction(identity, rival, n - 1), RivalRecord(identity, rival, n))
         == Ok(RivalAction(identity, rival, n).value)
    ensures RivalRecord(identity, rival, n).event != ConfirmedNoEffectEvent
  {
  }

  lemma {:induction false} RivalLogReads(identity: Identity, rival: string, n: nat)
    requires Canonical(rival) && n < MAX_TRANSITIONS
    ensures ReadsAs(RivalLog(identity, rival, n), identity, RivalAction(identity, rival, n))
    ensures |Stream(RivalLog(identity, rival, n), ScopeOf(identity))| == n
    ensures CountOf(Stream(RivalLog(identity, rival, n), ScopeOf(identity)), ConfirmedNoEffectEvent) == 0
  {
    hide ReadsAs, Load, HeadOf;
    if n == 0 {
      EmptyReads(identity);
    } else {
      hide RivalAction, RivalRecord;
      var log, record := RivalLog(identity, rival, n - 1), RivalRecord(identity, rival, n);
      RivalLogReads(identity, rival, n - 1);
      RivalExtends(identity, rival, n);
      ReadsOn(log, identity, RivalAction(identity, rival, n - 1), record, RivalAction(identity, rival, n).value);
      CountSnoc(Stream(log, ScopeOf(identity)), record, ConfirmedNoEffectEvent);
    }
  }

  lemma {:induction false} RivalLogHead(identity: Identity, rival: string, n: nat)
    ensures |RivalLog(identity, rival, n)| == n
    ensures Height(HeadOf(RivalLog(identity, rival, n), ScopeOf(identity))) == n
  {
    if n > 0 {
      RivalLogHead(identity, rival, n - 1);
    }
  }

  // ---------------------------------------------------------------- undisturbed stages of a call

  function DispatchOf(call: Call): Operation
    requires call.mode.Executing?
  {
    BeginDispatch(call.mode.attempt, call.mode.dispatchRef, Moment(call.mode.now, true))
  }

  /** `execute` reserves and stands before its dispatch. */
  lemma Reserves(st: State, i: nat, current: Option<Action>, next: Action)
    requires Reachable(st) && i < |st.calls|
    requires var call := st.calls[i];
             && T.Eligible(call.mode) && call.op == Reserve(call.mode.attempt) && call.pc == ReserveRead(0)
    requires var call := st.calls[i];
             var record := RecordFor(call.identity, call.op, current.None?);
             && ReadsAs(st.log, call.identity, current)
             && (current.Some? ==> Retryable(current.value.state))
             && ReadsAs(With(st.log, call.identity, record), call.identity, Some(next))
             && next.state == Reserved && next.owner == call.mode.attempt
    ensures var call := st.calls[i];
            Reachable(State(With(st.log, call.identity, RecordFor(call.identity, call.op, current.None?)),
                            st.calls[i := call.(op := DispatchOf(call), pc := DispatchRead)]))
  {
    hide Reachable, Load, HeadOf, RecordFor;
    var call := st.calls[i];
    var head := HeadOf(st.log, ScopeOf(call.identity));
    var record := RecordFor(call.identity, call.op, current.None?);
    var appending, rereading := call.(pc := ReserveAppend(0, head, current.None?)), call.(pc := ReserveReread);
    var log := With(st.log, call.identity, record);
    Take(st, i, appending, st.log);
    Take(State(st.log, st.calls[i := appending]), i, rereading, log);
    assert st.calls[i := appending][i := rereading] == st.calls[i := rereading];
    var dispatching := call.(op := DispatchOf(call), pc := DispatchRead);
    Take(State(log, st.calls[i := rereading]), i, dispatching, log);
    assert st.calls[i := rereading][i := dispatching] == st.calls[i := dispatching];
  }

  /** `execute` reads and checks its ownership and stands before its dispatch append. */
  lemma PreparesDispatch(st: State, i: nat, current: Action)
    requires Reachable(st) && i < |st.calls|
    requires var call := st.calls[i];
             && call.mode.Executing? && call.op == DispatchOf(call) && call.pc == DispatchRead
             && ReadsAs(st.log, call.identity, Some(current))
             && |Stream(st.log, ScopeOf(call.identity))| <= MAX_TRANSITIONS
             && current.state == Reserved && current.owner == call.mode.attempt
    ensures var call := st.calls[i];
            Reachable(State(st.log, st.calls[i := call.(pc := DispatchAppend(HeadOf(st.log, ScopeOf(call.identity))))]))
  {
    hide Reachable, Load, HeadOf;
    var call := st.calls[i];
    var head := HeadOf(st.log, ScopeOf(call.identity));
    var c1, c2, c3 := call.(pc := DispatchRecords(current, head)), call.(pc := DispatchOwned(head)),
      call.(pc := DispatchAppend(head));
    Take(st, i, c1, st.log);
    Take(State(st.log, st.calls[i := c1]), i, c2, st.log);
    assert st.calls[i := c1][i := c2] == st.calls[i := c2];
    Take(State(st.log, st.calls[i := c2]), i, c3, st.log);
    assert st.calls[i := c2][i := c3] == st.calls[i := c3];
  }

  /** The dispatch append lands, is read back, and the provider is invoked. */
  lemma Dispatches(st: State, i: nat, next: Action)
    requires Reachable(st) && i < |st.calls|
    requires var call := st.calls[i];
             && call.mode.Executing? && call.op == DispatchOf(call)
             && call.pc == DispatchAppend(HeadOf(st.log, ScopeOf(call.identity)))
             && ReadsAs(With(st.log, call.identity, RecordFor(call.identity, call.op, false)), call.identity, Some(next))
             && next.state == OutcomeUnknown
    ensures var call := st.calls[i];
            Reachable(State(With(st.log, call.identity, RecordFor(call.identity, call.op, false)),
                            st.calls[i := Invoke(call.(pc := InvokeProvider))]))
  {
    hide Reachable, Load, HeadOf, RecordFor, Invoke;
    var call := st.calls[i];
    var log := With(st.log, call.identity, RecordFor(call.identity, call.op, false));
    var c1, c2 := call.(pc := DispatchReread), call.(pc := InvokeProvider);
    var c3 := Invoke(c2);
    Take(st, i, c1, log);
    Take(State(log, st.calls[i := c1]), i, c2, log);
    assert st.calls[i := c1][i := c2] == st.calls[i := c2];
    Take(State(log, st.calls[i := c2]), i, c3, log);
    assert st.calls[i := c2][i := c3] == st.calls[i := c3];
  }

  /** The dispatch append loses, and the call looks for who won. */
  lemma LosesDispatch(st: State, i: nat, winner: Action)
    requires Reachable(st) && i < |st.calls|
    requires var call := st.calls[i];
             && call.mode.Executing? && call.op == DispatchOf(call) && call.pc.DispatchAppend?
             && call.pc.head != HeadOf(st.log, ScopeOf(call.identity))
             && ReadsAs(st.log, call.identity, Some(winner))
    ensures Reachable(State(st.log, st.calls[i := st.calls[i].(pc := DispatchWinnerRecords(Some(winner)))]))
  {
    hide Reachable, Load, HeadOf, RecordFor;
    var call := st.calls[i];
    var c1, c2 := call.(pc := DispatchWinner), call.(pc := DispatchWinnerRecords(Some(winner)));
    Take(st, i, c1, st.log);
    Take(State(st.log, st.calls[i := c1]), i, c2, st.log);
    assert st.calls[i := c1][i := c2] == st.calls[i := c2];
  }

  /** The call that lost its append finds a dispatch with its reference, takes it for its own, and
      invokes the provider. */
  lemma TakesForItsOwn(st: State, i: nat)
    requires Reachable(st) && i < |st.calls|
    requires var call := st.calls[i];
             && call.mode.Executing? && call.op == DispatchOf(call) && call.pc.DispatchWinnerRecords?
             && call.pc.winner.Some? && call.pc.winner.value.owner == call.mode.attempt
             && var records := Stream(st.log, ScopeOf(call.identity));
             && 0 < |records| <= MAX_TRANSITIONS
             && records[|records| - 1].event == DispatchedEvent
             && records[|records| - 1].payload.dispatchRef == Some(call.mode.dispatchRef)
    ensures Reachable(State(st.log, st.calls[i := Invoke(st.calls[i].(pc := InvokeProvider))]))
  {
    hide Reachable, Load, HeadOf, Invoke;
    var call := st.calls[i];
    var c1 := call.(pc := InvokeProvider);
    var c2 := Invoke(c1);
    Take(st, i, c1, st.log);
    Take(State(st.log, st.calls[i := c1]), i, c2, st.log);
    assert st.calls[i := c1][i := c2] == st.calls[i := c2];
  }

  /** A rival's reservation lands. */
  lemma RivalReserves(st: State, i: nat, current: Option<Action>)
    requires Reachable(st) && i < |st.calls|
    requires var call := st.calls[i];
             && call.mode.Direct? && call.op.Reserve? && call.pc == ReserveRead(0)
             && ReadsAs(st.log, call.identity, current)
             && (current.Some? ==> Retryable(current.value.state))
    ensures var call := st.calls[i];
            Reachable(State(With(st.log, call.identity, RecordFor(call.identity, call.op, current.None?)),
                            st.calls[i := call.(pc := ReserveReread)]))
  {
    hide Reachable, Load, HeadOf, RecordFor;
    var call := st.calls[i];
    var c1 := call.(pc := ReserveAppend(0, HeadOf(st.log, ScopeOf(call.identity)), current.None?));
    var c2 := call.(pc := ReserveReread);
    Take(st, i, c1, st.log);
    Take(State(st.log, st.calls[i := c1]), i, c2, With(st.log, call.identity, RecordFor(call.identity, call.op, current.None?)));
    assert st.calls[i := c1][i := c2] == st.calls[i := c2];
  }

  /** A rival gives the attempt up before any effect. */
  lemma RivalGivesUp(st: State, i: nat, current: Action)
    requires Reachable(st) && i < |st.calls|
    requires var call := st.calls[i];
             && call.mode.Direct? && call.op.MarkPreEffectFailed? && call.pc == MarkRead
             && ReadsAs(st.log, call.identity, Some(current))
             && current.state == Reserved && current.owner == call.op.attempt
    ensures var call := st.calls[i];
            Reachable(State(With(st.log, call.identity, RecordFor(call.identity, call.op, false)),
                            st.calls[i := call.(pc := Reread)]))
  {
    hide Reachable, Load, HeadOf, RecordFor;
    var call := st.calls[i];
    var head := HeadOf(st.log, ScopeOf(call.identity));
    var log := With(st.log, call.identity, RecordFor(call.identity, call.op, false));
    var c1, c2, c3 := call.(pc := MarkOwned(head)), call.(pc := MarkAppend(head)), call.(pc := Reread);
    Take(st, i, c1, st.log);
    Take(State(st.log, st.calls[i := c1]), i, c2, st.log);
    assert st.calls[i := c1][i := c2] == st.calls[i := c2];
    Take(State(st.log, st.calls[i := c2]), i, c3, log);
    assert st.calls[i := c2][i := c3] == st.calls[i := c3];
  }

  // ---------------------------------------------------------------- beginning calls

  datatype Execution = Execution(identity: Identity, mode: Mode)

  /** The executions of a run, in the order in which they began. */
  function ExecutionsOf(calls: seq<Call>): seq<Execution> {
    if calls == [] then []
    else
      var last := calls[|calls| - 1];
      ExecutionsOf(calls[..|calls| - 1]) + if last.mode.Executing? then [Execution(last.identity, last.mode)] else []
  }

  predicate AllExecute(executions: seq<Execution>) {
    forall k :: 0 <= k < |executions| ==> executions[k].mode.Executing?
  }

  function Begun(executions: seq<Execution>): (calls: seq<Call>)
    requires AllExecute(executions)
    ensures |calls| == |executions|
    ensures forall k :: 0 <= k < |calls| ==> calls[k] == ExecuteCall(executions[k].identity, executions[k].mode, 0)
  {
    seq(|executions|, k requires 0 <= k < |executions| => ExecuteCall(executions[k].identity, executions[k].mode, 0))
  }

  lemma {:induction false} ExecutionsBegin(executions: seq<Execution>)
    requires AllExecute(executions)
    ensures Reachable(State([], Begun(executions)))
  {
    if executions == [] {
      NothingBegun();
      assert Begun(executions) == [];
    } else {
      hide ExecuteCall, Reachable, IsRun;
      var front, last := executions[..|executions| - 1], executions[|executions| - 1];
      ExecutionsBegin(front);
      assert Begun(executions) == Begun(front) + [ExecuteCall(last.identity, last.mode, 0)];
      assert Spawns(State([], Begun(front)), State([], Begun(executions)), last.identity, last.mode, Reserve(""));
      GoOn(State([], Begun(front)), State([], Begun(executions)));
    }
  }

  lemma NothingBegun()
    ensures Reachable(State([], []))
  {
    assert IsRun([State([], [])]) && [State([], [])][0] == State([], []);
  }

  lemma DirectBegins(calls: seq<Call>, identity: Identity, op: Operation)
    requires Reachable(State([], calls))
    ensures Reachable(State([], calls + [DirectCall(identity, op, 0)]))
  {
    assert Spawns(State([], calls), State([], calls + [DirectCall(identity, op, 0)]), identity, Direct, op);
    GoOn(State([], calls), State([], calls + [DirectCall(identity, op, 0)]));
  }

  /** The calls still answer the requests they were begun with. */
  predicate SameRequests(calls: seq<Call>, later: seq<Call>) {
    |calls| == |later| && forall k :: 0 <= k < |calls| ==> later[k].identity == calls[k].identity && later[k].mode == calls[k].mode
  }

  lemma {:induction false} SameExecutions(calls: seq<Call>, later: seq<Call>)
    requires SameRequests(calls, later)
    ensures ExecutionsOf(later) == ExecutionsOf(calls)
    decreases |calls|
  {
    if calls != [] {
      SameExecutions(calls[..|calls| - 1], later[..|later| - 1]);
    }
  }

  lemma {:induction false} BegunExecutions(executions: seq<Execution>)
    requires AllExecute(executions)
    ensures ExecutionsOf(Begun(executions)) == executions
  {
    if executions != [] {
      var front := executions[..|executions| - 1];
      BegunExecutions(front);
      assert Begun(executions)[..|executions| - 1] == Begun(front);
      assert executions == front + [executions[|executions| - 1]];
    }
  }

  lemma DirectIsNoExecution(calls: seq<Call>, call: Call)
    requires call.mode.Direct?
    ensures ExecutionsOf(calls + [call]) == ExecutionsOf(calls)
  {
    assert (calls + [call])[..|calls|] == calls;
  }

  // ---------------------------------------------------------------- a shared reference

  /** Two executions that carry one reference for one identity, both with acceptable arguments. */
  predicate Share(a: Execution, b: Execution) {
    && T.Eligible(a.mode) && T.Eligible(b.mode)
    && a.identity == b.identity && a.mode.dispatchRef == b.mode.dispatchRef
  }

  predicate RefsDiffer(executions: seq<Execution>, scope: Scope) {
    forall i, j :: 0 <= i < j < |executions| && ScopeOf(executions[i].identity) == scope
                   ==> !Share(executions[i], executions[j])
  }

  /** All executions begun, and three calls of other workers: two that give the attempt up and one that
      reserves it again. */
  function Cast(executions: seq<Execution>, identity: Identity, attempt: string): seq<Call>
    requires AllExecute(executions)
  {
    var gives := DirectCall(identity, MarkPreEffectFailed(attempt), 0);
    Begun(executions) + [gives] + [DirectCall(identity, Reserve(attempt), 0)] + [gives]
  }

  lemma CastBegins(executions: seq<Execution>, identity: Identity, attempt: string)
    requires AllExecute(executions)
    ensures Reachable(State([], Cast(executions, identity, attempt)))
    ensures ExecutionsOf(Cast(executions, identity, attempt)) == executions
  {
    hide Reachable;
    var gives, takes := DirectCall(identity, MarkPreEffectFailed(attempt), 0), DirectCall(identity, Reserve(attempt), 0);
    var begun := Begun(executions);
    ExecutionsBegin(executions);
    DirectBegins(begun, identity, MarkPreEffectFailed(attempt));
    DirectBegins(begun + [gives], identity, Reserve(attempt));
    DirectBegins(begun + [gives] + [takes], identity, MarkPreEffectFailed(attempt));
    BegunExecutions(executions);
    DirectIsNoExecution(begun, gives);
    DirectIsNoExecution(begun + [gives], takes);
    DirectIsNoExecution(begun + [gives] + [takes], gives);
  }

  /** The first sharing execution reserves and prepares its dispatch. Others give its attempt up and
      reserve it again, so its append loses, and the owner it then reads is its own attempt. */
  lemma FirstLosesItsAppend(executions: seq<Execution>, i: nat) returns (st: State)
    requires AllExecute(executions) && i < |executions| && T.Eligible(executions[i].mode)
    ensures var identity, mode := executions[i].identity, executions[i].mode;
            var calls := Cast(executions, identity, mode.attempt);
            && Reachable(st) && st.log == RivalLog(identity, mode.attempt, 4) && SameRequests(calls, st.calls)
            && (forall k :: 0 <= k < |executions| && k != i ==> st.calls[k] == calls[k])
            && st.calls[i] == calls[i].(op := DispatchOf(calls[i]),
                                        pc := DispatchWinnerRecords(RivalAction(identity, mode.attempt, 3)))
  {
    hide Reachable, ReadsAs, Cast, RivalLog;
    var identity, attempt := executions[i].identity, executions[i].mode.attempt;
    var calls, n := Cast(executions, identity, attempt), |executions|;
    CastBegins(executions, identity, attempt);
    CastMembers(executions, identity, attempt);
    RivalLogs(identity, attempt);
    var prepared := calls[i].(op := DispatchOf(calls[i]), pc := DispatchRead);
    Reserves(State([], calls), i, None, RivalAction(identity, attempt, 1).value);
    var c1 := calls[i := prepared];
    PreparesDispatch(State(RivalLog(identity, attempt, 1), c1), i, RivalAction(identity, attempt, 1).value);
    var c2 := c1[i := prepared.(pc := DispatchAppend(HeadOf(RivalLog(identity, attempt, 1), ScopeOf(identity))))];
    RivalGivesUp(State(RivalLog(identity, attempt, 1), c2), n, RivalAction(identity, attempt, 1).value);
    var c3 := c2[n := c2[n].(pc := Reread)];
    RivalReserves(State(RivalLog(identity, attempt, 2), c3), n + 1, RivalAction(identity, attempt, 2));
    var c4 := c3[n + 1 := c3[n + 1].(pc := ReserveReread)];
    LosesDispatch(State(RivalLog(identity, attempt, 3), c4), i, RivalAction(identity, attempt, 3).value);
    var c5 := c4[i := prepared.(pc := DispatchWinnerRecords(RivalAction(identity, attempt, 3)))];
    RivalGivesUp(State(RivalLog(identity, attempt, 3), c5), n + 2, RivalAction(identity, attempt, 3).value);
    st := State(RivalLog(identity, attempt, 4), c5[n + 2 := c5[n + 2].(pc := Reread)]);
  }

  lemma CastMembers(executions: seq<Execution>, identity: Identity, attempt: string)
    requires AllExecute(executions) && Canonical(attempt)
    ensures var calls, n := Cast(executions, identity, attempt), |executions|;
            && |calls| == n + 3
            && (forall k :: 0 <= k < n ==>
                  calls[k] == ExecuteCall(executions[k].identity, executions[k].mode, 0))
            && calls[n] == calls[n + 2] == Call(identity, Direct, MarkPreEffectFailed(attempt), MarkRead, false, 0)
            && calls[n + 1] == Call(identity, Direct, Reserve(attempt), ReserveRead(0), false, 0)
  {
  }

  /** The four rival logs, record by record. */
  lemma RivalLogs(identity: Identity, rival: string)
    requires Canonical(rival)
    ensures RivalLog(identity, rival, 0) == []
    ensures RivalLog(identity, rival, 1) == With([], identity, RecordFor(identity, Reserve(rival), true))
    ensures RivalLog(identity, rival, 2)
         == With(RivalLog(identity, rival, 1), identity, RecordFor(identity, MarkPreEffectFailed(rival), false))
    ensures RivalLog(identity, rival, 3)
         == With(RivalLog(identity, rival, 2), identity, RecordFor(identity, Reserve(rival), false))
    ensures RivalLog(identity, rival, 4)
         == With(RivalLog(identity, rival, 3), identity, RecordFor(identity, MarkPreEffectFailed(rival), false))
    ensures forall n: nat :: n <= 4 ==>
              && ReadsAs(RivalLog(identity, rival, n), identity, RivalAction(identity, rival, n))
              && |Stream(RivalLog(identity, rival, n), ScopeOf(identity))| == n
    ensures HeadOf(RivalLog(identity, rival, 1), ScopeOf(identity)) != HeadOf(RivalLog(identity, rival, 3), ScopeOf(identity))
  {
    hide ReadsAs, Stream, HeadOf, RecordFor;
    assert RivalLog(identity, rival, 0) == [];
    RivalLogHead(identity, rival, 1);
    RivalLogHead(identity, rival, 3);
    forall n: nat | n <= 4
      ensures ReadsAs(RivalLog(identity, rival, n), identity, RivalAction(identity, rival, n))
              && |Stream(RivalLog(identity, rival, n), ScopeOf(identity))| == n
    {
      RivalLogReads(identity, rival, n);
    }
  }

  function Dispatched(identity: Identity, rival: string, mode: Mode): seq<Entry>
    requires mode.Executing?
  {
    With(With(RivalLog(identity, rival, 4), identity, RecordFor(identity, Reserve(mode.attempt), false)), identity,
         RecordFor(identity, BeginDispatch(mode.attempt, mode.dispatchRef, Moment(mode.now, true)), false))
  }

  /** After the rival's four records the second sharing execution reserves and dispatches. */
  lemma SecondReads(identity: Identity, rival: string, mode: Mode)
    requires Canonical(rival) && T.Eligible(mode)
    ensures var reserved := With(RivalLog(identity, rival, 4), identity, RecordFor(identity, Reserve(mode.attempt), false));
            var action := Action(identity, Reserved, mode.attempt, 3, None);
            && ReadsAs(RivalLog(identity, rival, 4), identity, RivalAction(identity, rival, 4))
            && ReadsAs(reserved, identity, Some(action)) && |Stream(reserved, ScopeOf(identity))| == 5
            && ReadsAs(Dispatched(identity, rival, mode), identity, Some(action.(state := OutcomeUnknown)))
    ensures var records := Stream(Dispatched(identity, rival, mode), ScopeOf(identity));
            && |records| == 6 && IsDispatchBy(records[5], mode.attempt, mode.dispatchRef)
            && CountOf(records, ConfirmedNoEffectEvent) == 0
  {
    hide ReadsAs, RivalLog, Stream;
    var scope := ScopeOf(identity);
    var log := RivalLog(identity, rival, 4);
    var action := Action(identity, Reserved, mode.attempt, 3, None);
    var reserve := RecordFor(identity, Reserve(mode.attempt), false);
    var dispatch := RecordFor(identity, BeginDispatch(mode.attempt, mode.dispatchRef, Moment(mode.now, true)), false);
    RivalLogReads(identity, rival, 4);
    ReadsOn(log, identity, RivalAction(identity, rival, 4), reserve, action);
    ReadsOn(With(log, identity, reserve), identity, Some(action), dispatch, action.(state := OutcomeUnknown));
    CountSnoc(Stream(log, scope), reserve, ConfirmedNoEffectEvent);
    CountSnoc(Stream(With(log, identity, reserve), scope), dispatch, ConfirmedNoEffectEvent);
  }

  /** After the four records, another execution reserves, dispatches and invokes, undisturbed. */
  lemma SecondInvokes(before: State, j: nat, rival: string)
    requires Reachable(before) && j < |before.calls| && Canonical(rival)
    requires var call := before.calls[j];
             && T.Eligible(call.mode) && call == ExecuteCall(call.identity, call.mode, 0)
             && before.log == RivalLog(call.identity, rival, 4)
    ensures var call := before.calls[j];
            var invoking := call.(op := DispatchOf(call), pc := InvokeProvider);
            Reachable(State(Dispatched(call.identity, rival, call.mode), before.calls[j := Invoke(invoking)]))
  {
    hide Reachable, ReadsAs, RivalLog, Stream, RivalAction, Invoke, HeadOf;
    var call := before.calls[j];
    var identity, mode := call.identity, call.mode;
    SecondReads(identity, rival, mode);
    FourthIsOpen(identity, rival);
    var reserved := With(before.log, identity, RecordFor(identity, Reserve(mode.attempt), false));
    var action := Action(identity, Reserved, mode.attempt, 3, None);
    var prepared := call.(op := DispatchOf(call), pc := DispatchRead);
    Reserves(before, j, RivalAction(identity, rival, 4), action);
    var c1 := before.calls[j := prepared];
    PreparesDispatch(State(reserved, c1), j, action);
    var appending := prepared.(pc := DispatchAppend(HeadOf(reserved, ScopeOf(identity))));
    assert c1[j := appending] == before.calls[j := appending];
    Dispatches(State(reserved, before.calls[j := appending]), j, action.(state := OutcomeUnknown));
    var invoked := Invoke(appending.(pc := InvokeProvider));
    assert before.calls[j := appending][j := invoked] == before.calls[j := invoked];
  }

  lemma SharingInvokesTwice(executions: seq<Execution>, i: nat, j: nat) returns (st: State)
    requires AllExecute(executions) && i < j < |executions| && Share(executions[i], executions[j])
    ensures Reachable(st) && ExecutionsOf(st.calls) == executions
    ensures T.ProviderCalls(st.calls, ScopeOf(executions[i].identity)) >= 2
    ensures CountOf(Stream(st.log, ScopeOf(executions[i].identity)), ConfirmedNoEffectEvent) == 0
  {
    hide Reachable, ReadsAs, Cast, RivalLog, Stream, CountOf, ExecutionsOf, T.ProviderCalls, RivalAction, Invoke;
    var identity, attempt, mode := executions[i].identity, executions[i].mode.attempt, executions[j].mode;
    var before := FirstLosesItsAppend(executions, i);
    var calls := Cast(executions, identity, attempt);
    CastBegins(executions, identity, attempt);
    CastMembers(executions, identity, attempt);
    FourthIsOpen(identity, attempt);
    SecondReads(identity, attempt, mode);
    ExecuteKeeps(identity, mode);
    SecondInvokes(before, j, attempt);
    var second := Invoke(before.calls[j].(op := DispatchOf(before.calls[j]), pc := InvokeProvider));
    var c1 := before.calls[j := second];
    TakesForItsOwn(State(Dispatched(identity, attempt, mode), c1), i);
    var first := Invoke(c1[i].(pc := InvokeProvider));
    st := State(Dispatched(identity, attempt, mode), c1[i := first]);
    InvokeKeeps(c1[i].(pc := InvokeProvider));
    InvokeKeeps(before.calls[j].(op := DispatchOf(before.calls[j]), pc := InvokeProvider));
    assert SameRequests(calls, st.calls);
    SameExecutions(calls, st.calls);
    TwoInvoked(st.calls, i, j, ScopeOf(identity));
  }

  lemma ExecuteKeeps(identity: Identity, mode: Mode)
    requires T.Eligible(mode)
    ensures var call := ExecuteCall(identity, mode, 0);
            && call.identity == identity && call.mode == mode && call.op == Reserve(mode.attempt)
            && call.pc == ReserveRead(0) && !call.invoked
  {
  }

  lemma InvokeKeeps(call: Call)
    requires call.mode.Executing?
    ensures Invoke(call).invoked && Invoke(call).identity == call.identity && Invoke(call).mode == call.mode
  {
  }

  lemma FourthIsOpen(identity: Identity, rival: string)
    ensures RivalAction(identity, rival, 4).Some? && Retryable(RivalAction(identity, rival, 4).value.state)
    ensures RivalAction(identity, rival, 3).Some? && RivalAction(identity, rival, 3).value.owner == rival
  {
  }

  lemma {:induction false} TwoInvoked(calls: seq<Call>, i: nat, j: nat, scope: Scope)
    requires i < j < |calls| && calls[i].invoked && calls[j].invoked
    requires ScopeOf(calls[i].identity) == ScopeOf(calls[j].identity) == scope
    ensures T.ProviderCalls(calls, scope) >= 2
    decreases |calls|
  {
    var front := calls[..|calls| - 1];
    if j < |calls| - 1 {
      TwoInvoked(front, i, j, scope);
    } else {
      OneInvoked(front, i, scope);
    }
  }

  lemma {:induction false} OneInvoked(calls: seq<Call>, i: nat, scope: Scope)
    requires i < |calls| && calls[i].invoked && ScopeOf(calls[i].identity) == scope
    ensures T.ProviderCalls(calls, scope) >= 1
    decreases |calls|
  {
    if i < |calls| - 1 {
      OneInvoked(calls[..|calls| - 1], i, scope);
    }
  }

  /** The fence is exact. Take any list of executions, of this and other logical actions. In every run
      with exactly these executions, and any number of other calls, the provider invocations of the
      scope stay within one plus its no-effect records, if and only if no two executions of one identity
      of the scope carry the same reference. */
  lemma ExactlyOnceExactlyWhen(executions: seq<Execution>, scope: Scope)
    requires AllExecute(executions)
    ensures (forall st :: Reachable(st) && ExecutionsOf(st.calls) == executions ==> AtMostOnce(st, scope))
            <==> RefsDiffer(executions, scope)
  {
    hide Reachable, T.ProviderCalls, CountOf, Stream;
    if RefsDiffer(executions, scope) {
      forall st | Reachable(st) && ExecutionsOf(st.calls) == executions ensures AtMostOnce(st, scope) {
        DifferentRefsSuffice(st, executions, scope);
      }
    } else {
      var i, j :| 0 <= i < j < |executions| && ScopeOf(executions[i].identity) == scope && Share(executions[i], executions[j]);
      var st := SharingInvokesTwice(executions, i, j);
      assert !AtMostOnce(st, scope);
    }
  }

  predicate AtMostOnce(st: State, scope: Scope) {
    T.ProviderCalls(st.calls, scope) <= 1 + CountOf(Stream(st.log, scope), ConfirmedNoEffectEvent)
  }

  lemma DifferentRefsSuffice(st: State, executions: seq<Execution>, scope: Scope)
    requires Reachable(st) && ExecutionsOf(st.calls) == executions && RefsDiffer(executions, scope)
    ensures AtMostOnce(st, scope)
  {
    var run :| IsRun(run) && run[|run| - 1] == st;
    DifferentRefs(st.calls, scope);
    T.ExactlyOnce(run, |run| - 1, scope);
  }

  lemma DifferentRefs(calls: seq<Call>, scope: Scope)
    requires RefsDiffer(ExecutionsOf(calls), scope)
    ensures T.DistinctRefs(calls, scope)
  {
    hide ExecutionsOf;
    forall i, j | 0 <= i < j < |calls| && ScopeOf(calls[i].identity) == scope ensures !T.Share(calls[i], calls[j]) {
      if calls[i].mode.Executing? && calls[j].mode.Executing? {
        var k, l := AreListed(calls, i, j);
        assert !Share(ExecutionsOf(calls)[k], ExecutionsOf(calls)[l]);
      }
    }
  }

  /** Two executions of a run are listed in the order in which they began. */
  lemma {:induction false} AreListed(calls: seq<Call>, i: nat, j: nat) returns (k: nat, l: nat)
    requires i < j < |calls| && calls[i].mode.Executing? && calls[j].mode.Executing?
    ensures k < l < |ExecutionsOf(calls)|
    ensures ExecutionsOf(calls)[k] == Execution(calls[i].identity, calls[i].mode)
    ensures ExecutionsOf(calls)[l] == Execution(calls[j].identity, calls[j].mode)
    decreases |calls|
  {
    var front := calls[..|calls| - 1];
    if j == |calls| - 1 {
      k := IsListed(front, i);
      l := |ExecutionsOf(front)|;
    } else {
      k, l := AreListed(front, i, j);
    }
  }

  lemma {:induction false} IsListed(calls: seq<Call>, i: nat) returns (k: nat)
    requires i < |calls| && calls[i].mode.Executing?
    ensures k < |ExecutionsOf(calls)| && ExecutionsOf(calls)[k] == Execution(calls[i].identity, calls[i].mode)
    decreases |calls|
  {
    if i == |calls| - 1 {
      k := |ExecutionsOf(calls)| - 1;
    } else {
      k := IsListed(calls[..|calls| - 1], i);
    }
  }

  // ---------------------------------------------------------------- seven rival records

  /** A reservation, four rivals that reserve and three that give up; so many of these have acted. */
  function Rivals(ours: Call, rival: string, reserved: nat, givenUp: nat): (calls: seq<Call>)
    ensures |calls| == 8 && calls[0] == ours
    ensures forall k :: 1 <= k < 5 ==> calls[k] == Reserving(ours.identity, rival, k - 1 < reserved)
    ensures forall k :: 5 <= k < 8 ==> calls[k] == GivingUp(ours.identity, rival, k - 5 < givenUp)
  {
    seq(8, k requires 0 <= k < 8 =>
      if k == 0 then ours
      else if k < 5 then Reserving(ours.identity, rival, k - 1 < reserved)
      else GivingUp(ours.identity, rival, k - 5 < givenUp))
  }

  function Reserving(identity: Identity, rival: string, acted: bool): Call {
    var call := DirectCall(identity, Reserve(rival), 0);
    if acted then call.(pc := ReserveReread) else call
  }

  function GivingUp(identity: Identity, rival: string, acted: bool): Call {
    var call := DirectCall(identity, MarkPreEffectFailed(rival), 0);
    if acted then call.(pc := Reread) else call
  }

  lemma OneMoreActs(ours: Call, rival: string, reserved: nat, givenUp: nat)
    ensures reserved < 4 ==>
              Rivals(ours, rival, reserved, givenUp)[reserved + 1 := Reserving(ours.identity, rival, true)]
              == Rivals(ours, rival, reserved + 1, givenUp)
    ensures givenUp < 3 ==>
              Rivals(ours, rival, reserved, givenUp)[givenUp + 5 := GivingUp(ours.identity, rival, true)]
              == Rivals(ours, rival, reserved, givenUp + 1)
    ensures forall other: Call :: other.identity == ours.identity ==>
              Rivals(ours, rival, reserved, givenUp)[0 := other] == Rivals(other, rival, reserved, givenUp)
  {
    hide Reserving, GivingUp;
  }

  lemma RivalsBegin(identity: Identity, attempt: string, rival: string)
    requires Canonical(attempt) && Canonical(rival)
    ensures Reachable(State([], Rivals(DirectCall(identity, Reserve(attempt), 0), rival, 0, 0)))
  {
    hide Reachable;
    var ours := DirectCall(identity, Reserve(attempt), 0);
    var r, m := DirectCall(identity, Reserve(rival), 0), DirectCall(identity, MarkPreEffectFailed(rival), 0);
    NothingBegun();
    DirectBegins([], identity, Reserve(attempt));
    assert [] + [ours] == [ours];
    DirectBegins([ours], identity, Reserve(rival));
    DirectBegins([ours] + [r], identity, Reserve(rival));
    DirectBegins([ours] + [r] + [r], identity, Reserve(rival));
    DirectBegins([ours] + [r] + [r] + [r], identity, Reserve(rival));
    DirectBegins([ours] + [r] + [r] + [r] + [r], identity, MarkPreEffectFailed(rival));
    DirectBegins([ours] + [r] + [r] + [r] + [r] + [m], identity, MarkPreEffectFailed(rival));
    DirectBegins([ours] + [r] + [r] + [r] + [r] + [m] + [m], identity, MarkPreEffectFailed(rival));
    var calls := [ours] + [r] + [r] + [r] + [r] + [m] + [m] + [m];
    assert forall k :: 0 <= k < 8 ==> calls[k] == Rivals(ours, rival, 0, 0)[k];
    assert calls == Rivals(ours, rival, 0, 0);
  }

  /** One lost race: the reservation reads an open stream, a rival reserves, the append loses. */
  lemma LosesRace(ours: Call, rival: string, retry: nat)
    requires ours.mode.Direct? && ours.op.Reserve? && Canonical(rival) && retry < 4
    requires Reachable(State(RivalLog(ours.identity, rival, 2 * retry),
                             Rivals(ours.(pc := ReserveRead(retry)), rival, retry, retry)))
    ensures Reachable(State(RivalLog(ours.identity, rival, 2 * retry + 1),
                            Rivals(AfterRace(ours, retry), rival, retry + 1, retry)))
  {
    hide Reachable, ReadsAs, RivalLog, RivalAction, HeadOf, RecordFor, Rivals, Step, DirectCall;
    var identity, n := ours.identity, 2 * retry;
    var open, moved := RivalLog(identity, rival, n), RivalLog(identity, rival, n + 1);
    var reading := ours.(pc := ReserveRead(retry));
    var appending := ours.(pc := ReserveAppend(retry, HeadOf(open, ScopeOf(identity)), retry == 0));
    RivalLogReads(identity, rival, n);
    RivalStep(identity, rival, retry);
    ReadsOpen(ours, rival, retry);
    LosesAppend(ours, rival, retry);
    RivalCalls(identity, rival);
    OneMoreActs(reading, rival, retry, retry);
    OneMoreActs(appending, rival, retry, retry);
    OneMoreActs(appending, rival, retry + 1, retry);
    Take(State(open, Rivals(reading, rival, retry, retry)), 0, appending, open);
    RivalReserves(State(open, Rivals(appending, rival, retry, retry)), retry + 1, RivalAction(identity, rival, n));
    Take(State(moved, Rivals(appending, rival, retry + 1, retry)), 0, AfterRace(ours, retry), moved);
  }

  lemma RivalCalls(identity: Identity, rival: string)
    requires Canonical(rival)
    ensures var r, m := Reserving(identity, rival, false), GivingUp(identity, rival, false);
            && r == Call(identity, Direct, Reserve(rival), ReserveRead(0), false, 0)
            && m == Call(identity, Direct, MarkPreEffectFailed(rival), MarkRead, false, 0)
            && Reserving(identity, rival, true) == r.(pc := ReserveReread)
            && GivingUp(identity, rival, true) == m.(pc := Reread)
  {
  }

  lemma LosesAppend(ours: Call, rival: string, retry: nat)
    requires ours.mode.Direct? && ours.op.Reserve? && retry < 4
    ensures var open, moved := RivalLog(ours.identity, rival, 2 * retry), RivalLog(ours.identity, rival, 2 * retry + 1);
            Step(ours.(pc := ReserveAppend(retry, HeadOf(open, ScopeOf(ours.identity)), retry == 0)), moved)
            == (AfterRace(ours, retry), moved)
  {
    hide RivalLog, HeadOf, RecordFor;
    RivalLogHead(ours.identity, rival, 2 * retry);
    RivalLogHead(ours.identity, rival, 2 * retry + 1);
  }

  function AfterRace(ours: Call, retry: nat): Call {
    ours.(pc := if retry < 3 then ReserveRead(retry + 1) else Done(Err(LostRepeatedRaces)))
  }

  lemma ReadsOpen(ours: Call, rival: string, retry: nat)
    requires ours.mode.Direct? && ours.op.Reserve? && Canonical(rival) && retry < 4
    ensures var log := RivalLog(ours.identity, rival, 2 * retry);
            Step(ours.(pc := ReserveRead(retry)), log)
            == (ours.(pc := ReserveAppend(retry, HeadOf(log, ScopeOf(ours.identity)), retry == 0)), log)
  {
    hide RivalLog, Load;
    RivalLogReads(ours.identity, rival, 2 * retry);
  }

  lemma RivalStep(identity: Identity, rival: string, retry: nat)
    ensures var open := RivalAction(identity, rival, 2 * retry);
            && (open.None? <==> retry == 0)
            && (open.Some? ==> Retryable(open.value.state))
    ensures var taken := RivalAction(identity, rival, 2 * retry + 1);
            taken.Some? && taken.value.state == Reserved && taken.value.owner == rival
    ensures RivalLog(identity, rival, 2 * retry + 1)
         == With(RivalLog(identity, rival, 2 * retry), identity, RecordFor(identity, Reserve(rival), retry == 0))
    ensures RivalLog(identity, rival, 2 * retry + 2)
         == With(RivalLog(identity, rival, 2 * retry + 1), identity, RecordFor(identity, MarkPreEffectFailed(rival), false))
  {
  }

  /** Between two races a rival gives up, which opens the stream again. */
  lemma OpensAgain(ours: Call, rival: string, retry: nat)
    requires ours.mode.Direct? && ours.op.Reserve? && Canonical(rival) && retry < 3
    requires Reachable(State(RivalLog(ours.identity, rival, 2 * retry + 1), Rivals(ours, rival, retry + 1, retry)))
    ensures Reachable(State(RivalLog(ours.identity, rival, 2 * retry + 2), Rivals(ours, rival, retry + 1, retry + 1)))
  {
    hide Reachable, ReadsAs, RivalLog, RecordFor, Rivals, DirectCall, RivalAction, Reserving, GivingUp;
    var log := RivalLog(ours.identity, rival, 2 * retry + 1);
    RivalLogReads(ours.identity, rival, 2 * retry + 1);
    RivalStep(ours.identity, rival, retry);
    RivalCalls(ours.identity, rival);
    OneMoreActs(ours, rival, retry + 1, retry);
    RivalGivesUp(State(log, Rivals(ours, rival, retry + 1, retry)), retry + 5,
                 RivalAction(ours.identity, rival, 2 * retry + 1).value);
  }

  lemma {:induction false} RacesLost(ours: Call, rival: string, retry: nat)
    requires ours.mode.Direct? && ours.op.Reserve? && ours.pc == ReserveRead(0) && Canonical(rival) && retry < 4
    requires Reachable(State([], Rivals(ours, rival, 0, 0)))
    ensures Reachable(State(RivalLog(ours.identity, rival, 2 * retry + 1),
                            Rivals(AfterRace(ours, retry), rival, retry + 1, retry)))
  {
    hide Reachable, Rivals, RivalLog;
    if retry == 0 {
      assert RivalLog(ours.identity, rival, 0) == [] by { RivalLogHead(ours.identity, rival, 0); }
      assert ours.(pc := ReserveRead(0)) == ours;
    } else {
      RacesLost(ours, rival, retry - 1);
      OpensAgain(AfterRace(ours, retry - 1), rival, retry - 1);
    }
    LosesRace(ours, rival, retry);
  }

  /** The bound of ContentionBound is reached. For every identity there is a run in which a reservation
      gives up although its stream has grown by exactly seven records since it began, all of them
      written by reserve and mark calls. */
  lemma SevenRecordsSuffice(identity: Identity, attempt: string, rival: string)
    requires Canonical(attempt) && Canonical(rival)
    ensures exists st, i: nat :: Reachable(st) && i < |st.calls| && GaveUpAfterSeven(st.calls[i], st.log, identity, attempt)
  {
    hide Reachable, RivalLog;
    var ours := DirectCall(identity, Reserve(attempt), 0);
    RivalsBegin(identity, attempt, rival);
    RacesLost(ours, rival, 3);
    RivalLogReads(identity, rival, 7);
    var st := State(RivalLog(identity, rival, 7), Rivals(AfterRace(ours, 3), rival, 4, 3));
    assert Reachable(st) && GaveUpAfterSeven(st.calls[0], st.log, identity, attempt);
  }

  predicate GaveUpAfterSeven(call: Call, log: seq<Entry>, identity: Identity, attempt: string) {
    && call.identity == identity && call.op == Reserve(attempt) && call.mode.Direct?
    && call.pc == Done(Err(LostRepeatedRaces))
    && |OwnStream(call, log)| == call.began + 7
  }
}
