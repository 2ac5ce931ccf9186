/**
  What the concurrent coordinator guarantees in every reachable state of every interleaving.
 */
module ActionTheorems {
  import opened Prelude
  import opened ExternalActions
  import opened ProvenanceLog
  import opened ActionCalls
  import opened ActionSystem

  // ---------------------------------------------------------------- legality and fixed intent

  lemma {:induction false} ReplayUnderOtherIdentity(identity: Identity, records: seq<Record>, stored: Identity)
    requires records != [] && records[0].payload.identity == Some(stored) && stored != identity
    requires Replay(stored, records).Ok?
    ensures Replay(identity, records) == Err(IdempotencyConflict)
    decreases |records|
  {
    ReplayPrefix(stored, records, |records| - 1);
    if |records| == 1 {
      assert records[..0] == [];
    } else {
      ReplayUnderOtherIdentity(identity, records[..|records| - 1], stored);
    }
  }

  /** Every record that lands is legal where it lands, although begin_dispatch and the mark methods
      take the expected head from one read and check ownership on another: in every reachable state
      a stream has at most 1,001 records, and it loads exactly for the identity that reserved it
      first, exactly while it has at most 1,000. */
  lemma SplitReadsStayLegal(run: seq<State>, k: nat, identity: Identity)
    requires IsRun(run) && k < |run|
    ensures var records := Stream(run[k].log, ScopeOf(identity));
            && |records| <= MAX_TRANSITIONS + 1
            && (Load(run[k].log, identity).Ok? <==>
                  |records| <= MAX_TRANSITIONS && (records == [] || records[0].payload.identity == Some(identity)))
            && (records != [] && records[0].payload.identity != Some(identity) && |records| <= MAX_TRANSITIONS ==>
                  Load(run[k].log, identity) == Err(IdempotencyConflict))
  {
    RunKeepsInv(run, k);
    var records := Stream(run[k].log, ScopeOf(identity));
    assert Accepted(ScopeOf(identity), records);
    if records != [] && records[0].payload.identity != Some(identity) {
      ReplayUnderOtherIdentity(identity, records, records[0].payload.identity.value);
    }
  }

  /** A call that returned without an error was made with the identity its scope was first reserved
      with, and the state it returned was the stream's state at a moment during the call. */
  lemma AnswersAreSnapshots(run: seq<State>, k: nat, i: nat)
    requires IsRun(run) && k < |run| && i < |run[k].calls|
    requires run[k].calls[i].pc.Done? && run[k].calls[i].pc.outcome.Ok?
    ensures var call := run[k].calls[i];
            var records := OwnStream(call, run[k].log);
            && records != [] && records[0].payload.identity == Some(call.identity)
            && match call.pc.outcome.value
               case Updated(action) => Witnessed(call, run[k].log, action) && action.identity == call.identity
               case Reservation(_, action) => Witnessed(call, run[k].log, action) && action.identity == call.identity
               case Delivered(receipt) => SettledWith(call.identity, records, receipt)
  {
    RunKeepsInv(run, k);
    var call := run[k].calls[i];
    var records := OwnStream(call, run[k].log);
    match call.pc.outcome.value
    case Updated(action) => SnapshotIdentity(call, run[k].log, action);
    case Reservation(_, action) => SnapshotIdentity(call, run[k].log, action);
    case Delivered(receipt) => ReplayFixesIdentity(call.identity, records);
  }

  lemma SnapshotIdentity(call: Call, log: seq<Entry>, action: Action)
    requires Witnessed(call, log, action)
    ensures OwnStream(call, log) != [] && OwnStream(call, log)[0].payload.identity == Some(call.identity)
    ensures action.identity == call.identity
  {
    var n: nat :| call.began <= n <= |OwnStream(call, log)| && ReplaysTo(call.identity, OwnStream(call, log)[..n], action);
    ReplayFixesIdentity(call.identity, OwnStream(call, log)[..n]);
    assert OwnStream(call, log)[..n][0] == OwnStream(call, log)[0];
  }

  // ---------------------------------------------------------------- agreement

  /** Any two executions of one identity that return a receipt return the same one. It proves success
      of that identity, names the owning attempt, and the stream takes no record after it. */
  lemma ExecutionsAgree(run: seq<State>, k: nat, i: nat, j: nat, mine: Receipt, yours: Receipt)
    requires IsRun(run) && k < |run| && i < |run[k].calls| && j < |run[k].calls|
    requires run[k].calls[i].identity == run[k].calls[j].identity
    requires run[k].calls[i].pc == Done(Ok(Delivered(mine)))
    requires run[k].calls[j].pc == Done(Ok(Delivered(yours)))
    ensures mine == yours && VerifyReceipt(mine, run[k].calls[i].identity).Ok?
    ensures var records := OwnStream(run[k].calls[i], run[k].log);
            && SettledWith(run[k].calls[i].identity, records, mine)
            && Replay(run[k].calls[i].identity, records).value.value.owner == mine.attemptId
  {
    RunKeepsInv(run, k);
    var records := OwnStream(run[k].calls[i], run[k].log);
    assert CallInv(run[k].calls[j], run[k].log);
    ReceiptExactlyWhenConfirmed(run[k].calls[i].identity, records, Replay(run[k].calls[i].identity, records).value.value);
  }

  /** Moves only extend the log and never change a call that has returned. */
  lemma MoveExtends(st: State, next: State, j: nat, i: nat)
    requires Moves(st, next, j) && i < |st.calls|
    ensures st.log <= next.log && i < |next.calls|
    ensures st.calls[i].pc.Done? ==> next.calls[i] == st.calls[i]
  {
    StepAppends(st.calls[j], st.log);
  }

  lemma NextExtends(st: State, next: State, i: nat)
    requires Next(st, next) && i < |st.calls|
    ensures st.log <= next.log && i < |next.calls|
    ensures st.calls[i].pc.Done? ==> next.calls[i] == st.calls[i]
  {
    if j: nat :| Moves(st, next, j) { MoveExtends(st, next, j, i); }
  }

  /** A settled stream takes no further record. */
  lemma SettledStreamFreezes(log: seq<Entry>, next: seq<Entry>, identity: Identity, receipt: Receipt)
    requires log <= next && LegalLog(next)
    requires SettledWith(identity, Stream(log, ScopeOf(identity)), receipt)
    ensures Stream(next, ScopeOf(identity)) == Stream(log, ScopeOf(identity))
  {
    var before := Stream(log, ScopeOf(identity));
    var after := Stream(next, ScopeOf(identity));
    assert next[..|log|] == log;
    StreamPrefix(next, |log|, ScopeOf(identity));
    ReplayFixesIdentity(identity, before);
    assert Accepted(ScopeOf(identity), after);
    assert after[0] == before[0];
    ConfirmedAbsorbs(identity, before, after);
  }

  lemma DeliveredSettles(st: State, i: nat, receipt: Receipt)
    requires Inv(st) && i < |st.calls| && st.calls[i].pc == Done(Ok(Delivered(receipt)))
    ensures SettledWith(st.calls[i].identity, Stream(st.log, ScopeOf(st.calls[i].identity)), receipt)
  {
    assert CallInv(st.calls[i], st.log);
  }

  lemma RunStep(run: seq<State>, m: nat)
    requires IsRun(run) && 0 < m < |run|
    ensures Next(run[m - 1], run[m]) && Inv(run[m - 1]) && Inv(run[m])
  {
    RunKeepsInv(run, m - 1);
    RunKeepsInv(run, m);
    assert Next(run[m - 1], run[m - 1 + 1]);
  }

  /** Once a receipt was delivered, every later state of the run still holds exactly that stream. */
  lemma {:induction false} DeliveredIsFinal(run: seq<State>, k: nat, m: nat, i: nat, receipt: Receipt)
    requires IsRun(run) && k <= m < |run| && i < |run[k].calls|
    requires run[k].calls[i].pc == Done(Ok(Delivered(receipt)))
    ensures i < |run[m].calls| && run[m].calls[i] == run[k].calls[i]
    ensures Stream(run[m].log, ScopeOf(run[k].calls[i].identity)) == Stream(run[k].log, ScopeOf(run[k].calls[i].identity))
    decreases m
  {
    if m > k {
      DeliveredIsFinal(run, k, m - 1, i, receipt);
      RunStep(run, m);
      NextExtends(run[m - 1], run[m], i);
      DeliveredSettles(run[m - 1], i, receipt);
      SettledStreamFreezes(run[m - 1].log, run[m].log, run[k].calls[i].identity, receipt);
    }
  }

  /** The branches for a confirmed replay without a receipt and for a record that disappeared are
      never taken. */
  lemma UnreachableBranches(run: seq<State>, k: nat, i: nat)
    requires IsRun(run) && k < |run| && i < |run[k].calls|
    ensures run[k].calls[i].pc != Done(Err(ConfirmedWithoutReceipt))
    ensures run[k].calls[i].pc != Done(Err(RecordDisappeared))
  {
    RunKeepsInv(run, k);
    assert CallInv(run[k].calls[i], run[k].log);
  }

  /** A reservation gives up only if its stream grew by at least seven records during the call. */
  lemma ContentionBound(run: seq<State>, k: nat, i: nat)
    requires IsRun(run) && k < |run| && i < |run[k].calls|
    requires run[k].calls[i].pc == Done(Err(LostRepeatedRaces))
    ensures |OwnStream(run[k].calls[i], run[k].log)| >= run[k].calls[i].began + 7
  {
    RunKeepsInv(run, k);
    assert CallInv(run[k].calls[i], run[k].log);
  }

  /** A move of one call leaves the records, the head and every load of other scopes as they were. */
  lemma ScopesAreIsolated(st: State, next: State, i: nat, other: Identity)
    requires Moves(st, next, i) && ScopeOf(st.calls[i].identity) != ScopeOf(other)
    ensures Stream(next.log, ScopeOf(other)) == Stream(st.log, ScopeOf(other))
    ensures Load(next.log, other) == Load(st.log, other)
  {
    StepAppends(st.calls[i], st.log);
    if next.log != st.log {
      AppendIsolation(st.log, next.log[|st.log|], ScopeOf(other));
    }
  }

  // ---------------------------------------------------------------- the exactly-once fence

  /** Provider invocations made through `execute` for one logical action. */
  function ProviderCalls(calls: seq<Call>, scope: Scope): nat {
    if calls == [] then 0
    else
      var last := calls[|calls| - 1];
      ProviderCalls(calls[..|calls| - 1], scope) + (if ScopeOf(last.identity) == scope && last.invoked then 1 else 0)
  }

  /** The call passed the fence: a dispatch with its reference is on record, and it will invoke, or has
      invoked, the provider. */
  predicate Fenced(call: Call) {
    && call.mode.Executing?
    && (call.invoked || call.pc.InvokeProvider? || (call.op.BeginDispatch? && call.pc.DispatchReread?))
  }

  /** `execute` accepts these arguments; with others it raises before it reads anything. */
  predicate Eligible(mode: Mode) {
    mode.Executing? && Canonical(mode.attempt) && Canonical(mode.dispatchRef)
  }

  ghost predicate FindsOwnRef(call: Call, log: seq<Entry>)
    requires call.mode.Executing?
  {
    exists record :: record in OwnStream(call, log) && record.event == DispatchedEvent
                     && record.payload.dispatchRef == Some(call.mode.dispatchRef)
  }

  /** What a call past the fence has behind it. */
  ghost predicate Recorded(call: Call, log: seq<Entry>)
    requires call.mode.Executing?
  {
    && Eligible(call.mode)
    && FindsOwnRef(call, log)
    && OwnStream(call, log)[0].payload.identity == Some(call.identity)
  }

  predicate HistoryInv(call: Call) {
    call.invoked ==> call.mode.Executing? && (call.op.ConfirmSuccess? || call.pc.Done?)
  }

  ghost predicate FenceInv(st: State) {
    forall i :: 0 <= i < |st.calls| ==>
      HistoryInv(st.calls[i]) && (Fenced(st.calls[i]) ==> Recorded(st.calls[i], st.log))
  }

  lemma StepKeepsHistory(call: Call, log: seq<Entry>)
    requires WellFormed(call) && !call.pc.Done? && HistoryInv(call)
    ensures HistoryInv(Step(call, log).0)
  {
    if !call.pc.InvokeProvider? {
      AccessStaysInOperation(call.identity, call.op, call.pc, log);
    }
  }

  /** What is recorded stays recorded when the log grows. */
  lemma RecordedStays(call: Call, log: seq<Entry>, longer: seq<Entry>)
    requires call.mode.Executing? && Recorded(call, log) && log <= longer
    ensures Recorded(call, longer)
  {
    var record :| record in OwnStream(call, log) && record.event == DispatchedEvent
                  && record.payload.dispatchRef == Some(call.mode.dispatchRef);
    assert longer[..|log|] == log;
    StreamPrefix(longer, |log|, ScopeOf(call.identity));
    var i :| 0 <= i < |OwnStream(call, log)| && OwnStream(call, log)[i] == record;
    assert OwnStream(call, longer)[i] == record;
    assert OwnStream(call, longer)[0] == OwnStream(call, log)[0];
  }

  /** The dispatch append that lets a call pass the fence records its own reference. */
  lemma LandedDispatchIsRecorded(call: Call, log: seq<Entry>)
    requires LegalLog(log) && CallInv(call, log) && call.mode.Executing? && call.pc.DispatchAppend?
    requires HeadOf(log, ScopeOf(call.identity)) == call.pc.head
    ensures Recorded(call, log + [Entry(ScopeOf(call.identity), NextRecord(call))])
  {
    var after := log + [Entry(ScopeOf(call.identity), NextRecord(call))];
    LandedAppend(call, log);
    ReplayFixesIdentity(call.identity, OwnStream(call, after));
    assert NextRecord(call) in OwnStream(call, after);
  }

  /** The other way past the fence is to find a dispatch with the own reference in the own stream, after
      a read of that stream under the own identity. */
  lemma FoundDispatchIsRecorded(call: Call, log: seq<Entry>)
    requires LegalLog(log) && CallInv(call, log) && call.mode.Executing?
    requires call.pc.DispatchRecords? || call.pc.DispatchWinnerRecords?
    requires Fenced(Step(call, log).0) && !Fenced(call)
    ensures Recorded(call, log)
  {
    var records := OwnStream(call, log);
    assert records != [] && records[|records| - 1] in records;
    if call.pc.DispatchRecords? {
      SnapshotIdentity(call, log, call.pc.current);
    } else {
      SnapshotIdentity(call, log, call.pc.winner.value);
    }
  }

  /** A call passes the fence only by landing its own dispatch record, or by finding a dispatch record
      with its own reference. */
  lemma StepPassesFence(call: Call, log: seq<Entry>)
    requires WellFormed(call) && !call.pc.Done? && HistoryInv(call)
    requires !Fenced(call) && Fenced(Step(call, log).0)
    ensures call.mode.Executing?
    ensures || (call.pc.DispatchAppend? && HeadOf(log, ScopeOf(call.identity)) == call.pc.head
                && Step(call, log).1 == log + [Entry(ScopeOf(call.identity), NextRecord(call))])
            || call.pc.DispatchRecords?
            || call.pc.DispatchWinnerRecords?
  {
    AccessStaysInOperation(call.identity, call.op, call.pc, log);
    StepKeepsForm(call, log);
    StepAppends(call, log);
  }

  lemma StepKeepsFence(call: Call, log: seq<Entry>)
    requires LegalLog(log) && CallInv(call, log) && !call.pc.Done?
    requires HistoryInv(call) && (Fenced(call) ==> Recorded(call, log))
    ensures var (next, after) := Step(call, log);
            Fenced(next) ==> Recorded(next, after)
  {
    hide CallInv, LegalLog, Recorded, OwnStream, Stream;
    WellFormedCall(call, log);
    var (next, after) := Step(call, log);
    StepKeepsForm(call, log);
    if Fenced(next) {
      StepAppends(call, log);
      if Fenced(call) {
        RecordedStays(call, log, after);
      } else {
        StepPassesFence(call, log);
        if call.pc.DispatchAppend? {
          LandedDispatchIsRecorded(call, log);
        } else {
          FoundDispatchIsRecorded(call, log);
          RecordedStays(call, log, after);
        }
      }
      RecordedIsPerRequest(call, next, after);
    }
  }

  lemma WellFormedCall(call: Call, log: seq<Entry>)
    requires CallInv(call, log)
    ensures WellFormed(call)
  {
  }

  lemma RecordedIsPerRequest(call: Call, next: Call, log: seq<Entry>)
    requires call.mode.Executing? && next.mode == call.mode && next.identity == call.identity
    ensures Recorded(call, log) == Recorded(next, log)
  {
  }

  lemma MoveKeepsFence(st: State, next: State, i: nat)
    requires Inv(st) && FenceInv(st) && Moves(st, next, i)
    ensures FenceInv(next)
  {
    hide CallInv, LegalLog, Recorded, Step;
    var call := st.calls[i];
    assert CallInv(call, st.log);
    StepKeepsHistory(call, st.log);
    StepKeepsFence(call, st.log);
    StepAppends(call, st.log);
    forall j | 0 <= j < |next.calls|
      ensures HistoryInv(next.calls[j]) && (Fenced(next.calls[j]) ==> Recorded(next.calls[j], next.log))
    {
      if j != i {
        assert next.calls[j] == st.calls[j];
        if Fenced(st.calls[j]) { RecordedStays(st.calls[j], st.log, next.log); }
      }
    }
  }

  lemma SpawnKeepsFence(st: State, next: State, identity: Identity, mode: Mode, op: Operation)
    requires FenceInv(st) && Spawns(st, next, identity, mode, op)
    ensures FenceInv(next)
  {
    hide Recorded;
    StartIsWellPlaced(identity, op);
    if mode.Executing? { StartIsWellPlaced(identity, Reserve(mode.attempt)); }
    forall i | 0 <= i < |next.calls|
      ensures HistoryInv(next.calls[i]) && (Fenced(next.calls[i]) ==> Recorded(next.calls[i], next.log))
    {
      if i < |st.calls| { assert next.calls[i] == st.calls[i]; }
    }
  }

  lemma {:induction false} RunKeepsFence(run: seq<State>, k: nat)
    requires IsRun(run) && k < |run|
    ensures FenceInv(run[k])
  {
    if k == 0 {
      assert Initial(run[0]);
    } else {
      RunStep(run, k);
      RunKeepsFence(run, k - 1);
      var st, next := run[k - 1], run[k];
      if identity, mode, op :| Spawns(st, next, identity, mode, op) {
        SpawnKeepsFence(st, next, identity, mode, op);
      } else {
        var i: nat :| Moves(st, next, i);
        MoveKeepsFence(st, next, i);
      }
    }
  }

  /** With no assumption on references: when an execution is about to invoke the provider, and ever
      after, its own stream holds a dispatch record with its own reference, and the stream was reserved
      for its own identity. */
  lemma InvocationsAreRecorded(run: seq<State>, k: nat, i: nat)
    requires IsRun(run) && k < |run| && i < |run[k].calls|
    requires run[k].calls[i].pc.InvokeProvider? || run[k].calls[i].invoked
    ensures run[k].calls[i].mode.Executing? && Recorded(run[k].calls[i], run[k].log)
  {
    RunKeepsInv(run, k);
    RunKeepsFence(run, k);
    assert CallInv(run[k].calls[i], run[k].log);
  }

  // ---------------------------------------------------------------- counting references

  /** Two executions that may take one dispatch record for their own. */
  predicate Share(a: Call, b: Call) {
    && Eligible(a.mode) && Eligible(b.mode)
    && a.identity == b.identity && a.mode.dispatchRef == b.mode.dispatchRef
  }

  /** The executions of one logical action carry different references. What other scopes, direct
      dispatches and executions with unacceptable arguments carry does not matter. */
  predicate DistinctRefs(calls: seq<Call>, scope: Scope) {
    forall i, j :: 0 <= i < j < |calls| && ScopeOf(calls[i].identity) == scope ==> !Share(calls[i], calls[j])
  }

  /** The invoked executions of the scope are eligible and have one identity. */
  predicate InvokedTogether(calls: seq<Call>, scope: Scope) {
    && (forall a :: a in calls && a.invoked && ScopeOf(a.identity) == scope ==> Eligible(a.mode))
    && (forall a, b ::
          (a in calls && b in calls && a.invoked && b.invoked && ScopeOf(a.identity) == ScopeOf(b.identity) == scope)
          ==> a.identity == b.identity)
  }

  function InvokedRefs(calls: seq<Call>, scope: Scope): set<string> {
    set call | call in calls && ScopeOf(call.identity) == scope && call.invoked && call.mode.Executing?
      :: call.mode.dispatchRef
  }

  function DispatchRefs(records: seq<Record>): set<string> {
    set record | record in records && record.event == DispatchedEvent && record.payload.dispatchRef.Some?
      :: record.payload.dispatchRef.value
  }

  lemma {:induction false} RefsAreCounted(records: seq<Record>)
    ensures |DispatchRefs(records)| <= CountOf(records, DispatchedEvent)
    decreases |records|
  {
    if records != [] {
      var front, last := records[..|records| - 1], records[|records| - 1];
      RefsAreCounted(front);
      var added := if last.event == DispatchedEvent && last.payload.dispatchRef.Some?
                   then {last.payload.dispatchRef.value} else {};
      assert records == front + [last];
      assert DispatchRefs(records) == DispatchRefs(front) + added;
    }
  }

  /** Executions with different references invoke at most once for each reference. */
  lemma {:induction false} OneInvocationForEachRef(calls: seq<Call>, scope: Scope)
    requires DistinctRefs(calls, scope) && InvokedTogether(calls, scope)
    ensures ProviderCalls(calls, scope) == |InvokedRefs(calls, scope)|
    decreases |calls|
  {
    if calls != [] {
      var n := |calls| - 1;
      var front, last := calls[..n], calls[n];
      assert calls == front + [last];
      OneInvocationForEachRef(front, scope);
      hide DistinctRefs, InvokedTogether;
      if ScopeOf(last.identity) == scope && last.invoked {
        LastRefIsNew(calls, scope);
        assert InvokedRefs(calls, scope) == InvokedRefs(front, scope) + {last.mode.dispatchRef};
      } else {
        assert InvokedRefs(calls, scope) == InvokedRefs(front, scope);
      }
    }
  }

  lemma LastRefIsNew(calls: seq<Call>, scope: Scope)
    requires calls != [] && DistinctRefs(calls, scope) && InvokedTogether(calls, scope)
    requires var last := calls[|calls| - 1]; ScopeOf(last.identity) == scope && last.invoked
    ensures var last := calls[|calls| - 1];
            last.mode.Executing? && last.mode.dispatchRef !in InvokedRefs(calls[..|calls| - 1], scope)
  {
    var n := |calls| - 1;
    var front, last := calls[..n], calls[n];
    assert last in calls;
    forall call | call in front && ScopeOf(call.identity) == scope && call.invoked
      ensures call.mode.Executing? && call.mode.dispatchRef != last.mode.dispatchRef
    {
      var i :| 0 <= i < n && front[i] == call;
      assert calls[i] == call && call in calls;
      assert !Share(calls[i], calls[n]);
    }
  }

  /** Exactly once: in every interleaving in which the executions of one identity carry different
      dispatch references, the provider invocations for its logical action never exceed one plus the
      reconciliations that confirmed no effect. */
  lemma ExactlyOnce(run: seq<State>, k: nat, scope: Scope)
    requires IsRun(run) && k < |run| && DistinctRefs(run[k].calls, scope)
    ensures ProviderCalls(run[k].calls, scope) <= 1 + CountOf(Stream(run[k].log, scope), ConfirmedNoEffectEvent)
  {
    hide DistinctRefs, CountOf, ProviderCalls, InvokedTogether;
    var calls, records := run[k].calls, Stream(run[k].log, scope);
    InvokedAreTogether(run, k, scope);
    OneInvocationForEachRef(calls, scope);
    SubsetIsSmaller(InvokedRefs(calls, scope), DispatchRefs(records));
    RefsAreCounted(records);
    RunKeepsInv(run, k);
    assert Accepted(scope, records);
    if records != [] {
      DispatchBound(records[0].payload.identity.value, records);
    } else {
      NothingCounted();
    }
  }

  lemma NothingCounted()
    ensures forall event :: CountOf([], event) == 0
  {
  }

  lemma SubsetIsSmaller<T>(some: set<T>, all: set<T>)
    requires some <= all
    ensures |some| <= |all|
  {
    assert all == some + (all - some);
  }

  lemma InvokedAreTogether(run: seq<State>, k: nat, scope: Scope)
    requires IsRun(run) && k < |run|
    ensures InvokedTogether(run[k].calls, scope)
    ensures InvokedRefs(run[k].calls, scope) <= DispatchRefs(Stream(run[k].log, scope))
  {
    var calls, log := run[k].calls, run[k].log;
    forall call | call in calls && call.invoked
      ensures call.mode.Executing? && Recorded(call, log)
    {
      var i :| 0 <= i < |calls| && calls[i] == call;
      InvocationsAreRecorded(run, k, i);
    }
  }

  /** No dispatch follows a receipt, in any interleaving and whatever references the calls carry. */
  lemma NoDispatchAfterReceipt(run: seq<State>, k: nat, scope: Scope, m: nat, n: nat)
    requires IsRun(run) && k < |run|
    requires m < n < |Stream(run[k].log, scope)|
    requires Stream(run[k].log, scope)[n].event == DispatchedEvent
    ensures var event := Stream(run[k].log, scope)[m].event;
            event != ConfirmedSuccessEvent && event != ReceiptRecoveredEvent
  {
    RunKeepsInv(run, k);
    var records := Stream(run[k].log, scope);
    assert Accepted(scope, records);
    if records[m].event == ConfirmedSuccessEvent || records[m].event == ReceiptRecoveredEvent {
      NothingFollowsReceipt(records[0].payload.identity.value, records, m);
    }
  }
}
