/**
  Run sequentially, the durable coordinator refines the in-process one.

  `Undisturbed.Sequential` is what a public method computes when nobody else touches its stream. The two
  coordinators are compared operation by operation and over whole scripts of calls.
 */
module Refinement {
  import opened Prelude
  import opened ExternalActions
  import opened ProvenanceLog
  import opened ActionCalls
  import opened Undisturbed
  import Memory = SafeCoordinator
  import ActionTheorems
  import Histories

  // ---------------------------------------------------------------- the refinement relation

  /** The dictionaries and the log tell the same story, scope by scope. */
  ghost predicate Matches(memory: Memory.Reference, log: seq<Entry>) {
    && Memory.Consistent(memory)
    && forall scope :: ScopeMatches(memory, log, scope)
  }

  predicate ScopeMatches(memory: Memory.Reference, log: seq<Entry>, scope: Scope) {
    if scope in memory.keys then
      && memory.keys[scope] in memory.actions
      && Stream(log, scope) != []
      && ReplaysTo(memory.keys[scope], Stream(log, scope), memory.actions[memory.keys[scope]])
    else Stream(log, scope) == []
  }

  /** What `begin_dispatch` needs beyond the arguments that the in-process method takes. */
  predicate ExtraArgumentsFit(op: Operation) {
    op.BeginDispatch? ==> Canonical(op.dispatchRef) && op.startedAt.aware
  }

  /** Appending one legal record corresponds to recording the action it leads to. */
  lemma WriteMatches(memory: Memory.Reference, log: seq<Entry>, identity: Identity, record: Record, action: Action)
    requires Matches(memory, log)
    requires ScopeOf(identity) in memory.keys ==> memory.keys[ScopeOf(identity)] == identity
    requires action.identity == identity
    requires var records := Stream(log, ScopeOf(identity));
             |records| < MAX_TRANSITIONS && Replay(identity, records).Ok?
             && Extend(identity, Replay(identity, records).value, record) == Ok(action)
    ensures var after := log + [Entry(ScopeOf(identity), record)];
            && Load(after, identity).Ok? && Load(after, identity).value.current == Some(action)
            && Matches(Memory.Put(memory, action), after)
  {
    var scope := ScopeOf(identity);
    var entry := Entry(scope, record);
    StreamSnoc(log, entry, scope);
    ReplaySnoc(identity, Stream(log, scope), record);
    Memory.PutKeepsConsistent(memory, action);
    forall other ensures ScopeMatches(Memory.Put(memory, action), log + [entry], other) {
      assert ScopeMatches(memory, log, other);
      if other != scope {
        AppendIsolation(log, entry, other);
        if other in memory.keys { assert ScopeOf(memory.keys[other]) == other; }
      }
    }
  }

  /** The stored action an identity has in both worlds, if its scope is its own. */
  lemma LoadMatches(memory: Memory.Reference, log: seq<Entry>, identity: Identity)
    requires Matches(memory, log) && |Stream(log, ScopeOf(identity))| < MAX_TRANSITIONS
    ensures var scope := ScopeOf(identity);
            var read := Load(log, identity);
            && (read.Ok? ==> Replay(identity, Stream(log, scope)) == Ok(read.value.current))
            && if scope !in memory.keys then
              read.Ok? && read.value.current == None && identity !in memory.actions && Stream(log, scope) == []
            else if memory.keys[scope] == identity then
              read.Ok? && identity in memory.actions && read.value.current == Some(memory.actions[identity])
              && Canonical(memory.actions[identity].owner) && memory.actions[identity].identity == identity
            else read.Err? && identity !in memory.actions
  {
    var scope := ScopeOf(identity);
    assert ScopeMatches(memory, log, scope);
    if scope in memory.keys {
      var stored := memory.keys[scope];
      ReplayFixesIdentity(stored, Stream(log, scope));
      ReceiptExactlyWhenConfirmed(stored, Stream(log, scope), memory.actions[stored]);
      if stored != identity {
        ActionTheorems.ReplayUnderOtherIdentity(identity, Stream(log, scope), stored);
      }
    }
  }

  /** The action an accepted in-process call leads to is the one its record replays to. */
  lemma RecordLeadsToAction(memory: Memory.Reference, identity: Identity, op: Operation, prior: Option<Action>,
                            opening: bool)
    requires ExtraArgumentsFit(op) && Start(identity, op).Goto?
    requires prior == if identity in memory.actions then Some(memory.actions[identity]) else None
    requires prior.Some? ==> prior.value.identity == identity
    requires ScopeOf(identity) in memory.keys ==> memory.keys[ScopeOf(identity)] == identity
    requires exists records :: Decide(op, prior, records) == Write(opening)
    ensures var (next, outcome) := Memory.ApplyTo(memory, identity, op);
            outcome.Ok? && (outcome.value.Updated? || outcome.value.Reservation?)
            && outcome.value.action.identity == identity
            && next == Memory.Put(memory, outcome.value.action)
            && Extend(identity, prior, RecordFor(identity, op, opening)) == Ok(outcome.value.action)
            && Report(op, Some(outcome.value.action)) == outcome
  {
  }

  lemma WriteAgrees(memory: Memory.Reference, log: seq<Entry>, identity: Identity, op: Operation,
                    prior: Option<Action>, opening: bool)
    requires Matches(memory, log) && ExtraArgumentsFit(op) && Start(identity, op).Goto?
    requires |Stream(log, ScopeOf(identity))| < MAX_TRANSITIONS
    requires Replay(identity, Stream(log, ScopeOf(identity))) == Ok(prior)
    requires prior == if identity in memory.actions then Some(memory.actions[identity]) else None
    requires ScopeOf(identity) in memory.keys ==> memory.keys[ScopeOf(identity)] == identity
    requires Decide(op, prior, Stream(log, ScopeOf(identity))) == Write(opening)
    ensures var (next, expected) := Memory.ApplyTo(memory, identity, op);
            var after := log + [Entry(ScopeOf(identity), RecordFor(identity, op, opening))];
            && expected.Ok? && Matches(next, after)
            && Load(after, identity).Ok? && Report(op, Load(after, identity).value.current) == expected
  {
    RecordLeadsToAction(memory, identity, op, prior, opening);
    var action := Memory.ApplyTo(memory, identity, op).1.value.action;
    WriteMatches(memory, log, identity, RecordFor(identity, op, opening), action);
  }

  /** Whatever the in-process coordinator accepts, the durable one accepts with the same resulting
      identity, state, owner, attempt count and receipt; every further call that the durable one
      accepts is an idempotent repeat that appends nothing; and the two stay matched. */
  lemma DurableRefinesMemory(memory: Memory.Reference, log: seq<Entry>, identity: Identity, op: Operation)
    requires Matches(memory, log) && ExtraArgumentsFit(op)
    requires |Stream(log, ScopeOf(identity))| < MAX_TRANSITIONS
    ensures var (next, expected) := Memory.ApplyTo(memory, identity, op);
            var (outcome, after) := Sequential(log, identity, op);
            && (expected.Ok? ==> outcome == expected)
            && (expected.Err? ==> next == memory && after == log)
            && (outcome.Ok? && expected.Err? ==>
                  outcome.value.Updated? && identity in memory.actions && outcome.value.action == memory.actions[identity])
            && Matches(next, after)
  {
    hide Memory.ApplyTo, Decide, Start, Replay, Load, Stream, Report;
    StartIsWellPlaced(identity, op);
    LoadMatches(memory, log, identity);
    Memory.ApplyPutsOwnAction(memory, identity, op);
    var scope := ScopeOf(identity);
    var records := Stream(log, scope);
    var read := Load(log, identity);
    if Start(identity, op).Goto? && read.Ok? {
      var decision := Decide(op, read.value.current, records);
      if decision.Write? {
        WriteAgrees(memory, log, identity, op, read.value.current, decision.opening);
      } else {
        RespondAgrees(memory, identity, op, read.value.current, records);
      }
    } else {
      RejectAgrees(memory, identity, op);
    }
  }

  /** An operation that answers without appending changes nothing in either world. */
  lemma RespondAgrees(memory: Memory.Reference, identity: Identity, op: Operation, prior: Option<Action>,
                      records: seq<Record>)
    requires ExtraArgumentsFit(op) && Start(identity, op).Goto? && Decide(op, prior, records).Respond?
    requires prior == if identity in memory.actions then Some(memory.actions[identity]) else None
    requires ScopeOf(identity) in memory.keys ==> memory.keys[ScopeOf(identity)] == identity
    ensures var (next, expected) := Memory.ApplyTo(memory, identity, op);
            var outcome := Decide(op, prior, records).outcome;
            && (expected.Ok? ==> outcome == expected)
            && next == memory
            && (outcome.Ok? && expected.Err? ==> prior.Some? && outcome == Ok(Updated(prior.value)))
  {
  }

  /** A call that the durable coordinator rejects before it decides is rejected in process too. */
  lemma RejectAgrees(memory: Memory.Reference, identity: Identity, op: Operation)
    requires ExtraArgumentsFit(op)
    requires || Start(identity, op).Finish?
             || (ScopeOf(identity) in memory.keys && memory.keys[ScopeOf(identity)] != identity && identity !in memory.actions)
    requires identity in memory.actions ==> Canonical(memory.actions[identity].owner)
    ensures var (next, expected) := Memory.ApplyTo(memory, identity, op);
            next == memory && expected.Err?
  {
  }

  // ---------------------------------------------------------------- what the durable one accepts beyond that

  /** A call whose effect the action already has: the same dispatch, the same mark, the same reconciliation, or
      the receipt that is stored. */
  predicate Repeats(op: Operation, action: Action, records: seq<Record>) {
    match op
    case Reserve(_) => false
    case BeginDispatch(attempt, dispatchRef, _) =>
      action.state == OutcomeUnknown && records != [] && IsDispatchBy(records[|records| - 1], attempt, dispatchRef)
    case MarkPreEffectFailed(attempt) => action.state == PreEffectFailed && action.owner == attempt
    case MarkOutcomeUnknown(attempt) => action.state == OutcomeUnknown && action.owner == attempt
    case ConfirmNoEffect(reference) => action.state == ConfirmedNoEffect && Canonical(reference)
    case ConfirmSuccess(attempt, receipt) => action.receipt == Some(receipt) && receipt.attemptId == attempt
    case RecoverReceipt(receipt, reference) => action.receipt == Some(receipt) && Canonical(reference)
  }

  /** The durable coordinator accepts exactly what the in-process one accepts, and the repeats. */
  lemma DurableAcceptsExactly(memory: Memory.Reference, log: seq<Entry>, identity: Identity, op: Operation)
    requires Matches(memory, log) && ExtraArgumentsFit(op)
    requires |Stream(log, ScopeOf(identity))| < MAX_TRANSITIONS
    ensures Sequential(log, identity, op).0.Ok? <==>
              || Memory.ApplyTo(memory, identity, op).1.Ok?
              || (identity in memory.actions && Repeats(op, memory.actions[identity], Stream(log, ScopeOf(identity))))
  {
    hide Memory.ApplyTo, Repeats, Decide, Start, Replay, Load, Stream, Report;
    var records := Stream(log, ScopeOf(identity));
    LoadMatches(memory, log, identity);
    DurableRefinesMemory(memory, log, identity, op);
    StartIsWellPlaced(identity, op);
    if identity in memory.actions {
      var action := memory.actions[identity];
      ReceiptExactlyWhenConfirmed(identity, records, action);
      if records != [] { DispatchNamesOwner(identity, records, action); }
      RepeatsAreAccepted(memory, identity, op, action, records);
      if Start(identity, op).Goto? && Decide(op, Some(action), records).Write? {
        WriteAgrees(memory, log, identity, op, Some(action), Decide(op, Some(action), records).opening);
      }
    } else if Load(log, identity).Ok? && Start(identity, op).Goto? {
      NothingToRepeat(op, records);
      var decision := Decide(op, None, records);
      if decision.Write? {
        WriteAgrees(memory, log, identity, op, None, decision.opening);
      }
    }
  }

  lemma NothingToRepeat(op: Operation, records: seq<Record>)
    ensures Decide(op, None, records).Respond? ==> Decide(op, None, records).outcome.Err?
  {
  }

  lemma DispatchNamesOwner(identity: Identity, records: seq<Record>, action: Action)
    requires records != [] && ReplaysTo(identity, records, action)
    ensures var last := records[|records| - 1];
            last.event == DispatchedEvent ==> last.payload.attemptId == Some(action.owner)
  {
    Histories.ReplayExactlyWhenLegal(identity, records);
    assert Histories.Fits(identity, records, |records| - 1);
  }

  lemma RepeatsAreAccepted(memory: Memory.Reference, identity: Identity, op: Operation, action: Action, records: seq<Record>)
    requires ExtraArgumentsFit(op) && action.identity == identity && Canonical(action.owner)
    requires action.receipt.Some? <==> Confirmed(action.state)
    requires action.receipt.Some? ==>
               action.receipt.value.attemptId == action.owner && VerifyReceipt(action.receipt.value, identity).Ok?
    requires records != [] && records[|records| - 1].event == DispatchedEvent ==>
               records[|records| - 1].payload.attemptId == Some(action.owner)
    requires identity in memory.actions && memory.actions[identity] == action
    requires ScopeOf(identity) in memory.keys && memory.keys[ScopeOf(identity)] == identity
    ensures Repeats(op, action, records) ==>
              Start(identity, op).Goto? && Decide(op, Some(action), records) == Respond(Ok(Updated(action)))
    ensures Start(identity, op).Goto? && Decide(op, Some(action), records).Respond? && Decide(op, Some(action), records).outcome.Ok? ==>
              Memory.ApplyTo(memory, identity, op).1.Ok? || Repeats(op, action, records)
  {
  }

  // ---------------------------------------------------------------- whole scripts of calls

  datatype Request = Request(identity: Identity, op: Operation)

  function RunMemory(script: seq<Request>): (Memory.Reference, seq<Outcome>) {
    if script == [] then (Memory.EMPTY, [])
    else
      var (memory, outcomes) := RunMemory(script[..|script| - 1]);
      var last := script[|script| - 1];
      var (next, outcome) := Memory.ApplyTo(memory, last.identity, last.op);
      (next, outcomes + [outcome])
  }

  function RunDurable(script: seq<Request>): (seq<Entry>, seq<Outcome>) {
    if script == [] then ([], [])
    else
      var (log, outcomes) := RunDurable(script[..|script| - 1]);
      var last := script[|script| - 1];
      var (outcome, after) := Sequential(log, last.identity, last.op);
      (after, outcomes + [outcome])
  }

  /** Before each call its stream is still below the limit. */
  predicate StaysShort(script: seq<Request>) {
    forall k :: 0 <= k < |script| ==>
      |Stream(RunDurable(script[..k]).0, ScopeOf(script[k].identity))| < MAX_TRANSITIONS
  }

  /** The calls of a script for one logical action. */
  function CallsFor(script: seq<Request>, scope: Scope): nat {
    if script == [] then 0
    else
      CallsFor(script[..|script| - 1], scope)
      + (if ScopeOf(script[|script| - 1].identity) == scope then 1 else 0)
  }

  lemma SequentialGrows(log: seq<Entry>, identity: Identity, op: Operation, scope: Scope)
    ensures |Stream(Sequential(log, identity, op).1, scope)|
         <= |Stream(log, scope)| + (if ScopeOf(identity) == scope then 1 else 0)
  {
    var after := Sequential(log, identity, op).1;
    if after != log {
      StreamSnoc(log, after[|log|], scope);
    }
  }

  lemma {:induction false} StreamsFollowCalls(script: seq<Request>, scope: Scope)
    ensures |Stream(RunDurable(script).0, scope)| <= CallsFor(script, scope)
  {
    if script != [] {
      var front, last := script[..|script| - 1], script[|script| - 1];
      StreamsFollowCalls(front, scope);
      SequentialGrows(RunDurable(front).0, last.identity, last.op, scope);
    }
  }

  lemma {:induction false} CallsForGrows(script: seq<Request>, k: nat, scope: Scope)
    requires k < |script| && ScopeOf(script[k].identity) == scope
    ensures CallsFor(script[..k], scope) < CallsFor(script, scope)
    decreases |script|
  {
    var front := script[..|script| - 1];
    if k < |front| {
      CallsForGrows(front, k, scope);
      assert front[..k] == script[..k];
    }
  }

  /** A thousand calls for each logical action keep every stream short, however many actions there are. */
  lemma FewCallsStayShort(script: seq<Request>)
    requires forall scope :: CallsFor(script, scope) <= MAX_TRANSITIONS
    ensures StaysShort(script)
  {
    forall k | 0 <= k < |script|
      ensures |Stream(RunDurable(script[..k]).0, ScopeOf(script[k].identity))| < MAX_TRANSITIONS
    {
      StreamsFollowCalls(script[..k], ScopeOf(script[k].identity));
      CallsForGrows(script, k, ScopeOf(script[k].identity));
    }
  }

  /** Call k of the script, in both worlds: an outcome that the in-process coordinator accepts is the
      durable one's too, and a further one that only the durable coordinator accepts repeats the stored
      action and appends nothing. */
  predicate CallRefines(script: seq<Request>, k: nat)
    requires k < |script|
  {
    var (memory, log) := (RunMemory(script[..k]).0, RunDurable(script[..k]).0);
    var expected := Memory.ApplyTo(memory, script[k].identity, script[k].op).1;
    var (outcome, after) := Sequential(log, script[k].identity, script[k].op);
    && (expected.Ok? ==> outcome == expected)
    && (outcome.Ok? && expected.Err? ==>
          && after == log
          && outcome.value.Updated? && script[k].identity in memory.actions
          && outcome.value.action == memory.actions[script[k].identity])
  }

  /** The outcomes of a script are those of its calls, one by one. */
  lemma {:induction false} OutcomesByCall(script: seq<Request>, k: nat)
    requires k < |script|
    ensures |RunMemory(script).1| == |RunDurable(script).1| == |script|
    ensures RunMemory(script).1[k] == Memory.ApplyTo(RunMemory(script[..k]).0, script[k].identity, script[k].op).1
    ensures RunDurable(script).1[k] == Sequential(RunDurable(script[..k]).0, script[k].identity, script[k].op).0
    decreases |script|
  {
    hide Sequential, Memory.ApplyTo;
    var front := script[..|script| - 1];
    if front != [] {
      OutcomesByCall(front, if k < |front| then k else 0);
    }
    if k < |front| {
      assert front[..k] == script[..k];
    }
  }

  lemma LastCallRefines(script: seq<Request>)
    requires script != [] && StaysShort(script) && ExtraArgumentsFit(script[|script| - 1].op)
    requires var front := script[..|script| - 1]; Matches(RunMemory(front).0, RunDurable(front).0)
    ensures Matches(RunMemory(script).0, RunDurable(script).0) && CallRefines(script, |script| - 1)
  {
    hide Matches, Sequential, Memory.ApplyTo, ExtraArgumentsFit;
    var front, last := script[..|script| - 1], script[|script| - 1];
    DurableRefinesMemory(RunMemory(front).0, RunDurable(front).0, last.identity, last.op);
  }

  lemma {:induction false} StoresStayMatched(script: seq<Request>)
    requires StaysShort(script)
    requires forall k :: 0 <= k < |script| ==> ExtraArgumentsFit(script[k].op)
    ensures Matches(RunMemory(script).0, RunDurable(script).0)
  {
    hide Matches, RunMemory, RunDurable, ExtraArgumentsFit;
    if script == [] {
      EmptyStoresMatch();
    } else {
      PrefixStaysShort(script, |script| - 1);
      StoresStayMatched(script[..|script| - 1]);
      LastCallRefines(script);
    }
  }

  lemma PrefixStaysShort(script: seq<Request>, n: nat)
    requires StaysShort(script) && n <= |script|
    ensures StaysShort(script[..n])
  {
    hide RunDurable;
    assert forall k :: 0 <= k < n ==> script[..n][..k] == script[..k];
  }

  /** From empty stores, every script that keeps each stream below the limit refines call by call, and
      the two stores stay matched. */
  lemma {:induction false} ScriptsRefine(script: seq<Request>)
    requires StaysShort(script)
    requires forall k :: 0 <= k < |script| ==> ExtraArgumentsFit(script[k].op)
    ensures Matches(RunMemory(script).0, RunDurable(script).0)
    ensures forall k :: 0 <= k < |script| ==>
              && CallRefines(script, k)
              && |RunMemory(script).1| == |RunDurable(script).1| == |script|
              && (RunMemory(script).1[k].Ok? ==> RunDurable(script).1[k] == RunMemory(script).1[k])
  {
    hide Matches, RunMemory, RunDurable, CallRefines, StaysShort, ExtraArgumentsFit;
    StoresStayMatched(script);
    forall k | 0 <= k < |script|
      ensures && CallRefines(script, k)
              && |RunMemory(script).1| == |RunDurable(script).1| == |script|
              && (RunMemory(script).1[k].Ok? ==> RunDurable(script).1[k] == RunMemory(script).1[k])
    {
      ScriptCallRefines(script, k);
      CallsByOutcome(script, k);
    }
  }

  lemma ScriptCallRefines(script: seq<Request>, k: nat)
    requires StaysShort(script) && k < |script|
    requires forall i :: 0 <= i < |script| ==> ExtraArgumentsFit(script[i].op)
    ensures CallRefines(script, k)
  {
    hide Matches, RunMemory, RunDurable, Sequential, Memory.ApplyTo, ExtraArgumentsFit;
    var upTo := script[..k + 1];
    assert upTo[..k] == script[..k];
    PrefixStaysShort(script, k + 1);
    PrefixStaysShort(script, k);
    StoresStayMatched(script[..k]);
    LastCallRefines(upTo);
    assert CallRefines(upTo, k);
  }

  lemma CallsByOutcome(script: seq<Request>, k: nat)
    requires k < |script| && CallRefines(script, k)
    ensures |RunMemory(script).1| == |RunDurable(script).1| == |script|
    ensures RunMemory(script).1[k].Ok? ==> RunDurable(script).1[k] == RunMemory(script).1[k]
  {
    hide RunMemory, RunDurable, Sequential, Memory.ApplyTo;
    OutcomesByCall(script, k);
  }

  lemma EmptyStoresMatch()
    ensures Matches(RunMemory([]).0, RunDurable([]).0)
  {
    assert forall scope :: ScopeMatches(Memory.EMPTY, [], scope);
  }
}
