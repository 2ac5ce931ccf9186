/**
  Calls that come again, and calls that lose a race to their like: both are answered with the state that the
  first of them reached, and append nothing.
 */
module Repeats {
  import opened Prelude
  import opened ExternalActions
  import opened ProvenanceLog
  import opened ActionCalls
  import opened Driving
  import opened Undisturbed

  /** What the second of two equal calls answers: the same, but a reservation that was just allowed is now in
      progress. */
  function Again(answer: Answer): Answer {
    if answer.Reservation? && answer.disposition == InvokeAllowed then answer.(disposition := InProgress) else answer
  }

  /** The state in which an operation leaves an action. */
  lemma WrittenState(identity: Identity, op: Operation, current: Option<Action>, records: seq<Record>, opening: bool)
    requires Decide(op, current, records) == Write(opening)
    requires Extend(identity, current, RecordFor(identity, op, opening)).Ok?
    ensures var record := RecordFor(identity, op, opening);
            var after := Extend(identity, current, record).value;
            && Report(op, Some(after)).Ok?
            && Decide(op, Some(after), records + [record]) == Respond(Ok(Again(Report(op, Some(after)).value)))
  {
    assert (records + [RecordFor(identity, op, opening)])[|records|] == RecordFor(identity, op, opening);
  }

  /** Repeating an undisturbed call that was answered appends nothing and gives the same answer. */
  lemma RepeatsAreAnswered(log: seq<Entry>, identity: Identity, op: Operation)
    requires Sequential(log, identity, op).0.Ok?
    ensures var (outcome, after) := Sequential(log, identity, op);
            Sequential(after, identity, op) == (Ok(Again(outcome.value)), after)
  {
    hide Decide, Report, RecordFor, Extend;
    var records := Stream(log, ScopeOf(identity));
    var current := Load(log, identity).value.current;
    var decision := Decide(op, current, records);
    if decision.Write? {
      var entry := Entry(ScopeOf(identity), RecordFor(identity, op, decision.opening));
      StreamSnoc(log, entry, ScopeOf(identity));
      ReplaySnoc(identity, records, entry.record);
      WrittenState(identity, op, current, records, decision.opening);
    } else {
      ResponsesAreFinal(op, current, records);
    }
  }

  lemma ResponsesAreFinal(op: Operation, current: Option<Action>, records: seq<Record>)
    requires Decide(op, current, records).Respond? && Decide(op, current, records).outcome.Ok?
    ensures Again(Decide(op, current, records).outcome.value) == Decide(op, current, records).outcome.value
  {
  }

  // ---------------------------------------------------------------- lost races

  /** The log as the k-th store access of a call finds it, if the call itself appends nothing before. */
  function SeenAt(log: seq<Entry>, schedule: Schedule, k: nat): seq<Entry>
    decreases k
  {
    if k == 0 then log + Burst(schedule) else SeenAt(log + Burst(schedule), Later(schedule), k - 1)
  }

  /** What is left of the schedule after k accesses. */
  function After(schedule: Schedule, k: nat): Schedule
    decreases k
  {
    if k == 0 then schedule else After(Later(schedule), k - 1)
  }

  /** The action reached what the confirmation was called for. */
  predicate HasEffect(op: Operation, action: Action)
    requires IsConfirmation(op)
  {
    match op
    case ConfirmNoEffect(_) => action.state == ConfirmedNoEffect
    case ConfirmSuccess(_, receipt) => Confirmed(action.state) && action.receipt == Some(receipt)
    case RecoverReceipt(receipt, _) => Confirmed(action.state) && action.receipt == Some(receipt)
  }

  /** A confirmation whose append lost against another writer. It is answered, with the state the stream then
      has, exactly if that state is what it was called for. */
  lemma LostConfirmations(log: seq<Entry>, schedule: Schedule, identity: Identity, op: Operation, winner: Action)
    requires IsConfirmation(op) && Start(identity, op).Goto?
    requires var read := Load(SeenAt(log, schedule, 0), identity);
             read.Ok? && OnConfirmRead(op, read.value).Goto?
    requires var scope := ScopeOf(identity);
             Stream(SeenAt(log, schedule, 1), scope) != Stream(SeenAt(log, schedule, 0), scope)
    requires var read := Load(SeenAt(log, schedule, 2), identity); read.Ok? && read.value.current == Some(winner)
    ensures var (outcome, after, rest) := Drive(CallOf(identity, op), log, schedule);
            && (outcome.Ok? <==> HasEffect(op, winner))
            && (outcome.Ok? ==> outcome.value == Updated(winner))
            && after == SeenAt(log, schedule, 2) && rest == After(schedule, 3)
  {
    hide Drive, Load;
    var call := CallOf(identity, op);
    var first, second, third := SeenAt(log, schedule, 0), SeenAt(log, schedule, 1), SeenAt(log, schedule, 2);
    LaterSeen(log, schedule);
    DriveLoad(call, log, schedule);
    var head := HeadOf(first, ScopeOf(identity));
    HeadMoved(first, Burst(Later(schedule)), ScopeOf(identity));
    assert Load(first, identity).value.head == head by { LoadedHead(first, identity); }
    DriveAppend(call.(pc := ConfirmAppend(head)), first, Later(schedule));
    DriveLoad(call.(pc := ConfirmWinner), second, Later(Later(schedule)));
  }

  lemma LoadedHead(log: seq<Entry>, identity: Identity)
    ensures Load(log, identity).Ok? ==> Load(log, identity).value.head == HeadOf(log, ScopeOf(identity))
  {
  }

  lemma HeadMoved(log: seq<Entry>, more: seq<Entry>, scope: Scope)
    requires Stream(log + more, scope) != Stream(log, scope)
    ensures HeadOf(log + more, scope) != HeadOf(log, scope)
  {
    assert (log + more)[..|log|] == log;
    if HeadOf(log + more, scope) == HeadOf(log, scope) {
      HeadPinsStream(log + more, |log|, scope);
    }
  }

  /** A dispatch whose append lost. It is answered, with the state the stream then has, exactly if the
      winning record is a dispatch with its own reference for the attempt that now owns the action. */
  lemma LostDispatches(log: seq<Entry>, schedule: Schedule, identity: Identity, op: Operation, winner: Option<Action>)
    requires op.BeginDispatch? && Start(identity, op).Goto? && op.startedAt.aware
    requires var read := Load(SeenAt(log, schedule, 0), identity);
             read.Ok? && read.value.current.Some? && read.value.current.value.state == Reserved
    requires |Stream(SeenAt(log, schedule, 1), ScopeOf(identity))| <= MAX_TRANSITIONS
    requires var read := Load(SeenAt(log, schedule, 2), identity);
             read.Ok? && Owned(read.value.current, op.attempt).Ok?
    requires var scope := ScopeOf(identity);
             Stream(SeenAt(log, schedule, 3), scope) != Stream(SeenAt(log, schedule, 0), scope)
    requires var read := Load(SeenAt(log, schedule, 4), identity); read.Ok? && read.value.current == winner
    ensures var (outcome, after, rest) := Drive(CallOf(identity, op), log, schedule);
            var records := Stream(SeenAt(log, schedule, 5), ScopeOf(identity));
            && (outcome.Ok? <==>
                  && 0 < |records| <= MAX_TRANSITIONS && winner.Some? && winner.value.owner == op.attempt
                  && records[|records| - 1].event == DispatchedEvent
                  && records[|records| - 1].payload.dispatchRef == Some(op.dispatchRef))
            && (outcome.Ok? ==> outcome.value == Updated(winner.value))
            && after == SeenAt(log, schedule, 5) && rest == After(schedule, 6)
  {
    hide Drive, Load, SeenAt, After, Burst, Later, Stream, HeadOf, Owned, OnDispatchWinner;
    LaterSeen(log, schedule);
    var l0, l1, l2, l3, l4 := SeenAt(log, schedule, 0), SeenAt(log, schedule, 1), SeenAt(log, schedule, 2),
                              SeenAt(log, schedule, 3), SeenAt(log, schedule, 4);
    LoadedHead(l0, identity);
    var current, head := Load(l0, identity).value.current.value, HeadOf(l0, ScopeOf(identity));
    DispatchIsRead(log, schedule, identity, op, current);
    assert l1 == l0 + Burst(After(schedule, 1)) && l2 == l1 + Burst(After(schedule, 2)) && l3 == l2 + Burst(After(schedule, 3));
    DispatchIsOwned(l0, After(schedule, 1), identity, op, current, head);
    var since := Burst(After(schedule, 1)) + Burst(After(schedule, 2)) + Burst(After(schedule, 3));
    assert l3 == l0 + since;
    HeadMoved(l0, since, ScopeOf(identity));
    assert l4 == l3 + Burst(After(schedule, 4));
    DispatchIsLost(l2, After(schedule, 3), identity, op, head, winner);
    assert SeenAt(log, schedule, 5) == l4 + Burst(After(schedule, 5));
    WinnerMeans(op.attempt, op.dispatchRef, winner, Stream(SeenAt(log, schedule, 5), ScopeOf(identity)));
  }

  lemma WinnerMeans(attempt: string, dispatchRef: string, winner: Option<Action>, records: seq<Record>)
    ensures var outcome := OnDispatchWinner(attempt, dispatchRef, winner, records);
            && (outcome.Ok? <==>
                  && 0 < |records| <= MAX_TRANSITIONS && winner.Some? && winner.value.owner == attempt
                  && records[|records| - 1].event == DispatchedEvent
                  && records[|records| - 1].payload.dispatchRef == Some(dispatchRef))
            && (outcome.Ok? ==> outcome.value == Updated(winner.value))
  {
  }

  /** The call of `begin_dispatch` at one of its places. */
  function At(identity: Identity, op: Operation, pc: Pc): Call {
    DirectCall(identity, op, 0).(pc := pc)
  }

  lemma DispatchIsRead(log: seq<Entry>, schedule: Schedule, identity: Identity, op: Operation, current: Action)
    requires op.BeginDispatch? && Start(identity, op).Goto?
    requires Load(log + Burst(schedule), identity) == Ok(Loaded(Some(current), HeadOf(log + Burst(schedule), ScopeOf(identity))))
    ensures Drive(CallOf(identity, op), log, schedule)
         == Drive(At(identity, op, DispatchRecords(current, HeadOf(log + Burst(schedule), ScopeOf(identity)))),
                  log + Burst(schedule), Later(schedule))
  {
    hide Drive, Load;
    DriveLoad(CallOf(identity, op), log, schedule);
  }

  lemma DispatchIsOwned(log: seq<Entry>, schedule: Schedule, identity: Identity, op: Operation, current: Action, head: Digest)
    requires op.BeginDispatch? && op.startedAt.aware && current.state == Reserved
    requires |Stream(log + Burst(schedule), ScopeOf(identity))| <= MAX_TRANSITIONS
    requires var read := Load(log + Burst(schedule) + Burst(Later(schedule)), identity);
             read.Ok? && Owned(read.value.current, op.attempt).Ok?
    ensures Drive(At(identity, op, DispatchRecords(current, head)), log, schedule)
         == Drive(At(identity, op, DispatchAppend(head)), log + Burst(schedule) + Burst(Later(schedule)), Later(Later(schedule)))
  {
    hide Drive, Load, Owned;
    DriveRecords(At(identity, op, DispatchRecords(current, head)), log, schedule);
    DriveLoad(At(identity, op, DispatchOwned(head)), log + Burst(schedule), Later(schedule));
  }

  lemma DispatchIsLost(log: seq<Entry>, schedule: Schedule, identity: Identity, op: Operation, head: Digest, winner: Option<Action>)
    requires op.BeginDispatch?
    requires HeadOf(log + Burst(schedule), ScopeOf(identity)) != head
    requires var read := Load(log + Burst(schedule) + Burst(Later(schedule)), identity);
             read.Ok? && read.value.current == winner
    ensures var end := log + Burst(schedule) + Burst(Later(schedule)) + Burst(Later(Later(schedule)));
            Drive(At(identity, op, DispatchAppend(head)), log, schedule)
            == (OnDispatchWinner(op.attempt, op.dispatchRef, winner, Stream(end, ScopeOf(identity))), end,
                Later(Later(Later(schedule))))
  {
    hide Drive, Load, OnDispatchWinner;
    var second, third := log + Burst(schedule), log + Burst(schedule) + Burst(Later(schedule));
    DriveAppend(At(identity, op, DispatchAppend(head)), log, schedule);
    DriveLoad(At(identity, op, DispatchWinner), second, Later(schedule));
    DriveRecords(At(identity, op, DispatchWinnerRecords(winner)), third, Later(Later(schedule)));
  }

  /** The log and the schedule, access by access. */
  lemma LaterSeen(log: seq<Entry>, schedule: Schedule)
    ensures forall k: nat :: k < 6 ==> After(schedule, k + 1) == Later(After(schedule, k))
    ensures forall k: nat :: k < 6 ==> SeenAt(log, schedule, k + 1) == SeenAt(log, schedule, k) + Burst(After(schedule, k + 1))
    ensures SeenAt(log, schedule, 0) == log + Burst(schedule) && After(schedule, 0) == schedule
  {
    forall k: nat | k < 6
      ensures After(schedule, k + 1) == Later(After(schedule, k))
      ensures SeenAt(log, schedule, k + 1) == SeenAt(log, schedule, k) + Burst(After(schedule, k + 1))
    {
      NextSeen(log, schedule, k);
      NextAfter(schedule, k);
    }
  }

  lemma {:induction false} NextSeen(log: seq<Entry>, schedule: Schedule, k: nat)
    ensures SeenAt(log, schedule, k + 1) == SeenAt(log, schedule, k) + Burst(After(schedule, k + 1))
    decreases k
  {
    if k > 0 { NextSeen(log + Burst(schedule), Later(schedule), k - 1); }
  }

  lemma {:induction false} NextAfter(schedule: Schedule, k: nat)
    ensures After(schedule, k + 1) == Later(After(schedule, k))
    decreases k
  {
    if k > 0 { NextAfter(Later(schedule), k - 1); }
  }
}
