/**
  The durable coordinator as the program writes it: methods that read and append to the shared
  store, with a retry loop in `reserve` and a replay loop in `Load`.

  Other workers act on the same store by an arbitrary schedule. Every method is proved equal to its
  call of `ActionCalls` driven under the same schedule, for every schedule.
 */
module DurableCoordinator {
  import opened Prelude
  import opened ExternalActions
  import opened ProvenanceLog
  import Calls = ActionCalls
  import opened Driving
  import Executions

  /** The append-only store, and what other workers are about to append to it. */
  class ProvenanceStore {
    var log: seq<Entry>
    var schedule: Schedule

    constructor (schedule: Schedule)
      ensures log == [] && this.schedule == schedule
    {
      log := [];
      this.schedule := schedule;
    }

    /** Other workers run up to this worker's next access. */
    method Interleave()
      modifies this
      ensures log == old(log) + Burst(old(schedule)) && schedule == Later(old(schedule))
    {
      log, schedule := log + Burst(schedule), Later(schedule);
    }

    /** One read of the whole verified log. */
    method Verify() returns (entries: seq<Entry>)
      modifies this
      ensures log == old(log) + Burst(old(schedule)) && schedule == Later(old(schedule))
      ensures entries == log
    {
      Interleave();
      entries := log;
    }

    /** One compare-and-append transaction. */
    method Append(entry: Entry, expected: Digest) returns (landed: bool)
      modifies this
      ensures schedule == Later(old(schedule))
      ensures var appended := CompareAndAppend(old(log) + Burst(old(schedule)), entry, expected);
              landed == appended.Some?
              && log == if landed then appended.value else old(log) + Burst(old(schedule))
    {
      Interleave();
      landed := HeadOf(log, entry.scope) == expected;
      if landed { log := log + [entry]; }
    }
  }

  lemma {:induction false} ReplayErrorPersists(identity: Identity, records: seq<Record>, n: nat)
    requires n <= |records| && Replay(identity, records[..n]).Err?
    ensures Replay(identity, records) == Replay(identity, records[..n])
    decreases |records|
  {
    if n == |records| {
      assert records[..n] == records;
    } else {
      assert records[..|records| - 1][..n] == records[..n];
      ReplayErrorPersists(identity, records[..|records| - 1], n);
    }
  }

  class DurableExternalActionCoordinator {
    const store: ProvenanceStore

    constructor (store: ProvenanceStore)
      ensures this.store == store
    {
      this.store := store;
    }

    /** The records of one stream and the digest of the newest, within the transition limit. */
    method Records(identity: Identity) returns (records: Result<(seq<Record>, Digest), Error>)
      modifies store
      ensures store.log == old(store.log) + Burst(old(store.schedule))
      ensures store.schedule == Later(old(store.schedule))
      ensures var matching := Stream(store.log, ScopeOf(identity));
              records == if |matching| > MAX_TRANSITIONS then Err(TransitionLimitExceeded)
                         else Ok((matching, HeadOf(store.log, ScopeOf(identity))))
    {
      var entries := store.Verify();
      var matching := Stream(entries, ScopeOf(identity));
      if |matching| > MAX_TRANSITIONS {
        return Err(TransitionLimitExceeded);
      }
      return Ok((matching, HeadOf(entries, ScopeOf(identity))));
    }

    /** Replays one stream, updating state, owner, attempt count and receipt record by record. */
    method Load(identity: Identity) returns (loaded: Result<Calls.Loaded, Error>)
      modifies store
      ensures store.log == old(store.log) + Burst(old(store.schedule))
      ensures store.schedule == Later(old(store.schedule))
      ensures loaded == Calls.Load(store.log, identity)
    {
      hide Advance;
      var read := Records(identity);
      if read.Err? {
        return Err(read.error);
      }
      var (records, head) := read.value;
      if records == [] {
        HeadCovers(store.log, ScopeOf(identity));
        return Ok(Calls.Loaded(None, head));
      }
      var first := Begin(identity, records[0]);
      assert records[..1][..0] == [] && records[..1] == [records[0]];
      if first.Err? {
        ReplayErrorPersists(identity, records, 1);
        return Err(first.error);
      }
      var current := first.value;
      var state, owner, attemptCount, receipt := current.state, current.owner, current.attemptCount, current.receipt;
      var index := 1;
      while index < |records|
        modifies {}
        invariant 1 <= index <= |records|
        invariant Replay(identity, records[..index])
               == Ok(Some(Action(current.identity, state, owner, attemptCount, receipt)))
      {
        var record := records[index];
        assert records[..index + 1] == records[..index] + [record];
        ReplaySnoc(identity, records[..index], record);
        var failure;
        failure, state, owner, attemptCount, receipt :=
          ApplyRecord(identity, current.identity, state, owner, attemptCount, receipt, record);
        if failure.Some? {
          ReplayErrorPersists(identity, records, index + 1);
          return Err(failure.value);
        }
        index := index + 1;
      }
      assert records[..index] == records;
      return Ok(Calls.Loaded(Some(Action(current.identity, state, owner, attemptCount, receipt)), head));
    }

    /** The body of the replay loop: one record either fails or updates the four variables. */
    static method ApplyRecord(identity: Identity, stored: Identity, state0: ActionState, owner0: string,
                              attemptCount0: nat, receipt0: Option<Receipt>, record: Record)
      returns (failure: Option<Error>, state: ActionState, owner: string, attemptCount: nat, receipt: Option<Receipt>)
      ensures Advance(identity, Action(stored, state0, owner0, attemptCount0, receipt0), record)
           == if failure.Some? then Err(failure.value) else Ok(Action(stored, state, owner, attemptCount, receipt))
    {
      state, owner, attemptCount, receipt := state0, owner0, attemptCount0, receipt0;
      failure := None;
      var payload := record.payload;
      if payload.schema != SCHEMA {
        failure := Some(UnsupportedSchema);
      } else if payload.identityDigest != DigestOf(identity) {
        failure := Some(TransitionIdentityMismatch);
      } else {
        match record.event {
          case ReservedEvent =>
            if state != PreEffectFailed && state != ConfirmedNoEffect { failure := Some(InvalidTransition(record.event)); }
            else if !HasText(payload.attemptId) { failure := Some(MalformedPayload); }
            else {
              state := Reserved;
              owner := payload.attemptId.value;
              attemptCount := attemptCount + 1;
              receipt := None;
            }
          case DispatchedEvent =>
            if state != Reserved { failure := Some(InvalidTransition(record.event)); }
            else if !HasText(payload.attemptId) { failure := Some(MalformedPayload); }
            else if payload.attemptId.value != owner { failure := Some(AttemptMismatch); }
            else if !HasText(payload.dispatchRef) { failure := Some(MalformedPayload); }
            else if payload.startedAt.None? || !payload.startedAt.value.aware { failure := Some(MalformedPayload); }
            else { state := OutcomeUnknown; }
          case PreEffectFailedEvent =>
            if state != Reserved { failure := Some(InvalidTransition(record.event)); }
            else { state := PreEffectFailed; }
          case OutcomeUnknownEvent =>
            if state != Reserved { failure := Some(InvalidTransition(record.event)); }
            else { state := OutcomeUnknown; }
          case ConfirmedSuccessEvent =>
            if state != OutcomeUnknown { failure := Some(InvalidTransition(record.event)); }
            else {
              var checked := CheckedReceipt(stored, owner, payload);
              if checked.Err? { failure := Some(checked.error); }
              else {
                receipt := Some(checked.value);
                state := ConfirmedExternalSuccess;
              }
            }
          case ConfirmedNoEffectEvent =>
            if state != OutcomeUnknown { failure := Some(InvalidTransition(record.event)); }
            else if !HasText(payload.reconciliationRef) { failure := Some(MalformedPayload); }
            else { state := ConfirmedNoEffect; }
          case ReceiptRecoveredEvent =>
            if state != OutcomeUnknown { failure := Some(InvalidTransition(record.event)); }
            else if !HasText(payload.reconciliationRef) { failure := Some(MalformedPayload); }
            else {
              var checked := CheckedReceipt(stored, owner, payload);
              if checked.Err? { failure := Some(checked.error); }
              else {
                receipt := Some(checked.value);
                state := ReceiptRecovered;
              }
            }
          case UnsupportedEvent(_) => failure := Some(InvalidTransition(record.event));
        }
      }
    }

    /** A receipt record's receipt, checked against the owner and the stored identity. */
    static method CheckedReceipt(identity: Identity, owner: string, payload: Payload)
      returns (receipt: Result<Receipt, Error>)
      ensures var action := Action(identity, OutcomeUnknown, owner, 1, None);
              var confirmed := Confirm(action, payload, ConfirmedExternalSuccess);
              if confirmed.Err? then receipt == Err(confirmed.error)
              else receipt.Ok? && payload.receipt == Some(receipt.value)
    {
      if payload.receipt.None? { return Err(MalformedPayload); }
      if payload.receipt.value.attemptId != owner { return Err(AttemptMismatch); }
      var verified := VerifyReceipt(payload.receipt.value, identity);
      if verified.Err? { return Err(verified.error); }
      return Ok(payload.receipt.value);
    }

    method Reserve(identity: Identity, attempt: string) returns (outcome: Calls.Outcome)
      modifies store
      ensures (outcome, store.log, store.schedule)
           == Drive(CallOf(identity, Calls.Reserve(attempt)), old(store.log), old(store.schedule))
      ensures outcome.Ok? ==> outcome.value.Reservation? && Means(attempt, outcome.value.disposition, outcome.value.action)
    {
      if !Canonical(attempt) {
        return Err(NotCanonical("attempt_id"));
      }
      ghost var start := CallOf(identity, Calls.Reserve(attempt));
      var retry := 0;
      while retry < 4
        modifies store
        invariant retry <= 4
        invariant Drive(start, old(store.log), old(store.schedule))
               == Continue(start, NextTry(retry), store.log, store.schedule)
      {
        var settled := TryReserve(identity, attempt, retry);
        if settled.Some? {
          return settled.value;
        }
        retry := retry + 1;
      }
      return Err(LostRepeatedRaces);
    }

    /** What a disposition tells the attempt that asked: only with INVOKE_ALLOWED is the reservation its own. */
    static predicate Means(attempt: string, disposition: Disposition, action: Action) {
      match disposition
      case InvokeAllowed => action.state == Reserved && action.owner == attempt
      case InProgress => action.state == Reserved
      case ReconcileRequired => action.state == OutcomeUnknown
      case ReplayConfirmed => Confirmed(action.state)
    }

    /** Where `reserve` goes on before its retry of the given number. */
    static function NextTry(retry: nat): Calls.Move {
      if retry < 4 then Calls.Goto(Calls.ReserveRead(retry)) else Calls.Finish(Err(LostRepeatedRaces))
    }

    /** One round of the retry loop: an outcome, or None where the append lost its race. */
    method TryReserve(identity: Identity, attempt: string, retry: nat) returns (settled: Option<Calls.Outcome>)
      requires Canonical(attempt) && retry < 4
      modifies store
      ensures Continue(CallOf(identity, Calls.Reserve(attempt)), NextTry(retry), old(store.log), old(store.schedule))
           == if settled.Some? then (settled.value, store.log, store.schedule)
              else Continue(CallOf(identity, Calls.Reserve(attempt)), NextTry(retry + 1), store.log, store.schedule)
      ensures settled.Some? && settled.value.Ok? ==>
                settled.value.value.Reservation? && Means(attempt, settled.value.value.disposition, settled.value.value.action)
    {
      hide Drive;
      ghost var start := CallOf(identity, Calls.Reserve(attempt));
      DriveLoad(start.(pc := Calls.ReserveRead(retry)), store.log, store.schedule);
      var loaded := Load(identity);
      if loaded.Err? {
        return Some(Err(loaded.error));
      }
      var current, head := loaded.value.current, loaded.value.head;
      if current.Some? {
        if Confirmed(current.value.state) {
          return Some(Ok(Calls.Reservation(ReplayConfirmed, current.value)));
        } else if current.value.state == OutcomeUnknown {
          return Some(Ok(Calls.Reservation(ReconcileRequired, current.value)));
        } else if current.value.state == Reserved {
          return Some(Ok(Calls.Reservation(InProgress, current.value)));
        }
      }
      DriveAppend(start.(pc := Calls.ReserveAppend(retry, head, current.None?)), store.log, store.schedule);
      var landed := store.Append(
        Entry(ScopeOf(identity), Calls.RecordFor(identity, Calls.Reserve(attempt), current.None?)), head);
      if !landed {
        return None;
      }
      DriveLoad(start.(pc := Calls.ReserveReread), store.log, store.schedule);
      var reread := Load(identity);
      if reread.Err? {
        return Some(Err(reread.error));
      }
      var reserved := reread.value.current;
      if reserved.None? || reserved.value.state != Reserved {
        return Some(Err(ReservationVerificationFailed));
      }
      if reserved.value.owner != attempt {
        return Some(Err(ReservationOwnerMismatch));
      }
      return Some(Ok(Calls.Reservation(InvokeAllowed, reserved.value)));
    }

    /** The ownership check, on a read of its own. */
    method Owned(identity: Identity, attempt: string) returns (owned: Result<Action, Error>)
      modifies store
      ensures store.log == old(store.log) + Burst(old(store.schedule))
      ensures store.schedule == Later(old(store.schedule))
      ensures var read := Calls.Load(store.log, identity);
              owned == if read.Err? then Err(read.error) else Calls.Owned(read.value.current, attempt)
    {
      var loaded := Load(identity);
      if loaded.Err? {
        return Err(loaded.error);
      }
      var current := loaded.value.current;
      if current.None? {
        return Err(NoReservation);
      }
      if current.value.state != Reserved {
        return Err(NotInvokable);
      }
      if current.value.owner != attempt {
        return Err(NotOwner);
      }
      return Ok(current.value);
    }

    method BeginDispatch(identity: Identity, attempt: string, dispatchRef: string, startedAt: Moment)
      returns (outcome: Calls.Outcome)
      modifies store
      ensures (outcome, store.log, store.schedule)
           == Drive(CallOf(identity, Calls.BeginDispatch(attempt, dispatchRef, startedAt)), old(store.log), old(store.schedule))
      ensures outcome.Ok? ==> outcome.value.Updated?
    {
      if !Canonical(attempt) {
        return Err(NotCanonical("attempt_id"));
      }
      if !Canonical(dispatchRef) {
        return Err(NotCanonical("dispatch_ref"));
      }
      ghost var start := CallOf(identity, Calls.BeginDispatch(attempt, dispatchRef, startedAt));
      hide Drive;
      DriveLoad(start, store.log, store.schedule);
      var loaded := Load(identity);
      if loaded.Err? {
        return Err(loaded.error);
      }
      if loaded.value.current.None? {
        return Err(NoReservation);
      }
      var current, head := loaded.value.current.value, loaded.value.head;
      DriveRecords(start.(pc := Calls.DispatchRecords(current, head)), store.log, store.schedule);
      var listed := Records(identity);
      if listed.Err? {
        return Err(listed.error);
      }
      var records := listed.value.0;
      if current.state == OutcomeUnknown && records != [] {
        var last := records[|records| - 1];
        if last.event == DispatchedEvent && last.payload.attemptId == Some(attempt)
           && last.payload.dispatchRef == Some(dispatchRef) {
          return Ok(Calls.Updated(current));
        }
        return Err(OutcomeAlreadyUnknown);
      }
      DriveLoad(start.(pc := Calls.DispatchOwned(head)), store.log, store.schedule);
      var owned := Owned(identity, attempt);
      if owned.Err? {
        return Err(owned.error);
      }
      if !startedAt.aware {
        return Err(NaiveTimestamp);
      }
      outcome := AppendDispatch(identity, attempt, dispatchRef, startedAt, head, start);
    }

    /** The append, and the read that confirms it. */
    method AppendDispatch(identity: Identity, attempt: string, dispatchRef: string, startedAt: Moment, head: Digest,
                          ghost start: Calls.Call)
      returns (outcome: Calls.Outcome)
      requires Calls.WellFormed(start) && start.mode.Direct? && start.identity == identity
      requires start.op == Calls.BeginDispatch(attempt, dispatchRef, startedAt)
      modifies store
      ensures (outcome, store.log, store.schedule)
           == Drive(start.(pc := Calls.DispatchAppend(head)), old(store.log), old(store.schedule))
      ensures outcome.Ok? ==> outcome.value.Updated?
    {
      hide Drive;
      DriveAppend(start.(pc := Calls.DispatchAppend(head)), store.log, store.schedule);
      var record := Calls.RecordFor(identity, Calls.BeginDispatch(attempt, dispatchRef, startedAt), false);
      var landed := store.Append(Entry(ScopeOf(identity), record), head);
      if !landed {
        outcome := DispatchWinner(identity, attempt, dispatchRef, start);
        return;
      }
      DriveLoad(start.(pc := Calls.DispatchReread), store.log, store.schedule);
      var reread := Load(identity);
      if reread.Err? {
        return Err(reread.error);
      }
      var dispatched := reread.value.current;
      if dispatched.None? || dispatched.value.state != OutcomeUnknown {
        return Err(DispatchVerificationFailed);
      }
      return Ok(Calls.Updated(dispatched.value));
    }

    /** After a lost dispatch append: the same dispatch may have won, under another worker. */
    method DispatchWinner(identity: Identity, attempt: string, dispatchRef: string, ghost start: Calls.Call)
      returns (outcome: Calls.Outcome)
      requires Calls.WellFormed(start) && start.mode.Direct? && start.identity == identity
      requires start.op.BeginDispatch? && start.op.attempt == attempt && start.op.dispatchRef == dispatchRef
      modifies store
      ensures (outcome, store.log, store.schedule)
           == Drive(start.(pc := Calls.DispatchWinner), old(store.log), old(store.schedule))
      ensures outcome.Ok? ==> outcome.value.Updated?
    {
      hide Drive;
      DriveLoad(start.(pc := Calls.DispatchWinner), store.log, store.schedule);
      var loaded := Load(identity);
      if loaded.Err? {
        return Err(loaded.error);
      }
      var winner := loaded.value.current;
      DriveRecords(start.(pc := Calls.DispatchWinnerRecords(winner)), store.log, store.schedule);
      var listed := Records(identity);
      if listed.Err? {
        return Err(listed.error);
      }
      var records := listed.value.0;
      if winner.None? || records == [] {
        return Err(LostCompareAndAppend);
      }
      var last := records[|records| - 1];
      if last.event == DispatchedEvent && winner.value.owner == attempt
         && last.payload.dispatchRef == Some(dispatchRef) {
        return Ok(Calls.Updated(winner.value));
      }
      return Err(LostCompareAndAppend);
    }

    method MarkPreEffectFailed(identity: Identity, attempt: string) returns (outcome: Calls.Outcome)
      modifies store
      ensures (outcome, store.log, store.schedule)
           == Drive(CallOf(identity, Calls.MarkPreEffectFailed(attempt)), old(store.log), old(store.schedule))
    {
      outcome := Mark(identity, attempt, Calls.MarkPreEffectFailed(attempt), PreEffectFailed);
    }

    method MarkOutcomeUnknown(identity: Identity, attempt: string) returns (outcome: Calls.Outcome)
      modifies store
      ensures (outcome, store.log, store.schedule)
           == Drive(CallOf(identity, Calls.MarkOutcomeUnknown(attempt)), old(store.log), old(store.schedule))
    {
      outcome := Mark(identity, attempt, Calls.MarkOutcomeUnknown(attempt), OutcomeUnknown);
    }

    /** The shared body of the two mark methods. */
    method Mark(identity: Identity, attempt: string, op: Calls.Operation, target: ActionState)
      returns (outcome: Calls.Outcome)
      requires || (op == Calls.MarkPreEffectFailed(attempt) && target == PreEffectFailed)
               || (op == Calls.MarkOutcomeUnknown(attempt) && target == OutcomeUnknown)
      modifies store
      ensures (outcome, store.log, store.schedule) == Drive(CallOf(identity, op), old(store.log), old(store.schedule))
    {
      if !Canonical(attempt) {
        return Err(NotCanonical("attempt_id"));
      }
      ghost var start := CallOf(identity, op);
      hide Drive;
      DriveLoad(start, store.log, store.schedule);
      var loaded := Load(identity);
      if loaded.Err? {
        return Err(loaded.error);
      }
      var current, head := loaded.value.current, loaded.value.head;
      if current.Some? && current.value.state == target && current.value.owner == attempt {
        return Ok(Calls.Updated(current.value));
      }
      DriveLoad(start.(pc := Calls.MarkOwned(head)), store.log, store.schedule);
      var owned := Owned(identity, attempt);
      if owned.Err? {
        return Err(owned.error);
      }
      DriveAppend(start.(pc := Calls.MarkAppend(head)), store.log, store.schedule);
      var landed := store.Append(Entry(ScopeOf(identity), Calls.RecordFor(identity, op, false)), head);
      if !landed {
        return Err(LostCompareAndAppend);
      }
      outcome := Updated(identity, start);
    }

    /** The read that reports the state after a landed append. */
    method Updated(identity: Identity, ghost start: Calls.Call) returns (outcome: Calls.Outcome)
      requires start.mode.Direct? && start.identity == identity && Calls.WellFormed(start.(pc := Calls.Reread))
      modifies store
      ensures (outcome, store.log, store.schedule)
           == Drive(start.(pc := Calls.Reread), old(store.log), old(store.schedule))
      ensures outcome.Ok? ==> outcome.value.Updated?
    {
      hide Drive;
      DriveLoad(start.(pc := Calls.Reread), store.log, store.schedule);
      var loaded := Load(identity);
      if loaded.Err? {
        return Err(loaded.error);
      }
      if loaded.value.current.None? {
        return Err(RecordDisappeared);
      }
      return Ok(Calls.Updated(loaded.value.current.value));
    }

    method ConfirmNoEffect(identity: Identity, reconciliationRef: string) returns (outcome: Calls.Outcome)
      modifies store
      ensures (outcome, store.log, store.schedule)
           == Drive(CallOf(identity, Calls.ConfirmNoEffect(reconciliationRef)), old(store.log), old(store.schedule))
    {
      if !Canonical(reconciliationRef) {
        return Err(NotCanonical("reconciliation_ref"));
      }
      ghost var start := CallOf(identity, Calls.ConfirmNoEffect(reconciliationRef));
      hide Drive;
      DriveLoad(start, store.log, store.schedule);
      var loaded := Load(identity);
      if loaded.Err? {
        return Err(loaded.error);
      }
      if loaded.value.current.None? {
        return Err(NoReservation);
      }
      var current, head := loaded.value.current.value, loaded.value.head;
      if current.state == ConfirmedNoEffect {
        return Ok(Calls.Updated(current));
      }
      if current.state != OutcomeUnknown {
        return Err(RequiresOutcomeUnknown);
      }
      outcome := AppendConfirmation(identity, Calls.ConfirmNoEffect(reconciliationRef), head, start);
    }

    method ConfirmSuccess(identity: Identity, attempt: string, receipt: Receipt) returns (outcome: Calls.Outcome)
      modifies store
      ensures (outcome, store.log, store.schedule)
           == Drive(CallOf(identity, Calls.ConfirmSuccess(attempt, receipt)), old(store.log), old(store.schedule))
      ensures outcome.Ok? ==> outcome.value.Updated?
    {
      var verified := VerifyReceipt(receipt, identity);
      if verified.Err? {
        return Err(verified.error);
      }
      if !Canonical(attempt) {
        return Err(NotCanonical("attempt_id"));
      }
      if receipt.attemptId != attempt {
        return Err(AttemptMismatch);
      }
      ghost var start := CallOf(identity, Calls.ConfirmSuccess(attempt, receipt));
      hide Drive;
      DriveLoad(start, store.log, store.schedule);
      var loaded := Load(identity);
      if loaded.Err? {
        return Err(loaded.error);
      }
      if loaded.value.current.None? {
        return Err(NoReservation);
      }
      var current, head := loaded.value.current.value, loaded.value.head;
      if Confirmed(current.state) {
        if current.receipt == Some(receipt) {
          return Ok(Calls.Updated(current));
        }
        return Err(DifferentReceipt);
      }
      if current.state != OutcomeUnknown {
        return Err(RequiresOutcomeUnknown);
      }
      if current.owner != attempt {
        return Err(NotOwner);
      }
      outcome := AppendConfirmation(identity, Calls.ConfirmSuccess(attempt, receipt), head, start);
    }

    method RecoverReceipt(identity: Identity, receipt: Receipt, reconciliationRef: string)
      returns (outcome: Calls.Outcome)
      modifies store
      ensures (outcome, store.log, store.schedule)
           == Drive(CallOf(identity, Calls.RecoverReceipt(receipt, reconciliationRef)), old(store.log), old(store.schedule))
    {
      var verified := VerifyReceipt(receipt, identity);
      if verified.Err? {
        return Err(verified.error);
      }
      if !Canonical(reconciliationRef) {
        return Err(NotCanonical("reconciliation_ref"));
      }
      ghost var start := CallOf(identity, Calls.RecoverReceipt(receipt, reconciliationRef));
      hide Drive;
      DriveLoad(start, store.log, store.schedule);
      var loaded := Load(identity);
      if loaded.Err? {
        return Err(loaded.error);
      }
      if loaded.value.current.None? {
        return Err(NoReservation);
      }
      var current, head := loaded.value.current.value, loaded.value.head;
      if Confirmed(current.state) {
        if current.receipt == Some(receipt) {
          return Ok(Calls.Updated(current));
        }
        return Err(DifferentReceipt);
      }
      if current.state != OutcomeUnknown {
        return Err(RequiresOutcomeUnknown);
      }
      if receipt.attemptId != current.owner {
        return Err(AttemptMismatch);
      }
      outcome := AppendConfirmation(identity, Calls.RecoverReceipt(receipt, reconciliationRef), head, start);
    }

    /** The append of a confirmation, and what a lost one means. */
    method AppendConfirmation(identity: Identity, op: Calls.Operation, head: Digest, ghost start: Calls.Call)
      returns (outcome: Calls.Outcome)
      requires Calls.IsConfirmation(op) && start.mode.Direct? && start.identity == identity && start.op == op
      requires Calls.WellFormed(start.(pc := Calls.ConfirmAppend(head)))
      modifies store
      ensures (outcome, store.log, store.schedule)
           == Drive(start.(pc := Calls.ConfirmAppend(head)), old(store.log), old(store.schedule))
      ensures outcome.Ok? ==> outcome.value.Updated?
    {
      hide Drive;
      DriveAppend(start.(pc := Calls.ConfirmAppend(head)), store.log, store.schedule);
      var landed := store.Append(Entry(ScopeOf(identity), Calls.RecordFor(identity, op, false)), head);
      if landed {
        outcome := Updated(identity, start);
        return;
      }
      DriveLoad(start.(pc := Calls.ConfirmWinner), store.log, store.schedule);
      var loaded := Load(identity);
      if loaded.Err? {
        return Err(loaded.error);
      }
      var winner := loaded.value.current;
      if winner.Some? {
        if op.ConfirmNoEffect? && winner.value.state == ConfirmedNoEffect {
          return Ok(Calls.Updated(winner.value));
        }
        if !op.ConfirmNoEffect? && Confirmed(winner.value.state) && winner.value.receipt == Some(op.receipt) {
          return Ok(Calls.Updated(winner.value));
        }
      }
      return Err(LostCompareAndAppend);
    }

    /** Reserve, dispatch, invoke the provider, confirm. Whether the provider was invoked is a result of its
        own. */
    method Execute(identity: Identity, attempt: string, dispatchRef: string, now: int, answer: Option<Receipt>)
      returns (outcome: Calls.Outcome, invoked: bool)
      modifies store
      ensures var call := ExecutionOf(identity, Calls.Executing(attempt, dispatchRef, now, answer));
              && (outcome, store.log, store.schedule) == Drive(call, old(store.log), old(store.schedule))
              && invoked == Invokes(call, old(store.log), old(store.schedule))
      ensures Executions.Execution(identity, attempt, dispatchRef, answer, old(store.log), old(store.schedule),
                                   outcome, invoked, store.log).KeepsPromises()
    {
      hide Drive, Invokes;
      ghost var mode := Calls.Executing(attempt, dispatchRef, now, answer);
      Executions.ExecutionsKeepPromises(identity, mode, store.log, store.schedule);
      hide Executions.Execution.KeepsPromises;
      ghost var stage := ExecutionOf(identity, mode);
      DriveStage(stage, store.log, store.schedule);
      var reservation := Reserve(identity, attempt);
      stage := Calls.Conclude(stage, reservation);
      if reservation.Err? {
        DriveDone(stage, store.log, store.schedule);
        return reservation, false;
      }
      var disposition, action := reservation.value.disposition, reservation.value.action;
      if disposition == ReplayConfirmed {
        outcome := if action.receipt.None? then Err(ConfirmedWithoutReceipt) else Ok(Calls.Delivered(action.receipt.value));
        invoked := false;
        DriveDone(stage, store.log, store.schedule);
        return;
      }
      if disposition != InvokeAllowed {
        outcome, invoked := Err(ProviderForbidden(disposition)), false;
        DriveDone(stage, store.log, store.schedule);
        return;
      }
      outcome, invoked := DispatchAndInvoke(identity, attempt, dispatchRef, now, answer, stage);
    }

    /** The rest of `execute` once the reservation allows it: fence, invoke, confirm. */
    method DispatchAndInvoke(identity: Identity, attempt: string, dispatchRef: string, now: int, answer: Option<Receipt>,
                             ghost stage: Calls.Call)
      returns (outcome: Calls.Outcome, invoked: bool)
      requires stage.identity == identity && stage.mode == Calls.Executing(attempt, dispatchRef, now, answer)
      requires stage.(mode := Calls.Direct) == CallOf(identity, Calls.BeginDispatch(attempt, dispatchRef, Moment(now, true)))
      requires Calls.WellFormed(stage)
      modifies store
      ensures (outcome, store.log, store.schedule) == Drive(stage, old(store.log), old(store.schedule))
      ensures invoked == Invokes(stage, old(store.log), old(store.schedule))
    {
      hide Drive, Invokes;
      DriveStage(stage, store.log, store.schedule);
      var dispatched := BeginDispatch(identity, attempt, dispatchRef, Moment(now, true));
      ghost var fenced := Calls.Conclude(stage, dispatched);
      if dispatched.Err? {
        DriveDone(fenced, store.log, store.schedule);
        return dispatched, false;
      }
      DriveInvoke(fenced, store.log, store.schedule);
      invoked := true;
      ghost var answered := Calls.Invoke(fenced);
      if answer.None? {
        outcome := Err(ProviderRaised);
        DriveDone(answered, store.log, store.schedule);
        return;
      }
      outcome := ConfirmAnswer(identity, attempt, answer.value, answered);
    }

    /** The confirmation of the provider's receipt. */
    method ConfirmAnswer(identity: Identity, attempt: string, receipt: Receipt, ghost stage: Calls.Call)
      returns (outcome: Calls.Outcome)
      requires stage.identity == identity && stage.mode.Executing? && Calls.WellFormed(stage)
      requires stage.(mode := Calls.Direct, invoked := false) == CallOf(identity, Calls.ConfirmSuccess(attempt, receipt))
      modifies store
      ensures (outcome, store.log, store.schedule) == Drive(stage, old(store.log), old(store.schedule))
    {
      hide Drive;
      DriveStage(stage, store.log, store.schedule);
      DriveIgnoresHistory(stage.(mode := Calls.Direct), store.log, store.schedule);
      var confirmed := ConfirmSuccess(identity, attempt, receipt);
      ghost var ended := Calls.Conclude(stage, confirmed);
      if confirmed.Err? {
        DriveDone(ended, store.log, store.schedule);
        return confirmed;
      }
      var recorded := confirmed.value.action.receipt;
      outcome := Ok(Calls.Delivered(if recorded.Some? then recorded.value else receipt));
      DriveDone(ended, store.log, store.schedule);
    }
  }
}
