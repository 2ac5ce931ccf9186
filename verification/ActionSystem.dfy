/**
  Any number of concurrent calls on one provenance log.

  A run starts from the empty log. Each move either starts a new call or lets one call take one
  atomic step; a worker that crashes is a call that never steps again. Everything proved here
  holds in every reachable state of every interleaving.
 */
module ActionSystem {
  import opened Prelude
  import opened ExternalActions
  import opened ProvenanceLog
  import opened ActionCalls

  datatype State = State(log: seq<Entry>, calls: seq<Call>)

  predicate Initial(st: State) {
    st == State([], [])
  }

  /** A new call enters, directly or through `execute`. */
  ghost predicate Spawns(st: State, next: State, identity: Identity, mode: Mode, op: Operation) {
    && next.log == st.log
    && var began := |Stream(st.log, ScopeOf(identity))|;
       next.calls == st.calls + [if mode.Executing? then ExecuteCall(identity, mode, began)
                                 else DirectCall(identity, op, began)]
  }

  /** Call `i` takes one atomic step. */
  predicate Moves(st: State, next: State, i: nat) {
    && i < |st.calls| && WellFormed(st.calls[i]) && !st.calls[i].pc.Done?
    && var (call, log) := Step(st.calls[i], st.log);
       next == State(log, st.calls[i := call])
  }

  ghost predicate Next(st: State, next: State) {
    || (exists identity, mode, op :: Spawns(st, next, identity, mode, op))
    || (exists i: nat :: Moves(st, next, i))
  }

  ghost predicate IsRun(run: seq<State>) {
    && |run| > 0
    && Initial(run[0])
    && forall k :: 0 <= k < |run| - 1 ==> Next(run[k], run[k + 1])
  }

  // ---------------------------------------------------------------- the invariant

  function OwnStream(call: Call, log: seq<Entry>): seq<Record> {
    Stream(log, ScopeOf(call.identity))
  }

  /** Every stream is a legal history of its scope and stops at the first record over the limit. */
  ghost predicate LegalLog(log: seq<Entry>) {
    forall scope :: Accepted(scope, Stream(log, scope)) && |Stream(log, scope)| <= MAX_TRANSITIONS + 1
  }

  /** The log as it was when a head was read. */
  function AsOf(log: seq<Entry>, head: Digest): seq<Entry>
    requires Height(head) <= |log|
  {
    log[..Height(head)]
  }

  /** A head that an earlier read returned for the call's own stream. */
  predicate WasHead(call: Call, log: seq<Entry>, head: Digest) {
    Height(head) <= |log| && HeadOf(AsOf(log, head), ScopeOf(call.identity)) == head
  }

  function NextRecord(call: Call): Record {
    RecordFor(call.identity, call.op, call.pc.ReserveAppend? && call.pc.opening)
  }

  /** If the stream has not moved since the head was read, the pending record extends it legally. */
  predicate AppendIsLegal(call: Call, log: seq<Entry>, head: Digest) {
    && WasHead(call, log, head)
    && (OwnStream(call, log) == OwnStream(call, AsOf(log, head)) ==>
          && |OwnStream(call, log)| <= MAX_TRANSITIONS
          && Replay(call.identity, OwnStream(call, log)).Ok?
          && Extend(call.identity, Replay(call.identity, OwnStream(call, log)).value, NextRecord(call)).Ok?)
  }

  /** The state was that of the call's stream at some moment since the call began. */
  ghost predicate Witnessed(call: Call, log: seq<Entry>, action: Action) {
    exists n: nat :: call.began <= n <= |OwnStream(call, log)|
                     && ReplaysTo(call.identity, OwnStream(call, log)[..n], action)
  }

  /** The stream is confirmed with exactly this receipt. */
  predicate SettledWith(identity: Identity, records: seq<Record>, receipt: Receipt) {
    var replayed := Replay(identity, records);
    replayed.Ok? && replayed.value.Some? && Confirmed(replayed.value.value.state)
    && replayed.value.value.receipt == Some(receipt)
  }

  /** A lost race: some earlier moment of the call found the stream open, and it has grown since. */
  ghost predicate LostRace(call: Call, log: seq<Entry>, atLeast: nat) {
    exists n: nat :: atLeast <= n < |OwnStream(call, log)| && Open(call.identity, OwnStream(call, log)[..n])
  }

  predicate DispositionMeans(disposition: Disposition, action: Action) {
    match disposition
    case ReplayConfirmed => Confirmed(action.state)
    case ReconcileRequired => action.state == OutcomeUnknown
    case InProgress => action.state == Reserved
    case InvokeAllowed => action.state == Reserved
  }

  ghost predicate OutcomeInv(call: Call, log: seq<Entry>, outcome: Outcome) {
    match outcome
    case Ok(Updated(action)) => Witnessed(call, log, action)
    case Ok(Reservation(disposition, action)) =>
      Witnessed(call, log, action) && DispositionMeans(disposition, action)
    case Ok(Delivered(receipt)) => SettledWith(call.identity, OwnStream(call, log), receipt)
    case Err(e) =>
      && e != ConfirmedWithoutReceipt
      && e != RecordDisappeared
      && (e == LostRepeatedRaces ==> |OwnStream(call, log)| >= call.began + 7)
  }

  ghost predicate PcInv(call: Call, log: seq<Entry>) {
    match call.pc
    case ReserveRead(retry) => retry <= 3 && (retry > 0 ==> LostRace(call, log, call.began + 2 * (retry - 1)))
    case ReserveAppend(retry, head, _) =>
      && retry <= 3
      && AppendIsLegal(call, log, head)
      && Open(call.identity, OwnStream(call, AsOf(log, head)))
      && |OwnStream(call, AsOf(log, head))| >= call.began + 2 * retry
    case DispatchRecords(current, head) => WasHead(call, log, head) && Witnessed(call, log, current)
    case DispatchOwned(head) => WasHead(call, log, head)
    case DispatchAppend(head) => AppendIsLegal(call, log, head)
    case DispatchWinnerRecords(winner) => winner.Some? ==> Witnessed(call, log, winner.value)
    case MarkOwned(head) => WasHead(call, log, head)
    case MarkAppend(head) => AppendIsLegal(call, log, head)
    case ConfirmAppend(head) => AppendIsLegal(call, log, head)
    case Reread =>
      && OwnStream(call, log) != []
      && (call.op.ConfirmSuccess? ==> SettledWith(call.identity, OwnStream(call, log), call.op.receipt))
    case Done(outcome) => OutcomeInv(call, log, outcome)
    case _ => true
  }

  /** What the arguments of an operation satisfied before its first store access. */
  predicate ArgumentsChecked(call: Call) {
    match call.op
    case Reserve(attempt) => Canonical(attempt)
    case BeginDispatch(attempt, reference, startedAt) =>
      Canonical(attempt) && Canonical(reference) && (call.pc.DispatchAppend? ==> startedAt.aware)
    case MarkPreEffectFailed(attempt) => Canonical(attempt)
    case MarkOutcomeUnknown(attempt) => Canonical(attempt)
    case ConfirmNoEffect(reference) => Canonical(reference)
    case ConfirmSuccess(attempt, receipt) =>
      Canonical(attempt) && receipt.attemptId == attempt && VerifyReceipt(receipt, call.identity).Ok?
    case RecoverReceipt(receipt, reference) =>
      Canonical(reference) && VerifyReceipt(receipt, call.identity).Ok?
  }

  ghost predicate CallInv(call: Call, log: seq<Entry>) {
    && WellFormed(call)
    && call.began <= |OwnStream(call, log)|
    && (!call.pc.Done? ==> ArgumentsChecked(call))
    && PcInv(call, log)
  }

  ghost predicate Inv(st: State) {
    && LegalLog(st.log)
    && forall i :: 0 <= i < |st.calls| ==> CallInv(st.calls[i], st.log)
  }

  // ---------------------------------------------------------------- other calls' appends

  lemma WitnessSurvives(call: Call, log: seq<Entry>, entry: Entry, action: Action)
    requires Witnessed(call, log, action)
    ensures Witnessed(call, log + [entry], action)
  {
    StreamSnoc(log, entry, ScopeOf(call.identity));
    var n: nat :| call.began <= n <= |OwnStream(call, log)| && ReplaysTo(call.identity, OwnStream(call, log)[..n], action);
    assert OwnStream(call, log + [entry])[..n] == OwnStream(call, log)[..n];
  }

  lemma LostRaceSurvives(call: Call, log: seq<Entry>, entry: Entry, atLeast: nat)
    requires LostRace(call, log, atLeast)
    ensures LostRace(call, log + [entry], atLeast)
  {
    StreamSnoc(log, entry, ScopeOf(call.identity));
    var n: nat :| atLeast <= n < |OwnStream(call, log)| && Open(call.identity, OwnStream(call, log)[..n]);
    assert OwnStream(call, log + [entry])[..n] == OwnStream(call, log)[..n];
  }

  lemma HeadSurvives(call: Call, log: seq<Entry>, entry: Entry, head: Digest)
    requires WasHead(call, log, head)
    ensures WasHead(call, log + [entry], head) && AsOf(log + [entry], head) == AsOf(log, head)
    ensures AppendIsLegal(call, log, head) ==> AppendIsLegal(call, log + [entry], head)
  {
    var scope := ScopeOf(call.identity);
    assert (log + [entry])[..Height(head)] == log[..Height(head)];
    StreamSnoc(log, entry, scope);
    StreamPrefix(log, Height(head), scope);
    if OwnStream(call, log + [entry]) == OwnStream(call, AsOf(log, head)) {
      assert OwnStream(call, log + [entry]) == OwnStream(call, log);
    }
  }

  lemma SettledSurvives(identity: Identity, log: seq<Entry>, entry: Entry, receipt: Receipt)
    requires SettledWith(identity, Stream(log, ScopeOf(identity)), receipt)
    requires Accepted(ScopeOf(identity), Stream(log + [entry], ScopeOf(identity)))
    ensures SettledWith(identity, Stream(log + [entry], ScopeOf(identity)), receipt)
  {
    var scope := ScopeOf(identity);
    StreamSnoc(log, entry, scope);
    ReplayFixesIdentity(identity, Stream(log, scope));
    assert Stream(log + [entry], scope)[0] == Stream(log, scope)[0];
    ConfirmedAbsorbs(identity, Stream(log, scope), Stream(log + [entry], scope));
  }

  lemma OutcomeSurvives(call: Call, log: seq<Entry>, entry: Entry, outcome: Outcome)
    requires OutcomeInv(call, log, outcome)
    requires Accepted(ScopeOf(call.identity), OwnStream(call, log + [entry]))
    ensures OutcomeInv(call, log + [entry], outcome)
  {
    StreamSnoc(log, entry, ScopeOf(call.identity));
    match outcome
    case Ok(Updated(action)) => WitnessSurvives(call, log, entry, action);
    case Ok(Reservation(_, action)) => WitnessSurvives(call, log, entry, action);
    case Ok(Delivered(receipt)) => SettledSurvives(call.identity, log, entry, receipt);
    case Err(_) =>
  }

  /** A call's invariant survives every legal append by somebody else. */
  lemma OthersAppend(call: Call, log: seq<Entry>, entry: Entry)
    requires CallInv(call, log) && LegalLog(log + [entry])
    ensures CallInv(call, log + [entry])
  {
    var after := log + [entry];
    StreamSnoc(log, entry, ScopeOf(call.identity));
    assert Accepted(ScopeOf(call.identity), Stream(after, ScopeOf(call.identity)));
    match call.pc
    case ReserveRead(retry) => if retry > 0 { LostRaceSurvives(call, log, entry, call.began + 2 * (retry - 1)); }
    case ReserveAppend(_, head, _) => HeadSurvives(call, log, entry, head);
    case DispatchRecords(current, head) =>
      HeadSurvives(call, log, entry, head);
      WitnessSurvives(call, log, entry, current);
    case DispatchOwned(head) => HeadSurvives(call, log, entry, head);
    case DispatchAppend(head) => HeadSurvives(call, log, entry, head);
    case DispatchWinnerRecords(winner) => if winner.Some? { WitnessSurvives(call, log, entry, winner.value); }
    case MarkOwned(head) => HeadSurvives(call, log, entry, head);
    case MarkAppend(head) => HeadSurvives(call, log, entry, head);
    case ConfirmAppend(head) => HeadSurvives(call, log, entry, head);
    case Reread => if call.op.ConfirmSuccess? { SettledSurvives(call.identity, log, entry, call.op.receipt); }
    case Done(outcome) => OutcomeSurvives(call, log, entry, outcome);
    case _ =>
  }

  // ---------------------------------------------------------------- a call's own reads

  /** What one successful read tells a call about its stream now, and at the head it returned. */
  ghost predicate Told(call: Call, log: seq<Entry>, loaded: Loaded) {
    && WasHead(call, log, loaded.head)
    && OwnStream(call, AsOf(log, loaded.head)) == OwnStream(call, log)
    && |OwnStream(call, log)| <= MAX_TRANSITIONS
    && Replay(call.identity, OwnStream(call, log)) == Ok(loaded.current)
    && (loaded.current.Some? ==> Witnessed(call, log, loaded.current.value))
    && (loaded.current.None? <==> OwnStream(call, log) == [])
  }

  lemma ReadFacts(call: Call, log: seq<Entry>)
    requires call.began <= |OwnStream(call, log)|
    ensures var read := Load(log, call.identity);
            if read.Ok? then Told(call, log, read.value) else IsLoadError(read.error)
  {
    var records := OwnStream(call, log);
    ReplayRaisesLoadErrors(call.identity, records);
    if Load(log, call.identity).Ok? {
      HeadCovers(log, ScopeOf(call.identity));
      assert records[..|records|] == records;
      if records != [] { ReplayNonempty(call.identity, records); }
    }
  }

  /** An append that lands extends its stream legally, although head and ownership may have come
      from two different reads. */
  lemma LandedAppend(call: Call, log: seq<Entry>)
    requires LegalLog(log) && IsAppend(call.pc) && AppendIsLegal(call, log, call.pc.head)
    requires HeadOf(log, ScopeOf(call.identity)) == call.pc.head
    ensures var after := log + [Entry(ScopeOf(call.identity), NextRecord(call))];
            && LegalLog(after)
            && OwnStream(call, after) == OwnStream(call, log) + [NextRecord(call)]
            && OwnStream(call, log) == OwnStream(call, AsOf(log, call.pc.head))
            && |OwnStream(call, log)| <= MAX_TRANSITIONS
            && Replay(call.identity, OwnStream(call, log)).Ok?
            && var extended := Extend(call.identity, Replay(call.identity, OwnStream(call, log)).value, NextRecord(call));
               extended.Ok? && ReplaysTo(call.identity, OwnStream(call, after), extended.value)
  {
    var scope := ScopeOf(call.identity);
    var entry := Entry(scope, NextRecord(call));
    var after := log + [entry];
    HeadPinsStream(log, Height(call.pc.head), scope);
    StreamSnoc(log, entry, scope);
    ReplaySnoc(call.identity, OwnStream(call, log), NextRecord(call));
    ReplayFixesIdentity(call.identity, OwnStream(call, after));
    forall s ensures Accepted(s, Stream(after, s)) && |Stream(after, s)| <= MAX_TRANSITIONS + 1 {
      assert Accepted(s, Stream(log, s)) && |Stream(log, s)| <= MAX_TRANSITIONS + 1;
      if s != scope { AppendIsolation(log, entry, s); }
    }
  }

  /** A lost compare-and-append shows that the stream has grown since its head was read. */
  lemma LostAppendMeansGrowth(call: Call, log: seq<Entry>, head: Digest)
    requires WasHead(call, log, head) && HeadOf(log, ScopeOf(call.identity)) != head
    ensures |OwnStream(call, AsOf(log, head))| < |OwnStream(call, log)|
    ensures OwnStream(call, log)[..|OwnStream(call, AsOf(log, head))|] == OwnStream(call, AsOf(log, head))
  {
    StreamPrefix(log, Height(head), ScopeOf(call.identity));
    if OwnStream(call, log) == OwnStream(call, AsOf(log, head)) {
      StreamPinsHead(log, Height(head), ScopeOf(call.identity));
    }
  }

  // ---------------------------------------------------------------- a call's own steps

  /** Entering a stage of a call whose stream is no shorter than when the call began. */
  lemma EnterKeepsInv(call: Call, op: Operation, log: seq<Entry>)
    requires WellFormed(Enter(call, op)) && call.began <= |OwnStream(call, log)|
    ensures CallInv(Enter(call, op), log)
  {
    StartIsWellPlaced(call.identity, op);
  }

  /** A confirmed state seen at any moment of a call is still the stream's state: it absorbs. */
  lemma DeliveredFromSnapshot(call: Call, log: seq<Entry>, action: Action)
    requires LegalLog(log) && Witnessed(call, log, action)
    requires Confirmed(action.state) || action.receipt.Some?
    ensures action.receipt.Some? && SettledWith(call.identity, OwnStream(call, log), action.receipt.value)
  {
    var records := OwnStream(call, log);
    var n: nat :| call.began <= n <= |records| && ReplaysTo(call.identity, records[..n], action);
    ReceiptExactlyWhenConfirmed(call.identity, records[..n], action);
    ReplayFixesIdentity(call.identity, records[..n]);
    assert records[0] == records[..n][0];
    assert Accepted(ScopeOf(call.identity), records);
    ConfirmedAbsorbs(call.identity, records[..n], records);
  }

  /** Whatever an operation answers, concluding with it keeps the invariant. */
  lemma ConcludeKeepsInv(call: Call, outcome: Outcome, log: seq<Entry>)
    requires WellFormed(call) && call.began <= |OwnStream(call, log)|
    requires OutcomeInv(call, log, outcome) && LegalLog(log)
    requires ArgumentsChecked(call)
    requires call.op.ConfirmSuccess? && outcome.Ok? ==>
               outcome.value.Updated? && outcome.value.action.receipt == Some(call.op.receipt)
    ensures CallInv(Conclude(call, outcome), log)
  {
    ConcludeKeepsForm(call, outcome);
    if call.mode.Executing? && outcome.Ok? {
      match outcome.value
      case Reservation(ReplayConfirmed, action) => DeliveredFromSnapshot(call, log, action);
      case Reservation(InvokeAllowed, _) =>
        EnterKeepsInv(call, BeginDispatch(call.mode.attempt, call.mode.dispatchRef, Moment(call.mode.now, true)), log);
      case Updated(action) => if call.op.ConfirmSuccess? { DeliveredFromSnapshot(call, log, action); }
      case _ =>
    }
  }

  /** An answer given after a read is true of the stream that was read. */
  ghost predicate Truthful(call: Call, log: seq<Entry>, outcome: Outcome) {
    && OutcomeInv(call, log, outcome)
    && (call.op.ConfirmSuccess? && outcome.Ok? ==>
          outcome.value.Updated? && outcome.value.action.receipt == Some(call.op.receipt))
  }

  /** A place that the call reaches without touching the log is justified by the log. */
  ghost predicate Justified(call: Call, log: seq<Entry>, move: Move) {
    match move
    case Goto(pc) => WellPlaced(call.op, pc) && !pc.InvokeProvider? ==> CallInv(call.(pc := pc), log)
    case Finish(outcome) => Truthful(call, log, outcome)
  }

  lemma ReserveReadJustified(call: Call, log: seq<Entry>, loaded: Loaded)
    requires CallInv(call, log) && Told(call, log, loaded) && call.pc.ReserveRead?
    ensures Justified(call, log, OnReserveRead(call.pc.retry, loaded))
  {
    var records := OwnStream(call, log);
    if call.pc.retry > 0 && Open(call.identity, records) {
      var n: nat :| call.began + 2 * (call.pc.retry - 1) <= n < |records| && Open(call.identity, records[..n]);
      OpenWindowsAreTwoApart(call.identity, records, n);
    }
  }

  lemma DispatchLoadJustified(call: Call, log: seq<Entry>, loaded: Loaded)
    requires CallInv(call, log) && Told(call, log, loaded) && Loads(call.pc) && call.op.BeginDispatch?
    ensures Justified(call, log, AfterLoad(call.op, call.pc, loaded))
  {
  }

  lemma MarkLoadJustified(call: Call, log: seq<Entry>, loaded: Loaded)
    requires CallInv(call, log) && Told(call, log, loaded) && (call.pc.MarkRead? || call.pc.MarkOwned?)
    ensures Justified(call, log, AfterLoad(call.op, call.pc, loaded))
  {
  }

  /** From an unknown outcome, the record of a checked confirmation is a legal transition. */
  lemma ConfirmationExtends(call: Call, action: Action)
    requires ArgumentsChecked(call) && call.pc.ConfirmRead? && IsConfirmation(call.op)
    requires action.identity == call.identity && action.state == OutcomeUnknown
    requires call.op.ConfirmSuccess? ==> call.op.attempt == action.owner
    requires call.op.RecoverReceipt? ==> call.op.receipt.attemptId == action.owner
    ensures Advance(call.identity, action, RecordFor(call.identity, call.op, false)).Ok?
  {
  }

  lemma ConfirmReadJustified(call: Call, log: seq<Entry>, loaded: Loaded)
    requires CallInv(call, log) && Told(call, log, loaded) && call.pc.ConfirmRead?
    ensures Justified(call, log, OnConfirmRead(call.op, loaded))
  {
    hide LegalLog, LostRace;
    var move := OnConfirmRead(call.op, loaded);
    if move.Goto? {
      ReplayFixesIdentity(call.identity, OwnStream(call, log));
      ConfirmationExtends(call, loaded.current.value);
      var next := call.(pc := move.pc);
      assert NextRecord(next) == RecordFor(call.identity, call.op, false);
      assert OwnStream(next, log) == OwnStream(call, log);
    }
  }

  lemma FinalReadTruthful(call: Call, log: seq<Entry>, loaded: Loaded)
    requires CallInv(call, log) && Told(call, log, loaded)
    requires call.pc.ConfirmWinner? || call.pc.Reread? || call.pc.ReserveReread?
    ensures Truthful(call, log, AfterLoad(call.op, call.pc, loaded).outcome)
  {
    if loaded.current.Some? && call.pc.ReserveReread? {
      assert Witnessed(call, log, loaded.current.value);
    }
  }

  /** Reads: the call's next place is justified by what the read returned. */
  lemma LoadStepKeepsInv(call: Call, log: seq<Entry>)
    requires LegalLog(log) && CallInv(call, log) && Loads(call.pc)
    ensures CallInv(Step(call, log).0, log)
  {
    ReadFacts(call, log);
    var read := Load(log, call.identity);
    if read.Err? {
      ConcludeKeepsInv(call, Err(read.error), log);
    } else {
      var move := AfterLoad(call.op, call.pc, read.value);
      AccessStaysInOperation(call.identity, call.op, call.pc, log);
      if call.pc.ReserveRead? { ReserveReadJustified(call, log, read.value); }
      else if call.op.BeginDispatch? { DispatchLoadJustified(call, log, read.value); }
      else if call.pc.MarkRead? || call.pc.MarkOwned? { MarkLoadJustified(call, log, read.value); }
      else if call.pc.ConfirmRead? { ConfirmReadJustified(call, log, read.value); }
      else { FinalReadTruthful(call, log, read.value); }
      if move.Finish? { ConcludeKeepsInv(call, move.outcome, log); }
    }
  }

  lemma RecordsStepJustified(call: Call, log: seq<Entry>)
    requires CallInv(call, log) && (call.pc.DispatchRecords? || call.pc.DispatchWinnerRecords?)
    ensures Justified(call, log, Access(call.identity, call.op, call.pc, log).0)
  {
    if call.pc.DispatchRecords? {
      var move := OnDispatchRecords(call.op.attempt, call.op.dispatchRef, call.pc.current, call.pc.head, OwnStream(call, log));
      assert move.Goto? ==> PcInv(call.(pc := move.pc), log);
    } else {
      var outcome := OnDispatchWinner(call.op.attempt, call.op.dispatchRef, call.pc.winner, OwnStream(call, log));
      assert OutcomeInv(call, log, outcome);
    }
  }

  lemma RecordsStepKeepsInv(call: Call, log: seq<Entry>)
    requires LegalLog(log) && CallInv(call, log) && (call.pc.DispatchRecords? || call.pc.DispatchWinnerRecords?)
    ensures CallInv(Step(call, log).0, log)
  {
    RecordsStepJustified(call, log);
    AccessStaysInOperation(call.identity, call.op, call.pc, log);
    var move := Access(call.identity, call.op, call.pc, log).0;
    if move.Finish? { ConcludeKeepsInv(call, move.outcome, log); }
  }

  /** A legal confirmation record settles its stream with the receipt it carries. */
  lemma SuccessSettles(call: Call, prior: Option<Action>)
    requires call.pc.ConfirmAppend? && call.op.ConfirmSuccess?
    requires Extend(call.identity, prior, NextRecord(call)).Ok?
    ensures var extended := Extend(call.identity, prior, NextRecord(call)).value;
            Confirmed(extended.state) && extended.receipt == Some(call.op.receipt)
  {
  }

  /** Where a call stands after its append landed. */
  lemma LandedPlaceKeepsInv(call: Call, after: seq<Entry>)
    requires WellFormed(call) && IsAppend(call.pc) && ArgumentsChecked(call)
    requires OwnStream(call, after) != [] && call.began <= |OwnStream(call, after)|
    requires call.op.ConfirmSuccess? ==> SettledWith(call.identity, OwnStream(call, after), call.op.receipt)
    ensures CallInv(call.(pc := AfterAppend(call.pc, true).pc), after)
  {
    assert OwnStream(call.(pc := AfterAppend(call.pc, true).pc), after) == OwnStream(call, after);
  }

  lemma LandedStep(call: Call, log: seq<Entry>)
    requires WellFormed(call) && IsAppend(call.pc) && HeadOf(log, ScopeOf(call.identity)) == call.pc.head
    ensures Step(call, log)
         == (call.(pc := AfterAppend(call.pc, true).pc), log + [Entry(ScopeOf(call.identity), NextRecord(call))])
  {
  }

  /** A landed append: the stream grew by the call's own record, legally. */
  lemma LandedStepKeepsInv(call: Call, log: seq<Entry>)
    requires LegalLog(log) && CallInv(call, log) && IsAppend(call.pc)
    requires HeadOf(log, ScopeOf(call.identity)) == call.pc.head
    ensures var (next, after) := Step(call, log);
            LegalLog(after) && CallInv(next, after)
  {
    LandedAppend(call, log);
    LandedStep(call, log);
    var after := log + [Entry(ScopeOf(call.identity), NextRecord(call))];
    hide Step, Replay, LegalLog, Stream;
    if call.op.ConfirmSuccess? {
      SuccessSettles(call, Replay(call.identity, OwnStream(call, log)).value);
    }
    LandedPlaceKeepsInv(call, after);
  }

  /** A lost append: nothing changed, except that the call now knows that its stream has grown. */
  lemma LostStepKeepsInv(call: Call, log: seq<Entry>)
    requires LegalLog(log) && CallInv(call, log) && IsAppend(call.pc)
    requires HeadOf(log, ScopeOf(call.identity)) != call.pc.head
    ensures Step(call, log).1 == log && CallInv(Step(call, log).0, log)
  {
    hide Replay, RecordFor, Load, LegalLog;
    var head := call.pc.head;
    LostAppendMeansGrowth(call, log, head);
    var move := AfterAppend(call.pc, false);
    if move.Finish? {
      ConcludeKeepsInv(call, move.outcome, log);
    } else if call.pc.ReserveAppend? {
      var n := |OwnStream(call, AsOf(log, head))|;
      var next := call.(pc := move.pc);
      assert OwnStream(next, log)[..n] == OwnStream(call, AsOf(log, head));
      assert LostRace(next, log, call.began + 2 * call.pc.retry);
    }
  }

  /** Every step of a call, whatever the others did before it, keeps the log legal and the call's
      own invariant. */
  lemma StepKeepsInv(call: Call, log: seq<Entry>)
    requires LegalLog(log) && CallInv(call, log) && !call.pc.Done?
    ensures var (next, after) := Step(call, log);
            LegalLog(after) && CallInv(next, after)
  {
    if call.pc.InvokeProvider? {
      StepKeepsForm(call, log);
      if call.mode.answer.Some? {
        EnterKeepsInv(call.(invoked := true), ConfirmSuccess(call.mode.attempt, call.mode.answer.value), log);
      }
    } else if IsAppend(call.pc) {
      if HeadOf(log, ScopeOf(call.identity)) == call.pc.head { LandedStepKeepsInv(call, log); } else { LostStepKeepsInv(call, log); }
    } else if Loads(call.pc) {
      LoadStepKeepsInv(call, log);
    } else {
      RecordsStepKeepsInv(call, log);
    }
  }

  // ---------------------------------------------------------------- runs

  lemma SpawnKeepsInv(st: State, next: State, identity: Identity, mode: Mode, op: Operation)
    requires Inv(st) && Spawns(st, next, identity, mode, op)
    ensures Inv(next)
  {
    hide Replay, LegalLog, Open, AppendIsLegal;
    StartIsWellPlaced(identity, op);
    if mode.Executing? { StartIsWellPlaced(identity, Reserve(mode.attempt)); }
    assert CallInv(next.calls[|st.calls|], next.log);
    forall i | 0 <= i < |next.calls| ensures CallInv(next.calls[i], next.log) {
      if i < |st.calls| { assert next.calls[i] == st.calls[i]; }
    }
  }

  lemma MoveKeepsInv(st: State, next: State, i: nat)
    requires Inv(st) && Moves(st, next, i)
    ensures Inv(next)
  {
    StepKeepsInv(st.calls[i], st.log);
    StepAppends(st.calls[i], st.log);
    forall j | 0 <= j < |next.calls| ensures CallInv(next.calls[j], next.log) {
      if j != i {
        assert next.calls[j] == st.calls[j];
        if next.log != st.log { OthersAppend(st.calls[j], st.log, next.log[|st.log|]); }
      }
    }
  }

  lemma NextKeepsInv(st: State, next: State)
    requires Inv(st) && Next(st, next)
    ensures Inv(next)
  {
    if identity, mode, op :| Spawns(st, next, identity, mode, op) {
      SpawnKeepsInv(st, next, identity, mode, op);
    } else {
      var i: nat :| Moves(st, next, i);
      MoveKeepsInv(st, next, i);
    }
  }

  lemma {:induction false} RunKeepsInv(run: seq<State>, k: nat)
    requires IsRun(run) && k < |run|
    ensures Inv(run[k])
  {
    if k > 0 {
      RunKeepsInv(run, k - 1);
      assert Next(run[k - 1], run[k - 1 + 1]);
      NextKeepsInv(run[k - 1], run[k]);
    } else {
      forall scope ensures Accepted(scope, Stream(run[0].log, scope)) && |Stream(run[0].log, scope)| <= MAX_TRANSITIONS + 1 {
      }
    }
  }
}
