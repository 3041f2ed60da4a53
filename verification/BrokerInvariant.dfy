/** What every reachable slice satisfies, whatever results arrive and however often workers,
    operators and the relay act on it. */
module BrokerInvariant {
  import opened Contracts
  import opened StateMachine
  import opened Broker

  // ---------- The history ----------

  /** Completed and compensated steps as the transition log tells them. */
  function Replay(log: seq<Entry>): (seq<SagaStep>, seq<SagaStep>) {
    if log == [] then ([], [])
    else
      var (completed, compensated) := Replay(log[..|log| - 1]);
      var last := log[|log| - 1];
      match last.event
      case StepSucceeded => (completed + [last.step], compensated)
      case CompensationSucceeded => (completed, compensated + [last.step])
      case _ => (completed, compensated)
  }

  predicate IsDispatch(e: EventKind) { e in {CommandDispatched, CompensationDispatched} }

  function Dispatches(log: seq<Entry>): nat {
    if log == [] then 0
    else Dispatches(log[..|log| - 1]) + if IsDispatch(log[|log| - 1].event) then 1 else 0
  }

  /** Manual resumes: commands dispatched right after an intervention was recorded. */
  function Resumes(log: seq<Entry>): nat {
    if |log| < 2 then 0
    else
      Resumes(log[..|log| - 1])
      + if IsDispatch(log[|log| - 1].event) && log[|log| - 2].event == ManualInterventionRequired then 1 else 0
  }

  predicate Chained(log: seq<Entry>) {
    && |log| > 0
    && log[0].from == None
    && (forall i :: 0 <= i < |log| ==> log[i].sequence == i + 1)
    && (forall i :: 0 < i < |log| ==> log[i].from == Some(log[i - 1].to))
  }

  predicate FaithfulLog(d: Slice) {
    && Chained(d.log)
    && |d.log| == d.row.version
    && d.log[|d.log| - 1].to == d.row.progress.status
    && Replay(d.log) == (d.row.progress.completed, d.row.progress.compensated)
    && Dispatches(d.log) == d.row.attempts
  }

  // ---------- Progress, commands, budget, lease ----------

  predicate Flagged(d: Slice) { d.row.reason.Some? }

  function CommandFor(row: Row, op: Operation): Command {
    BuildCommand(op, row.orderId, row.id, row.payload)
  }

  predicate ProgressOk(d: Slice) {
    var p := d.row.progress;
    && Coherent(p)
    && (p.status == Compensating ==> |p.compensated| < |p.completed|)
    && (p.status == PendingPayment ==> d.row.payload.paymentMethod == BankTransfer)
  }

  /** The pending message is a command for exactly the next operation; a running saga without
      one is flagged; a saga that is not running has neither. */
  predicate PendingOk(d: Slice) {
    var row := d.row;
    && (row.pending.Some? ==>
         && row.pending.value in d.outbox
         && NextOperation(row.progress).Next?
         && d.outbox[row.pending.value].body == CommandBody(CommandFor(row, NextOperation(row.progress).operation)))
    && (Active(row.progress.status) && row.pending.None? ==> Flagged(d))
    && (!Active(row.progress.status) ==> row.pending.None? && !Flagged(d) && row.lease.None? && row.brokerAttempts == 0)
    && (Flagged(d) <==> d.log != [] && d.log[|d.log| - 1].event == ManualInterventionRequired)
    && (Flagged(d) ==>
        row.brokerAttempts == 3 && row.lease.None?
        && row.reason.value in {CommandRetriesExhausted, RecoveryRetriesExhausted})
  }

  /** The operations whose commands may exist, given how far the saga has come. */
  predicate MayExist(p: Progress, op: Operation)
    requires IsForward(p.operation)
  {
    match op
    case ChargePayment | ReserveInventory | CreateShipment | FinalizeInventory =>
      p.status != PendingPayment && ForwardIndex(op) <= ForwardIndex(p.operation)
    case ReleaseInventory =>
      p.status in {Compensating, FailedOrder} && InventoryStep in p.completed
    case RefundPayment =>
      && p.status in {Compensating, FailedOrder} && PaymentStep in p.completed
      && |p.compensated| + 1 >= |p.completed|
    case CancelShipment => false
  }

  predicate CommandsOk(d: Slice) {
    && IsForward(d.row.progress.operation)
    && (forall m | m in d.outbox && d.outbox[m].body.CommandBody? ::
          && MayExist(d.row.progress, d.outbox[m].body.command.operation)
          && d.outbox[m].body.command == CommandFor(d.row, d.outbox[m].body.command.operation))
  }

  /** Only the pending command may not have reached the broker yet. */
  predicate RelayOk(d: Slice) {
    && (forall m | m in d.outbox && d.outbox[m].body.CommandBody? && !d.outbox[m].handed ::
          d.row.pending == Some(m) && !Flagged(d))
    && (forall m | m in d.outbox && d.outbox[m].publishedAt.Some? :: d.outbox[m].handed)
  }

  function CommandIds(d: Slice): set<Uuid> {
    set m | m in d.outbox && d.outbox[m].body.CommandBody?
  }

  function Resolved(p: Progress): nat {
    |p.completed| + |p.compensated|
    + (if p.status in {Compensating, FailedOrder} then 1 else 0)
    + (if p.finalized then 1 else 0)
  }

  predicate BudgetOk(d: Slice) {
    var row := d.row;
    && row.brokerAttempts <= 3
    && (row.pending.Some? ==> row.recoveryAttempts < row.brokerAttempts)
    && row.recoveryAttempts <= row.brokerAttempts
    && row.attempts <= 3 * Resolved(row.progress) + row.brokerAttempts + 3 * Resumes(d.log)
    && |CommandIds(d)| == row.attempts
  }

  predicate Ok(d: Slice) {
    FaithfulLog(d) && ProgressOk(d) && PendingOk(d) && CommandsOk(d) && RelayOk(d) && BudgetOk(d)
  }

  // ---------- Saving ----------

  lemma LogGrows(log: seq<Entry>, e: Entry)
    ensures Replay(log + [e]) ==
      var (completed, compensated) := Replay(log);
      if e.event == StepSucceeded then (completed + [e.step], compensated)
      else if e.event == CompensationSucceeded then (completed, compensated + [e.step])
      else (completed, compensated)
    ensures Dispatches(log + [e]) == Dispatches(log) + if IsDispatch(e.event) then 1 else 0
    ensures Resumes(log + [e]) ==
      Resumes(log) + if log != [] && IsDispatch(e.event) && log[|log| - 1].event == ManualInterventionRequired then 1
        else 0
  {
    assert (log + [e])[..|log|] == log;
  }

  /** Saving keeps the log faithful when the entry says what changed. */
  lemma SaveKeepsLog(d: Slice, saga: Row, row: Row, event: EventKind, result: Option<Result>,
                     direction: Direction, step: SagaStep)
    requires FaithfulLog(d)
    requires saga.version == d.row.version && saga.progress == d.row.progress
    requires row.attempts == d.row.attempts + if IsDispatch(event) then 1 else 0
    requires row.progress.completed == d.row.progress.completed + if event == StepSucceeded then [step] else []
    requires row.progress.compensated == d.row.progress.compensated + if event == CompensationSucceeded then [step]
      else []
    ensures FaithfulLog(Save(d, saga, row, event, result, direction, step))
  {
    var d' := Save(d, saga, row, event, result, direction, step);
    LogGrows(d.log, d'.log[|d.log|]);
    assert d.row.progress.completed + [] == d.row.progress.completed;
    assert d.row.progress.compensated + [] == d.row.progress.compensated;
  }

  // ---------- Dispatching ----------

  /** `saga` is the stored row, except that `run` resets the retry counters and the flag. */
  predicate CopyOf(saga: Row, row: Row) {
    saga == row.(brokerAttempts := saga.brokerAttempts, recoveryAttempts := saga.recoveryAttempts, reason := None)
  }

  function ResumeCost(log: seq<Entry>): nat {
    if log != [] && log[|log| - 1].event == ManualInterventionRequired then 1 else 0
  }

  /** A slice from which the next command may be dispatched. */
  predicate Ready(d: Slice, saga: Row) {
    && CopyOf(saga, d.row)
    && FaithfulLog(d)
    && Coherent(d.row.progress)
    && Active(d.row.progress.status)
    && CommandsOk(d)
    && (forall m | m in d.outbox && d.outbox[m].body.CommandBody? :: d.outbox[m].handed)
    && (forall m | m in d.outbox && d.outbox[m].publishedAt.Some? :: d.outbox[m].handed)
    && d.row.attempts <= 3 * Resolved(d.row.progress) + saga.brokerAttempts + 3 * (Resumes(d.log) + ResumeCost(d.log))
    && |CommandIds(d)| == d.row.attempts
    && saga.recoveryAttempts <= saga.brokerAttempts < 3
    && (NextOperation(d.row.progress).Finished? ==>
        saga == d.row && d.row.brokerAttempts == 0 && ResumeCost(d.log) == 0)
  }

  lemma NextMayExist(p: Progress)
    requires Coherent(p) && Active(p.status)
    ensures NextOperation(p).Next? ==> MayExist(p, NextOperation(p).operation)
  {
    CoherentCursor(p);
  }

  /** Everything a dispatched command changes. */
  lemma DispatchShape(cfg: Config, d: Slice, saga: Row, availableAt: nat, mid: Uuid)
    requires CopyOf(saga, d.row) && mid !in d.outbox && NextOperation(saga.progress).Next?
    ensures Dispatch(cfg, d, saga, availableAt, mid).Committed?
    ensures
      var d' := Dispatch(cfg, d, saga, availableAt, mid).slice;
      var op := NextOperation(saga.progress).operation;
      && d'.row == d.row.(
           pending := Some(mid), attempts := d.row.attempts + 1, brokerAttempts := saga.brokerAttempts + 1,
           recoveryAttempts := saga.recoveryAttempts, reason := None,
           responseDeadlineAt := Some(availableAt + cfg.commandTimeout),
           nextAttemptAt := availableAt + cfg.commandTimeout, lease := None, version := d.row.version + 1)
      && d'.outbox == d.outbox[mid := Outgoing(CommandBody(CommandFor(d.row, op)), availableAt, false, None)]
      && d'.inbox == d.inbox
      && |d'.log| == |d.log| + 1 && d'.log[..|d.log|] == d.log
      && IsDispatch(d'.log[|d.log|].event)
      && d'.log[|d.log|].sequence == d.row.version + 1
      && d'.log[|d.log|].from == Some(d.row.progress.status) && d'.log[|d.log|].to == d.row.progress.status
  {
  }

  lemma DispatchKeepsLog(cfg: Config, d: Slice, saga: Row, availableAt: nat, mid: Uuid)
    requires Ready(d, saga) && mid !in d.outbox && NextOperation(saga.progress).Next?
    ensures Dispatch(cfg, d, saga, availableAt, mid).Committed?
    ensures FaithfulLog(Dispatch(cfg, d, saga, availableAt, mid).slice)
    ensures Resumes(Dispatch(cfg, d, saga, availableAt, mid).slice.log) == Resumes(d.log) + ResumeCost(d.log)
  {
    hide Dispatch, CommandsOk, Coherent, NextOperation;
    DispatchShape(cfg, d, saga, availableAt, mid);
    var d' := Dispatch(cfg, d, saga, availableAt, mid).slice;
    var e := d'.log[|d.log|];
    assert d'.log == d.log + [e];
    LogGrows(d.log, e);
  }

  lemma DispatchKeepsBudget(cfg: Config, d: Slice, saga: Row, availableAt: nat, mid: Uuid)
    requires Ready(d, saga) && mid !in d.outbox && NextOperation(saga.progress).Next?
    ensures Dispatch(cfg, d, saga, availableAt, mid).Committed?
    ensures BudgetOk(Dispatch(cfg, d, saga, availableAt, mid).slice)
  {
    hide Dispatch, NextOperation, FaithfulLog, CommandsOk, Coherent, Resumes;
    DispatchShape(cfg, d, saga, availableAt, mid);
    DispatchKeepsLog(cfg, d, saga, availableAt, mid);
    var d' := Dispatch(cfg, d, saga, availableAt, mid).slice;
    assert CommandIds(d') == CommandIds(d) + {mid};
  }

  lemma DispatchKeepsOk(cfg: Config, d: Slice, saga: Row, availableAt: nat, mid: Uuid)
    requires Ready(d, saga) && mid !in d.outbox && NextOperation(saga.progress).Next?
    ensures Dispatch(cfg, d, saga, availableAt, mid).Committed?
    ensures Ok(Dispatch(cfg, d, saga, availableAt, mid).slice)
  {
    hide Dispatch, Resumes, Replay, Dispatches, Chained;
    DispatchShape(cfg, d, saga, availableAt, mid);
    DispatchKeepsLog(cfg, d, saga, availableAt, mid);
    DispatchKeepsBudget(cfg, d, saga, availableAt, mid);
    NextMayExist(d.row.progress);
    CoherentCursor(d.row.progress);
  }

  lemma GiveUpShape(cfg: Config, d: Slice, availableAt: nat, mid: Uuid)
    requires NextOperation(d.row.progress).Finished?
    ensures
      var p := d.row.progress;
      var row := d.row.(progress := p.(status := FailedOrder), pending := None, responseDeadlineAt := None,
                        lease := None);
      && p.status == Compensating
      && Dispatch(cfg, d, d.row, availableAt, mid)
           == Committed(Save(d, d.row, row, CompensationCompleted, None, CompensationDirection, p.step))
  {
  }

  lemma GiveUpKeepsLog(d: Slice)
    requires FaithfulLog(d)
    ensures
      var p := d.row.progress;
      var row := d.row.(progress := p.(status := FailedOrder), pending := None, responseDeadlineAt := None,
                        lease := None);
      var d' := Save(d, d.row, row, CompensationCompleted, None, CompensationDirection, p.step);
      FaithfulLog(d') && Resumes(d'.log) == Resumes(d.log) && CommandIds(d') == CommandIds(d)
  {
    var p := d.row.progress;
    var row := d.row.(progress := p.(status := FailedOrder), pending := None, responseDeadlineAt := None,
                      lease := None);
    assert p.completed + [] == p.completed && p.compensated + [] == p.compensated;
    SaveKeepsLog(d, d.row, row, CompensationCompleted, None, CompensationDirection, p.step);
    LogGrows(d.log, Save(d, d.row, row, CompensationCompleted, None, CompensationDirection, p.step).log[|d.log|]);
  }

  lemma GiveUpKeepsCommands(p: Progress, op: Operation)
    requires Coherent(p) && p.status == Compensating && |p.compensated| == |p.completed|
    ensures Coherent(p.(status := FailedOrder))
    ensures MayExist(p, op) ==> MayExist(p.(status := FailedOrder), op)
  {
    var r := Reversed(p.completed);
    assert r[..|r|] == r;
  }

  /** A compensation with nothing left to undo ends the saga. */
  lemma GiveUpKeepsOk(cfg: Config, d: Slice, availableAt: nat, mid: Uuid)
    requires Ready(d, d.row) && NextOperation(d.row.progress).Finished? && d.row.pending.None?
    ensures Dispatch(cfg, d, d.row, availableAt, mid).Committed?
    ensures Ok(Dispatch(cfg, d, d.row, availableAt, mid).slice)
  {
    CoherentCursor(d.row.progress);
    GiveUpShape(cfg, d, availableAt, mid);
    GiveUpKeepsLog(d);
    forall op { GiveUpKeepsCommands(d.row.progress, op); }
  }

  // ---------- Receiving ----------

  /** What a verdict may change, and how the retry counters follow the progress. */
  predicate Sound(saga: Row, v: Verdict) {
    var p := saga.progress;
    var q := v.row.progress;
    && AbstractStep(p, q) && Coherent(q)
    && v.row == saga.(
         progress := q, pending := None, responseDeadlineAt := None, reason := None, lease := None,
         lastResult := v.row.lastResult, brokerAttempts := v.row.brokerAttempts,
           recoveryAttempts := v.row.recoveryAttempts)
    && (if v.retry
        then Active(q.status) && q == p
             && v.row.brokerAttempts == saga.brokerAttempts && v.row.recoveryAttempts == saga.recoveryAttempts
        else v.row.brokerAttempts == 0 && v.row.recoveryAttempts == 0 && Resolved(q) == Resolved(p) + 1)
    && q.completed == p.completed + (if v.event == StepSucceeded then [v.step] else [])
    && q.compensated == p.compensated + (if v.event == CompensationSucceeded then [v.step] else [])
    && !IsDispatch(v.event) && v.event != ManualInterventionRequired
    && q.status != PendingPayment
  }

  lemma UndoVerdict(saga: Row, result: Result, step: SagaStep)
    requires Coherent(saga.progress) && saga.progress.status == Compensating
    requires NextOperation(saga.progress) == Next(result.operation, step)
    ensures Sound(saga, Judge(saga, result, step))
  {
    var p := saga.progress;
    CoherentCursor(p);
    var v := Judge(saga, result, step);
    assert p.completed + [] == p.completed && p.compensated + [] == p.compensated;
    assert if v.retry then p == v.row.progress else Undoes(p, v.row.progress);
    AbstractStepKeepsCoherence(p, v.row.progress);
  }

  lemma ForwardVerdict(saga: Row, result: Result, step: SagaStep)
    requires Coherent(saga.progress) && saga.progress.status == InProgress
    requires NextOperation(saga.progress) == Next(result.operation, step)
    ensures Sound(saga, Judge(saga, result, step))
  {
    var p := saga.progress;
    CoherentCursor(p);
    var v := Judge(saga, result, step);
    var q := v.row.progress;
    assert p.completed + [] == p.completed && p.compensated + [] == p.compensated;
    if v.retry {
      assert p == q;
    } else if result.outcome.Failed? {
      assert Rejects(p, q);
    } else if result.operation == FinalizeInventory {
      assert Completes(p, q);
    } else {
      assert Advances(p, q);
    }
    AbstractStepKeepsCoherence(p, q);
  }

  lemma JudgeIsSound(saga: Row, result: Result, step: SagaStep)
    requires Coherent(saga.progress) && NextOperation(saga.progress) == Next(result.operation, step)
    ensures Active(saga.progress.status)
    ensures Sound(saga, Judge(saga, result, step))
  {
    CoherentCursor(saga.progress);
    if saga.progress.status == Compensating {
      UndoVerdict(saga, result, step);
    } else {
      ForwardVerdict(saga, result, step);
    }
  }

  lemma ProgressKeepsCommands(p: Progress, q: Progress, op: Operation)
    requires Coherent(p) && AbstractStep(p, q) && MayExist(p, op)
    ensures IsForward(q.operation) && MayExist(q, op)
  {
  }

  lemma JudgedKeepsLog(d: Slice, v: Verdict, result: Result)
    requires FaithfulLog(d) && Sound(d.row, v)
    ensures var u := Judged(d, v, result);
      && FaithfulLog(u) && Resumes(u.log) == Resumes(d.log) && ResumeCost(u.log) == 0
  {
    SaveKeepsLog(d, d.row, v.row, v.event, Some(result), v.direction, v.step);
    LogGrows(d.log, Judged(d, v, result).log[|d.log|]);
  }

  lemma JudgedKeepsCommands(d: Slice, v: Verdict, result: Result)
    requires CommandsOk(d) && Coherent(d.row.progress) && Sound(d.row, v)
    ensures CommandsOk(Judged(d, v, result))
  {
    var u := Judged(d, v, result);
    forall m | m in u.outbox && u.outbox[m].body.CommandBody?
      ensures MayExist(u.row.progress, u.outbox[m].body.command.operation)
    {
      ProgressKeepsCommands(d.row.progress, u.row.progress, u.outbox[m].body.command.operation);
    }
  }

  /** The pending command was answered, so every command has reached the broker. */
  predicate Answered(d: Slice) {
    Ok(d) && Active(d.row.progress.status) && d.row.pending.Some? && d.outbox[d.row.pending.value].handed
  }

  /** A result that ends the saga. */
  lemma JudgedEnds(d: Slice, v: Verdict, result: Result)
    requires Answered(d) && Sound(d.row, v) && Terminal(v.row.progress.status)
    ensures Ok(Judged(d, v, result))
  {
    JudgedKeepsLog(d, v, result);
    JudgedKeepsCommands(d, v, result);
    assert CommandIds(Judged(d, v, result)) == CommandIds(d);
  }

  /** A result after which the saga goes on. */
  lemma JudgedGoesOn(d: Slice, v: Verdict, result: Result)
    requires Answered(d) && Sound(d.row, v) && !Terminal(v.row.progress.status)
    requires v.row.brokerAttempts < 3
    ensures var u := Judged(d, v, result); Ready(u, u.row) && u.row.pending.None?
  {
    JudgedKeepsLog(d, v, result);
    JudgedKeepsCommands(d, v, result);
    var u := Judged(d, v, result);
    assert CommandIds(u) == CommandIds(d);
    CoherentCursor(u.row.progress);
  }

  /** Every command reached the broker, three attempts are spent, and the log does not end in a flag. */
  predicate Exhausted(d: Slice) {
    && FaithfulLog(d) && ProgressOk(d) && CommandsOk(d) && BudgetOk(d)
    && Active(d.row.progress.status) && d.row.brokerAttempts == 3
    && (forall m | m in d.outbox && d.outbox[m].body.CommandBody? :: d.outbox[m].handed)
    && (forall m | m in d.outbox && d.outbox[m].publishedAt.Some? :: d.outbox[m].handed)
    && (d.row.pending.Some? ==>
         && d.row.pending.value in d.outbox
         && NextOperation(d.row.progress).Next?
         && d.outbox[d.row.pending.value].body
            == CommandBody(CommandFor(d.row, NextOperation(d.row.progress).operation)))
  }

  /** Saves that leave progress and attempts alone: interventions, claims, waits, recoveries. */
  lemma QuietSave(d: Slice, row: Row, event: EventKind)
    requires FaithfulLog(d) && CommandsOk(d)
    requires row == d.row.(pending := row.pending, responseDeadlineAt := row.responseDeadlineAt,
                           nextAttemptAt := row.nextAttemptAt,
                           recoveryAttempts := row.recoveryAttempts, reason := row.reason, lease := row.lease)
    requires event in {RecoveryClaimed, DeliveryWait, RecoveryResumed, ManualInterventionRequired}
    ensures
      var d' := Save(d, d.row, row, event, None, ForwardDirection, d.row.progress.step);
      && FaithfulLog(d') && CommandsOk(d') && Resumes(d'.log) == Resumes(d.log) && CommandIds(d') == CommandIds(d)
      && d'.row == row.(version := d.row.version + 1) && d'.outbox == d.outbox && d'.inbox == d.inbox
      && d'.log != [] && d'.log[|d'.log| - 1].event == event
  {
    assert d.row.progress.completed + [] == d.row.progress.completed;
    assert d.row.progress.compensated + [] == d.row.progress.compensated;
    SaveKeepsLog(d, d.row, row, event, None, ForwardDirection, d.row.progress.step);
    LogGrows(d.log, Save(d, d.row, row, event, None, ForwardDirection, d.row.progress.step).log[|d.log|]);
  }

  lemma InterveneKeepsOk(d: Slice, reason: Reason)
    requires Exhausted(d) && reason in {CommandRetriesExhausted, RecoveryRetriesExhausted}
    ensures Ok(Intervene(d, d.row, reason))
  {
    QuietSave(d, d.row.(reason := Some(reason), lease := None), ManualInterventionRequired);
  }

  lemma DeadLetterKeepsOk(d: Slice, id: Uuid, env: ResultEnvelope, availableAt: nat)
    requires Ok(d)
    ensures Ok(Enqueue(d, id, DeadLetter(env), availableAt))
  {
    hide Chained, Coherent, NextOperation, MayExist, Replay, Dispatches, Resumes, CommandFor;
    var d' := Enqueue(d, id, DeadLetter(env), availableAt);
    assert CommandIds(d') == CommandIds(d);
  }

  lemma RememberKeepsOk(d: Slice, inbox: map<Uuid, ResultEnvelope>)
    requires Ok(d)
    ensures Ok(d.(inbox := inbox))
  {
    hide Chained, Coherent, NextOperation, MayExist, Replay, Dispatches, Resumes, CommandFor;
    assert CommandIds(d.(inbox := inbox)) == CommandIds(d);
  }

  lemma JudgedExhausts(d: Slice, v: Verdict, env: ResultEnvelope, now: nat)
    requires Answered(d) && Sound(d.row, v) && v.retry && v.row.brokerAttempts >= 3
    ensures Ok(Enqueue(Intervene(Judged(d, v, env.result), Judged(d, v, env.result).row, CommandRetriesExhausted),
                       env.messageId, DeadLetter(env), now))
  {
    var u := Judged(d, v, env.result);
    JudgedKeepsLog(d, v, env.result);
    JudgedKeepsCommands(d, v, env.result);
    assert CommandIds(u) == CommandIds(d);
    assert Exhausted(u);
    InterveneKeepsOk(u, CommandRetriesExhausted);
    DeadLetterKeepsOk(Intervene(u, u.row, CommandRetriesExhausted), env.messageId, env, now);
  }

  lemma JudgedDispatches(cfg: Config, d: Slice, v: Verdict, result: Result, at: nat, mid: Uuid)
    requires Answered(d) && Sound(d.row, v) && mid !in d.outbox
    requires !Terminal(v.row.progress.status) && v.row.brokerAttempts < 3
    ensures
      var u := Judged(d, v, result);
      var tx := Dispatch(cfg, u, u.row, at, mid);
      tx.Committed? && Ok(tx.slice)
  {
    JudgedGoesOn(d, v, result);
    var u := Judged(d, v, result);
    if NextOperation(u.row.progress).Next? {
      DispatchKeepsOk(cfg, u, u.row, at, mid);
    } else {
      CoherentCursor(u.row.progress);
      GiveUpKeepsOk(cfg, u, at, mid);
    }
  }

  lemma ResolveKeepsOk(cfg: Config, d: Slice, v: Verdict, env: ResultEnvelope, now: nat, mid: Uuid)
    requires Answered(d) && Sound(d.row, v) && mid !in d.outbox
    ensures Resolve(cfg, d, v, env, now, mid).Committed?
    ensures Ok(Resolve(cfg, d, v, env, now, mid).slice)
  {
    var u := Judged(d, v, env.result);
    if Terminal(v.row.progress.status) {
      JudgedEnds(d, v, env.result);
      assert Resolve(cfg, d, v, env, now, mid) == Committed(u);
    } else if v.retry && v.row.brokerAttempts >= 3 {
      JudgedExhausts(d, v, env, now);
    } else {
      JudgedDispatches(cfg, d, v, env.result, RetryAt(cfg, v, now), mid);
      assert Resolve(cfg, d, v, env, now, mid) == Dispatch(cfg, u, u.row, RetryAt(cfg, v, now), mid);
    }
  }

  predicate Awaited(d: Slice, env: ResultEnvelope) {
    && Correlated(d, env) && env.messageId !in d.inbox
    && d.row.pending == Some(env.causationId)
  }

  /** The cursor check can never throw: an awaited result always matches the saga's progress. */
  lemma ReceiveShape(cfg: Config, d: Slice, env: ResultEnvelope, now: nat, mid: Uuid)
    requires Ok(d) && Awaited(d, env)
    ensures Coherent(d.row.progress) && NextOperation(d.row.progress).Next?
    ensures NextOperation(d.row.progress).operation == env.result.operation
    ensures Active(d.row.progress.status)
    ensures IsForward(d.row.progress.operation)
    ensures d.row.progress.status != Compensating ==> env.result.operation == d.row.progress.operation
    ensures Receive(cfg, d, env, now, mid)
         == Resolve(cfg, Remembered(d, env), Judge(d.row, env.result, NextOperation(d.row.progress).step), env, now,
                    mid)
  {
    CoherentCursor(d.row.progress);
  }

  lemma ReceiveKeepsOk(cfg: Config, d: Slice, env: ResultEnvelope, now: nat, mid: Uuid)
    requires Ok(d) && Enabled(d, DoReceive(env, mid))
    ensures Ok(Settle(d, Receive(cfg, d, env, now, mid)))
  {
    RememberKeepsOk(d, Remembered(d, env).inbox);
    if Awaited(d, env) {
      ReceiveShape(cfg, d, env, now, mid);
      var step := NextOperation(d.row.progress).step;
      JudgeIsSound(d.row, env.result, step);
      ResolveKeepsOk(cfg, Remembered(d, env), Judge(d.row, env.result, step), env, now, mid);
    } else {
      assert Receive(cfg, d, env, now, mid) in {Aborted, Committed(d), Committed(Remembered(d, env))};
    }
  }

  // ---------- The other operations ----------

  lemma ConfirmKeepsOk(cfg: Config, d: Slice, now: nat, mid: Uuid)
    requires Ok(d) && mid !in d.outbox
    ensures Ok(Settle(d, ConfirmPayment(cfg, d, now, mid)))
  {
    var saga := d.row;
    if saga.progress.status == PendingPayment && saga.payload.paymentMethod == BankTransfer {
      var row := saga.(progress := saga.progress.(status := InProgress), nextAttemptAt := now);
      var u := Save(d, saga, row, PaymentConfirmed, None, ForwardDirection, saga.progress.step);
      assert saga.progress.completed + [] == saga.progress.completed;
      assert saga.progress.compensated + [] == saga.progress.compensated;
      SaveKeepsLog(d, saga, row, PaymentConfirmed, None, ForwardDirection, saga.progress.step);
      LogGrows(d.log, u.log[|d.log|]);
      assert CommandIds(u) == CommandIds(d);
      CoherentCursor(u.row.progress);
      assert Ready(u, u.row);
      DispatchKeepsOk(cfg, u, u.row, now, mid);
    }
  }

  lemma ResumeKeepsOk(cfg: Config, d: Slice, now: nat, mid: Uuid)
    requires Ok(d) && mid !in d.outbox
    ensures Ok(Settle(d, Resume(cfg, d, now, mid)))
  {
    var saga := d.row.(brokerAttempts := 0, recoveryAttempts := 0, reason := None);
    CoherentCursor(d.row.progress);
    if Active(d.row.progress.status) && !(d.row.pending.Some? && d.row.reason.None?) {
      ResumeIsReady(d, saga);
      hide Ok, Ready, Dispatch, NextOperation;
      DispatchKeepsOk(cfg, d, saga, now, mid);
    } else {
      assert Settle(d, Resume(cfg, d, now, mid)) == d by { hide Ok; }
    }
  }

  lemma ResumeIsReady(d: Slice, saga: Row)
    requires Ok(d) && Active(d.row.progress.status) && !(d.row.pending.Some? && d.row.reason.None?)
    requires saga == d.row.(brokerAttempts := 0, recoveryAttempts := 0, reason := None)
    ensures Ready(d, saga) && NextOperation(saga.progress).Next?
  {
    CoherentCursor(d.row.progress);
    hide Replay, Dispatches, Chained, MayExist, Resumes, NextOperation;
  }

  lemma ClaimKeepsOk(d: Slice, now: nat, token: Uuid, leaseMs: nat)
    requires Ok(d)
    ensures Ok(Claim(d, now, token, leaseMs))
  {
    if Claimable(d.row, now) {
      QuietSave(d, d.row.(lease := Some(Lease(token, now + leaseMs))), RecoveryClaimed);
    }
  }

  /** A pending command is always found, so a recovery waits, flags exhaustion or dispatches again. */
  lemma RecoverShape(cfg: Config, d: Slice, token: Uuid, now: nat, mid: Uuid)
    requires Ok(d) && HoldsLease(d.row, token, now)
    ensures d.row.pending.Some? && d.row.pending.value in d.outbox
    ensures NextOperation(d.row.progress).Next?
    ensures
      var saga := d.row;
      Recover(cfg, d, token, now, mid) ==
        if AwaitingDelivery(cfg, d.outbox[saga.pending.value], now) then
          var deadline := ResponseDeadline(cfg, d.outbox[saga.pending.value], now);
          Committed(Save(d, saga, saga.(responseDeadlineAt := Some(deadline), nextAttemptAt := deadline, lease := None),
                         DeliveryWait, None, ForwardDirection, saga.progress.step))
        else if saga.brokerAttempts >= 3 then Committed(Intervene(d, saga, RecoveryRetriesExhausted))
        else
          var recovered := Save(d, saga, saga.(pending := None, recoveryAttempts := saga.recoveryAttempts + 1,
                                               lease := None),
                                RecoveryResumed, None, ForwardDirection, saga.progress.step);
          Dispatch(cfg, recovered, recovered.row, now, mid)
  {
    hide FaithfulLog, ProgressOk, CommandsOk, RelayOk, Dispatch, NextOperation;
    hide Save, Intervene, AwaitingDelivery, ResponseDeadline;
  }

  lemma WaitKeepsOk(d: Slice, deadline: nat)
    requires Ok(d)
    requires Active(d.row.progress.status) && !Flagged(d)
    ensures Ok(Save(d, d.row, d.row.(responseDeadlineAt := Some(deadline), nextAttemptAt := deadline, lease := None),
                    DeliveryWait, None, ForwardDirection, d.row.progress.step))
  {
    QuietSave(d, d.row.(responseDeadlineAt := Some(deadline), nextAttemptAt := deadline, lease := None), DeliveryWait);
  }

  lemma RedispatchKeepsOk(cfg: Config, d: Slice, now: nat, mid: Uuid)
    requires Ok(d) && mid !in d.outbox
    requires Active(d.row.progress.status) && !Flagged(d) && d.row.brokerAttempts < 3
    requires d.row.pending.Some? && d.outbox[d.row.pending.value].handed
    ensures
      var row := d.row.(pending := None, recoveryAttempts := d.row.recoveryAttempts + 1, lease := None);
      var u := Save(d, d.row, row, RecoveryResumed, None, ForwardDirection, d.row.progress.step);
      Dispatch(cfg, u, u.row, now, mid).Committed? && Ok(Dispatch(cfg, u, u.row, now, mid).slice)
  {
    var row := d.row.(pending := None, recoveryAttempts := d.row.recoveryAttempts + 1, lease := None);
    QuietSave(d, row, RecoveryResumed);
    var u := Save(d, d.row, row, RecoveryResumed, None, ForwardDirection, d.row.progress.step);
    assert Ready(u, u.row);
    DispatchKeepsOk(cfg, u, u.row, now, mid);
  }

  lemma RecoverKeepsOk(cfg: Config, d: Slice, token: Uuid, now: nat, mid: Uuid)
    requires Ok(d) && mid !in d.outbox
    ensures Ok(Settle(d, Recover(cfg, d, token, now, mid)))
  {
    if HoldsLease(d.row, token, now) {
      RecoverShape(cfg, d, token, now, mid);
      var sent := d.outbox[d.row.pending.value];
      if AwaitingDelivery(cfg, sent, now) {
        WaitKeepsOk(d, ResponseDeadline(cfg, sent, now));
      } else {
        assert sent.handed;
        if d.row.brokerAttempts >= 3 {
          InterveneKeepsOk(d, RecoveryRetriesExhausted);
        } else {
          RedispatchKeepsOk(cfg, d, now, mid);
        }
      }
    }
  }

  /** The relay only ever ticks the boxes of one outbox row. */
  lemma TickKeepsOk(d: Slice, m: Uuid, ticked: Outgoing)
    requires Ok(d) && m in d.outbox
    requires ticked == d.outbox[m].(handed := true, publishedAt := ticked.publishedAt)
    ensures Ok(d.(outbox := d.outbox[m := ticked]))
  {
    hide Chained, Coherent, NextOperation, MayExist, Replay, Dispatches, Resumes, CommandFor;
    assert CommandIds(d.(outbox := d.outbox[m := ticked])) == CommandIds(d);
  }

  lemma RelayKeepsOk(d: Slice, m: Uuid, now: nat)
    requires Ok(d)
    ensures Ok(HandOver(d, m, now)) && Ok(MarkPublished(d, m, now))
  {
    if m in d.outbox {
      TickKeepsOk(d, m, d.outbox[m].(handed := true));
      if d.outbox[m].handed {
        TickKeepsOk(d, m, d.outbox[m].(publishedAt := Some(now)));
      }
    }
  }

  lemma AcceptIsOk(cfg: Config, id: Uuid, orderId: Uuid, payload: OrderPayload, now: nat, mid: Uuid)
    ensures Ok(Accept(cfg, id, orderId, payload, now, mid))
  {
    var status := if payload.paymentMethod == BankTransfer then PendingPayment else InProgress;
    var row := Row(id, orderId, payload, Progress(status, ChargePayment, PaymentStep, [], [], false),
                   None, None, now, 0, 0, 0, None, None, None, 1);
    var e := Entry(1, None, status, PaymentStep, ForwardDirection, OrderAccepted, None, None, None);
    var d := Slice(row, [e], map[], map[]);
    LogGrows([], e);
    assert [] + [e] == [e];
    assert CommandIds(d) == {};
    if status == InProgress {
      assert Ready(d, row);
      CoherentCursor(row.progress);
      DispatchKeepsOk(cfg, d, row, now, mid);
    }
  }

  /** Every operation keeps the whole invariant. */
  lemma PerformKeepsOk(cfg: Config, d: Slice, a: Action, now: nat)
    requires Ok(d) && Enabled(d, a)
    ensures Ok(Perform(cfg, d, a, now))
  {
    match a
    case DoConfirm(mid) => ConfirmKeepsOk(cfg, d, now, mid);
    case DoResume(mid) => ResumeKeepsOk(cfg, d, now, mid);
    case DoReceive(env, mid) => ReceiveKeepsOk(cfg, d, env, now, mid);
    case DoClaim(token, leaseMs) => ClaimKeepsOk(d, now, token, leaseMs);
    case DoRecover(token, mid) => RecoverKeepsOk(cfg, d, token, now, mid);
    case DoHandOver(m) => RelayKeepsOk(d, m, now);
    case DoMarkPublished(m) => RelayKeepsOk(d, m, now);
  }
}
