/** The broker-driven saga (services/order-orchestrator/src/saga/brokerOrders.ts).

    A `Slice` is everything the orchestrator's database holds about one saga: its row, its
    transition log, the messages it sent and the results it consumed. Every public operation of
    `BrokerOrderService` is one transaction on one slice; a thrown error rolls it back. */
module Broker {
  import opened Contracts
  import opened StateMachine

  datatype Config = Config(retryDelay: nat, commandTimeout: nat)

  datatype Reason = CommandRetriesExhausted | RecoveryRetriesExhausted | InconsistentProgress | MissingCommand

  datatype Lease = Lease(owner: Uuid, expiresAt: nat)

  /** A row of `saga_instances`. */
  datatype Row = Row(
    id: Uuid,
    orderId: Uuid,
    payload: OrderPayload,
    progress: Progress,
    pending: Option<Uuid>,
    responseDeadlineAt: Option<nat>,
    nextAttemptAt: nat,
    attempts: nat,
    brokerAttempts: nat,
    recoveryAttempts: nat,
    reason: Option<Reason>,
    lease: Option<Lease>,
    lastResult: Option<Result>,
    version: nat)

  datatype EventKind =
    | OrderAccepted | PaymentConfirmed | CommandDispatched | CompensationDispatched
    | StepSucceeded | StepRejected | RetryRequired | OrderCompleted | FinalizationRejected
    | CompensationSucceeded | CompensationRetryRequired | CompensationCompleted
    | RecoveryClaimed | DeliveryWait | RecoveryResumed | ManualInterventionRequired

  datatype Direction = ForwardDirection | CompensationDirection

  /** A row of `saga_transitions`. */
  datatype Entry = Entry(
    sequence: nat,
    from: Option<Status>,
    to: Status,
    step: SagaStep,
    direction: Direction,
    event: EventKind,
    messageId: Option<Uuid>,
    reason: Option<Reason>,
    result: Option<Result>)

  datatype Body = CommandBody(command: Command) | DeadLetter(envelope: ResultEnvelope)

  /** A row of `message_outbox`. `handed` records that the broker has been given the message at
      least once; the code marks `publishedAt` only afterwards, and may crash in between. */
  datatype Outgoing = Outgoing(body: Body, availableAt: nat, handed: bool, publishedAt: Option<nat>)

  datatype Slice = Slice(
    row: Row,
    log: seq<Entry>,
    outbox: map<Uuid, Outgoing>,
    inbox: map<Uuid, ResultEnvelope>)

  /** A transaction either commits a new slice or is rolled back by a thrown error. */
  datatype Tx = Aborted | Committed(slice: Slice)

  function Settle(d: Slice, tx: Tx): Slice {
    if tx.Committed? then tx.slice else d
  }

  predicate Terminal(s: Status) { s in {CompletedOrder, FailedOrder} }

  predicate Active(s: Status) { s in {InProgress, Compensating} }

  // ---------- The private building blocks ----------

  function Save(d: Slice, saga: Row, row: Row, event: EventKind, result: Option<Result>,
                direction: Direction, step: SagaStep): Slice
  {
    var updated := row.(version := saga.version + 1);
    var message := if updated.pending.Some? then updated.pending else saga.pending;
    d.(row := updated,
       log := d.log + [Entry(updated.version, Some(saga.progress.status), updated.progress.status, step,
                             direction, event, message, updated.reason, result)])
  }

  function Enqueue(d: Slice, id: Uuid, body: Body, availableAt: nat): Slice {
    if id in d.outbox then d else d.(outbox := d.outbox[id := Outgoing(body, availableAt, false, None)])
  }

  function Intervene(d: Slice, saga: Row, reason: Reason): Slice {
    Save(d, saga, d.row.(reason := Some(reason), lease := None), ManualInterventionRequired, None,
         ForwardDirection, saga.progress.step)
  }

  /** `saga` is the caller's copy of the row, which `run` changes before it dispatches. */
  function Dispatch(cfg: Config, d: Slice, saga: Row, availableAt: nat, mid: Uuid): Tx {
    match NextOperation(saga.progress)
    case Inconsistent => Aborted
    case Finished =>
      Committed(Save(d, saga,
        d.row.(progress := d.row.progress.(status := FailedOrder), pending := None, responseDeadlineAt := None,
               lease := None),
        CompensationCompleted, None, CompensationDirection, saga.progress.step))
    case Next(operation, step) =>
      var back := saga.progress.status == Compensating;
      var row := d.row.(
        pending := Some(mid),
        attempts := saga.attempts + 1,
        brokerAttempts := saga.brokerAttempts + 1,
        recoveryAttempts := saga.recoveryAttempts,
        reason := saga.reason,
        responseDeadlineAt := Some(availableAt + cfg.commandTimeout),
        nextAttemptAt := availableAt + cfg.commandTimeout,
        lease := None);
      var saved := Save(d, saga, row, if back then CompensationDispatched else CommandDispatched, None,
                        if back then CompensationDirection else ForwardDirection, step);
      Committed(Enqueue(saved, mid, CommandBody(BuildCommand(operation, saga.orderId, saga.id, saga.payload)),
                        availableAt))
  }

  // ---------- The public operations ----------

  /** `accept` for a new order, with the broker's `onAccepted`. */
  function Accept(cfg: Config, id: Uuid, orderId: Uuid, payload: OrderPayload, now: nat, mid: Uuid): Slice {
    var status := if payload.paymentMethod == BankTransfer then PendingPayment else InProgress;
    var row := Row(id, orderId, payload, Progress(status, ChargePayment, PaymentStep, [], [], false),
                   None, None, now, 0, 0, 0, None, None, None, 1);
    var d := Slice(row, [Entry(1, None, status, PaymentStep, ForwardDirection, OrderAccepted, None, None, None)],
                   map[], map[]);
    if status == InProgress then Settle(d, Dispatch(cfg, d, row, now, mid)) else d
  }

  function ConfirmPayment(cfg: Config, d: Slice, now: nat, mid: Uuid): Tx {
    var saga := d.row;
    if saga.progress.status != PendingPayment || saga.payload.paymentMethod != BankTransfer then Committed(d)
    else
      var confirmed := Save(d, saga, saga.(progress := saga.progress.(status := InProgress), nextAttemptAt := now),
                            PaymentConfirmed, None, ForwardDirection, saga.progress.step);
      Dispatch(cfg, confirmed, confirmed.row, now, mid)
  }

  /** `run`: a manual resume. On a saga that still waits for payment the cursor throws. */
  function Resume(cfg: Config, d: Slice, now: nat, mid: Uuid): Tx {
    var saga := d.row;
    if Terminal(saga.progress.status) || (saga.pending.Some? && saga.reason.None?) then Committed(d)
    else Dispatch(cfg, d, saga.(brokerAttempts := 0, recoveryAttempts := 0, reason := None), now, mid)
  }

  /** The checks on a result that precede its entry in the inbox. */
  predicate Correlated(d: Slice, env: ResultEnvelope) {
    && env.causationId in d.outbox
    && d.outbox[env.causationId].body.CommandBody?
    && var command := d.outbox[env.causationId].body.command;
       && env.result.sagaId == d.row.id
       && env.result.orderId == command.orderId
       && env.result.operation == command.operation
       && env.result.key == command.key
       && env.result.key == SagaKey(d.row.id, env.result.operation)
  }

  /** The row after an awaited result, before anything is dispatched. */
  function Common(saga: Row, result: Result): Row {
    saga.(pending := None, responseDeadlineAt := None, reason := None, lastResult := Some(result), lease := None)
  }

  /** What an awaited result does: the new row, how it is logged, and whether to try again. */
  datatype Verdict = Verdict(row: Row, event: EventKind, direction: Direction, step: SagaStep, retry: bool)

  function Judge(saga: Row, result: Result, step: SagaStep): Verdict
    requires IsForward(saga.progress.operation)
    requires saga.progress.status != Compensating ==> result.operation == saga.progress.operation
  {
    var p := saga.progress;
    var common := Common(saga, result);
    if p.status == Compensating then
      if result.outcome.Succeeded? then
        Verdict(common.(brokerAttempts := 0, recoveryAttempts := 0,
                        progress := p.(compensated := p.compensated + [step])),
                CompensationSucceeded, CompensationDirection, step, false)
      else
        Verdict(common, CompensationRetryRequired, CompensationDirection, step, true)
    else
      match result.outcome
      case Unknown => Verdict(common, RetryRequired, ForwardDirection, p.step, true)
      case Failed(code) =>
        if IsRejection(result.operation, code) then
          Verdict(common.(progress := p.(status := if p.completed != [] then Compensating else FailedOrder),
                          recoveryAttempts := 0, brokerAttempts := 0),
                  StepRejected, ForwardDirection, p.step, false)
        else
          Verdict(common.(progress := p.(status := InProgress)), StepRejected, ForwardDirection, p.step, true)
      case Succeeded(_) =>
        if result.operation == FinalizeInventory then
          Verdict(common.(progress := p.(status := CompletedOrder, finalized := true), brokerAttempts := 0,
                          recoveryAttempts := 0),
                  OrderCompleted, ForwardDirection, p.step, false)
        else
          var next := NextForward(result.operation);
          Verdict(common.(brokerAttempts := 0, recoveryAttempts := 0,
                          progress := p.(completed := p.completed + [step], operation := next, step := StepFor(next))),
                  StepSucceeded, ForwardDirection, p.step, false)
  }

  /** The slice once the result is saved. */
  function Judged(d: Slice, v: Verdict, result: Result): Slice {
    Save(d, d.row, v.row, v.event, Some(result), v.direction, v.step)
  }

  function RetryAt(cfg: Config, v: Verdict, now: nat): nat {
    if v.retry then now + cfg.retryDelay * v.row.brokerAttempts else now
  }

  /** How the transaction of an awaited result ends: the saga is over, it is flagged for an
      operator, or its next command is dispatched. */
  function Resolve(cfg: Config, d: Slice, v: Verdict, env: ResultEnvelope, now: nat, mid: Uuid): Tx {
    var updated := Judged(d, v, env.result);
    if Terminal(updated.row.progress.status) then Committed(updated)
    else if v.retry && updated.row.brokerAttempts >= 3 then
      Committed(Enqueue(Intervene(updated, updated.row, CommandRetriesExhausted), env.messageId, DeadLetter(env), now))
    else
      Dispatch(cfg, updated, updated.row, RetryAt(cfg, v, now), mid)
  }

  function Remembered(d: Slice, env: ResultEnvelope): Slice {
    d.(inbox := d.inbox[env.messageId := env])
  }

  function Receive(cfg: Config, d: Slice, env: ResultEnvelope, now: nat, mid: Uuid): Tx {
    if !Correlated(d, env) then Aborted
    else if env.messageId in d.inbox then (if d.inbox[env.messageId] == env then Committed(d) else Aborted)
    else if d.row.pending != Some(env.causationId) || Terminal(d.row.progress.status) then Committed(Remembered(d, env))
    else
      match NextOperation(d.row.progress)
      case Inconsistent => Aborted
      case Finished => Aborted
      case Next(operation, step) =>
        if operation != env.result.operation then Aborted
        else Resolve(cfg, Remembered(d, env), Judge(d.row, env.result, step), env, now, mid)
  }

  predicate Claimable(saga: Row, now: nat) {
    && Active(saga.progress.status)
    && saga.reason.None?
    && saga.nextAttemptAt <= now
    && (saga.lease.None? || saga.lease.value.expiresAt <= now)
  }

  /** What `claimRecovery` does to one candidate. */
  function Claim(d: Slice, now: nat, token: Uuid, leaseMs: nat): Slice {
    if !Claimable(d.row, now) then d
    else Save(d, d.row, d.row.(lease := Some(Lease(token, now + leaseMs))), RecoveryClaimed, None,
              ForwardDirection, d.row.progress.step)
  }

  /** The token still owns the saga's recovery. */
  predicate HoldsLease(saga: Row, token: Uuid, now: nat) {
    && saga.lease.Some? && saga.lease.value.owner == token && now < saga.lease.value.expiresAt
    && saga.reason.None?
    && Active(saga.progress.status)
  }

  function Recover(cfg: Config, d: Slice, token: Uuid, now: nat, mid: Uuid): Tx {
    var saga := d.row;
    if !HoldsLease(saga, token, now) then Committed(d)
    else if NextOperation(saga.progress).Inconsistent? then Committed(Intervene(d, saga, InconsistentProgress))
    else if saga.pending.Some? && (saga.pending.value !in d.outbox
                                   || !d.outbox[saga.pending.value].body.CommandBody?) then
      Committed(Intervene(d, saga, MissingCommand))
    else if saga.pending.Some? && AwaitingDelivery(cfg, d.outbox[saga.pending.value], now) then
      var deadline := ResponseDeadline(cfg, d.outbox[saga.pending.value], now);
      Committed(Save(d, saga, saga.(responseDeadlineAt := Some(deadline), nextAttemptAt := deadline, lease := None),
                     DeliveryWait, None, ForwardDirection, saga.progress.step))
    else if saga.recoveryAttempts >= 3 || saga.brokerAttempts >= 3 then
      Committed(Intervene(d, saga, RecoveryRetriesExhausted))
    else
      var recovered := Save(d, saga, saga.(pending := None, recoveryAttempts := saga.recoveryAttempts + 1,
                                           lease := None),
                            RecoveryResumed, None, ForwardDirection, saga.progress.step);
      Dispatch(cfg, recovered, recovered.row, now, mid)
  }

  function ResponseDeadline(cfg: Config, sent: Outgoing, now: nat): nat {
    (if sent.publishedAt.Some? then sent.publishedAt.value else now) + cfg.commandTimeout
  }

  predicate AwaitingDelivery(cfg: Config, sent: Outgoing, now: nat) {
    sent.publishedAt.None? || ResponseDeadline(cfg, sent, now) > now
  }

  // ---------- The relay (shared/src/messaging/rabbit.ts) ----------

  /** First half of `relayOnce`: the broker confirms the message. */
  function HandOver(d: Slice, m: Uuid, now: nat): Slice {
    if m in d.outbox && d.outbox[m].publishedAt.None? && d.outbox[m].availableAt <= now
    then d.(outbox := d.outbox[m := d.outbox[m].(handed := true)])
    else d
  }

  /** Second half: the row is marked. A crash before this point publishes the message again. */
  function MarkPublished(d: Slice, m: Uuid, now: nat): Slice {
    if m in d.outbox && d.outbox[m].publishedAt.None? && d.outbox[m].handed
    then d.(outbox := d.outbox[m := d.outbox[m].(publishedAt := Some(now))])
    else d
  }

  // ---------- Steps ----------

  datatype Action =
    | DoConfirm(mid: Uuid)
    | DoResume(mid: Uuid)
    | DoReceive(envelope: ResultEnvelope, mid: Uuid)
    | DoClaim(token: Uuid, leaseMs: nat)
    | DoRecover(token: Uuid, mid: Uuid)
    | DoHandOver(message: Uuid)
    | DoMarkPublished(message: Uuid)

  function Perform(cfg: Config, d: Slice, a: Action, now: nat): Slice {
    match a
    case DoConfirm(mid) => Settle(d, ConfirmPayment(cfg, d, now, mid))
    case DoResume(mid) => Settle(d, Resume(cfg, d, now, mid))
    case DoReceive(env, mid) => Settle(d, Receive(cfg, d, env, now, mid))
    case DoClaim(token, leaseMs) => Claim(d, now, token, leaseMs)
    case DoRecover(token, mid) => Settle(d, Recover(cfg, d, token, now, mid))
    case DoHandOver(m) => HandOver(d, m, now)
    case DoMarkPublished(m) => MarkPublished(d, m, now)
  }

  /** Message ids are generated fresh, and only a command the broker has been given is answered. */
  predicate Enabled(d: Slice, a: Action) {
    match a
    case DoConfirm(mid) => mid !in d.outbox
    case DoResume(mid) => mid !in d.outbox
    case DoReceive(env, mid) =>
      && mid !in d.outbox
      && (env.causationId in d.outbox ==> d.outbox[env.causationId].handed)
    case DoRecover(_, mid) => mid !in d.outbox
    case _ => true
  }
}
