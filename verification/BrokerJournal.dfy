/** The transition log as an audit trail: every command it records is in the outbox, every answer
    it records came in through the inbox for a command of that very step
    (services/order-orchestrator/src/saga/brokerOrders.ts:426-465). */
module BrokerJournal {
  import opened Contracts
  import opened StateMachine
  import opened Broker
  import opened BrokerInvariant
  import opened BrokerLinks
  import opened BrokerTheorems

  /** The step an operation works on. */
  function WorksOn(op: Operation): SagaStep {
    match op
    case ChargePayment | RefundPayment => PaymentStep
    case ReserveInventory | ReleaseInventory => InventoryStep
    case CreateShipment | CancelShipment | FinalizeInventory => ShippingStep
  }

  predicate RecordsAnswer(event: EventKind) {
    event in {StepSucceeded, OrderCompleted, CompensationSucceeded, StepRejected, RetryRequired,
              CompensationRetryRequired}
  }

  /** The event is how the answer reads. */
  predicate Reads(event: EventKind, outcome: Outcome) {
    match event
    case StepSucceeded | OrderCompleted | CompensationSucceeded => outcome.Succeeded?
    case StepRejected => outcome.Failed?
    case RetryRequired => outcome.Unknown?
    case CompensationRetryRequired => !outcome.Succeeded?
    case _ => false
  }

  /** The message of an entry is a command of the entry's step and direction. */
  predicate NamesCommand(e: Entry, outbox: map<Uuid, Outgoing>) {
    && e.messageId.Some? && e.messageId.value in outbox && outbox[e.messageId.value].body.CommandBody?
    && var op := outbox[e.messageId.value].body.command.operation;
       WorksOn(op) == e.step && (e.direction == ForwardDirection <==> IsForward(op))
  }

  /** That result arrived as the answer to that command. */
  predicate Arrived(e: Entry, outbox: map<Uuid, Outgoing>, inbox: map<Uuid, ResultEnvelope>)
    requires NamesCommand(e, outbox) && e.result.Some?
  {
    && e.result.value.operation == outbox[e.messageId.value].body.command.operation
    && e.result.value.key == outbox[e.messageId.value].body.command.key
    && exists id :: id in inbox && inbox[id].causationId == e.messageId.value && inbox[id].result == e.result.value
  }

  predicate Backed(e: Entry, outbox: map<Uuid, Outgoing>, inbox: map<Uuid, ResultEnvelope>) {
    && (e.reason.Some? <==> e.event == ManualInterventionRequired)
    && (e.result.Some? <==> RecordsAnswer(e.event))
    && (IsDispatch(e.event) ==> NamesCommand(e, outbox))
    && (e.result.Some? ==>
          NamesCommand(e, outbox) && Arrived(e, outbox, inbox) && Reads(e.event, e.result.value.outcome))
  }

  predicate JournalOk(d: Slice) {
    forall i :: 0 <= i < |d.log| ==> Backed(d.log[i], d.outbox, d.inbox)
  }

  predicate InboxKeeps(d: Slice, d': Slice) {
    forall id | id in d.inbox :: id in d'.inbox && d'.inbox[id] == d.inbox[id]
  }

  lemma BackedStays(e: Entry, d: Slice, d': Slice)
    requires Backed(e, d.outbox, d.inbox) && OutboxGrows(d, d') && InboxKeeps(d, d')
    ensures Backed(e, d'.outbox, d'.inbox)
  {
  }

  /** One more backed entry. */
  lemma JournalGrows(d: Slice, d': Slice, e: Entry)
    requires JournalOk(d) && OutboxGrows(d, d') && InboxKeeps(d, d')
    requires d'.log == d.log + [e] && Backed(e, d'.outbox, d'.inbox)
    ensures JournalOk(d')
  {
    hide Backed;
    forall i | 0 <= i < |d'.log| ensures Backed(d'.log[i], d'.outbox, d'.inbox) {
      if i < |d.log| { BackedStays(d.log[i], d, d'); }
    }
  }

  lemma JournalStays(d: Slice, d': Slice)
    requires JournalOk(d) && OutboxGrows(d, d') && InboxKeeps(d, d') && d'.log == d.log
    ensures JournalOk(d')
  {
    hide Backed;
    forall i | 0 <= i < |d'.log| ensures Backed(d'.log[i], d'.outbox, d'.inbox) {
      BackedStays(d.log[i], d, d');
    }
  }

  // ---------- What each transaction records ----------

  lemma CursorSteps(p: Progress)
    requires NextOperation(p).Next?
    ensures WorksOn(NextOperation(p).operation) == NextOperation(p).step
    ensures IsForward(NextOperation(p).operation) <==> p.status != Compensating
  {
  }

  lemma DispatchJournals(cfg: Config, d: Slice, saga: Row, availableAt: nat, mid: Uuid)
    requires JournalOk(d) && mid !in d.outbox && saga.reason.None?
    requires NextOperation(saga.progress).Finished? ==> d.row.reason.None?
    ensures JournalOk(Settle(d, Dispatch(cfg, d, saga, availableAt, mid)))
  {
    hide JournalOk, NextOperation;
    var d' := Settle(d, Dispatch(cfg, d, saga, availableAt, mid));
    if NextOperation(saga.progress).Next? {
      CursorSteps(saga.progress);
      JournalGrows(d, d', d'.log[|d.log|]);
    } else if NextOperation(saga.progress).Finished? {
      JournalGrows(d, d', d'.log[|d.log|]);
    }
  }

  /** Saves that record no answer and no command. */
  lemma SaveJournals(d: Slice, saga: Row, row: Row, event: EventKind, direction: Direction, step: SagaStep)
    requires JournalOk(d) && !RecordsAnswer(event) && !IsDispatch(event)
    requires row.reason.Some? <==> event == ManualInterventionRequired
    ensures JournalOk(Save(d, saga, row, event, None, direction, step))
  {
    hide JournalOk;
    var d' := Save(d, saga, row, event, None, direction, step);
    JournalGrows(d, d', d'.log[|d.log|]);
  }

  lemma VerdictReads(saga: Row, result: Result, step: SagaStep)
    requires Coherent(saga.progress) && NextOperation(saga.progress) == Next(result.operation, step)
    ensures IsForward(saga.progress.operation)
    ensures saga.progress.status != Compensating ==> result.operation == saga.progress.operation
    ensures
      var v := Judge(saga, result, step);
      && RecordsAnswer(v.event) && Reads(v.event, result.outcome) && v.step == WorksOn(result.operation)
      && (v.direction == ForwardDirection <==> IsForward(result.operation))
      && v.row.pending.None? && v.row.reason.None?
  {
    CoherentCursor(saga.progress);
    CursorSteps(saga.progress);
  }

  /** The answered command's own entry in the log. */
  lemma JudgedJournals(d: Slice, v: Verdict, env: ResultEnvelope)
    requires JournalOk(d) && d.row.pending == Some(env.causationId) && Correlated(d, env)
    requires env.messageId in d.inbox && d.inbox[env.messageId] == env
    requires RecordsAnswer(v.event) && Reads(v.event, env.result.outcome) && v.step == WorksOn(env.result.operation)
    requires v.direction == ForwardDirection <==> IsForward(env.result.operation)
    requires v.row.pending.None? && v.row.reason.None?
    ensures JournalOk(Judged(d, v, env.result))
  {
    hide JournalOk;
    var u := Judged(d, v, env.result);
    JournalGrows(d, u, u.log[|d.log|]);
  }

  lemma ResolveJournals(cfg: Config, d: Slice, v: Verdict, env: ResultEnvelope, now: nat, mid: Uuid)
    requires JournalOk(Judged(d, v, env.result)) && mid !in d.outbox && v.row.reason.None?
    ensures JournalOk(Settle(d, Resolve(cfg, d, v, env, now, mid))) || Resolve(cfg, d, v, env, now, mid).Aborted?
  {
    hide JournalOk, Dispatch, NextOperation;
    var u := Judged(d, v, env.result);
    if Terminal(u.row.progress.status) {
    } else if v.retry && u.row.brokerAttempts >= 3 {
      var f := Intervene(u, u.row, CommandRetriesExhausted);
      SaveJournals(u, u.row, u.row.(reason := Some(CommandRetriesExhausted), lease := None),
                   ManualInterventionRequired, ForwardDirection, u.row.progress.step);
      JournalStays(f, Enqueue(f, env.messageId, DeadLetter(env), now));
    } else {
      DispatchJournals(cfg, u, u.row, RetryAt(cfg, v, now), mid);
    }
  }

  lemma ReceiveJournals(cfg: Config, d: Slice, env: ResultEnvelope, now: nat, mid: Uuid)
    requires Ok(d) && mid !in d.outbox && JournalOk(d)
    ensures JournalOk(Settle(d, Receive(cfg, d, env, now, mid)))
  {
    if Awaited(d, env) {
      ReceiveShape(cfg, d, env, now, mid);
      hide Ok, Judge, Resolve, Receive, NextOperation, JournalOk, Backed;
      var r := Remembered(d, env);
      var v := Judge(d.row, env.result, NextOperation(d.row.progress).step);
      VerdictReads(d.row, env.result, NextOperation(d.row.progress).step);
      JournalStays(d, r);
      JudgedJournals(r, v, env);
      ResolveJournals(cfg, r, v, env, now, mid);
    } else {
      hide Ok, Judge, Resolve, NextOperation, Correlated, JournalOk;
      if env.messageId !in d.inbox { JournalStays(d, Remembered(d, env)); }
    }
  }

  lemma ConfirmJournals(cfg: Config, d: Slice, now: nat, mid: Uuid)
    requires Ok(d) && mid !in d.outbox && JournalOk(d)
    ensures JournalOk(Settle(d, ConfirmPayment(cfg, d, now, mid)))
  {
    var saga := d.row;
    if saga.progress.status == PendingPayment {
      assert !Flagged(d);
      hide Ok, Dispatch, JournalOk, NextOperation;
      var row := saga.(progress := saga.progress.(status := InProgress), nextAttemptAt := now);
      SaveJournals(d, saga, row, PaymentConfirmed, ForwardDirection, saga.progress.step);
      var confirmed := Save(d, saga, row, PaymentConfirmed, None, ForwardDirection, saga.progress.step);
      DispatchJournals(cfg, confirmed, confirmed.row, now, mid);
    }
  }

  lemma ResumeJournals(cfg: Config, d: Slice, now: nat, mid: Uuid)
    requires Ok(d) && mid !in d.outbox && JournalOk(d)
    ensures JournalOk(Settle(d, Resume(cfg, d, now, mid)))
  {
    CoherentCursor(d.row.progress);
    hide FaithfulLog, CommandsOk, RelayOk, BudgetOk, Dispatch, JournalOk;
    DispatchJournals(cfg, d, d.row.(brokerAttempts := 0, recoveryAttempts := 0, reason := None), now, mid);
  }

  lemma RecoverJournals(cfg: Config, d: Slice, token: Uuid, now: nat, mid: Uuid)
    requires Ok(d) && mid !in d.outbox && JournalOk(d)
    ensures JournalOk(Settle(d, Recover(cfg, d, token, now, mid)))
  {
    hide Ok, Dispatch, JournalOk, NextOperation, AwaitingDelivery, ResponseDeadline, Save;
    var saga := d.row;
    if HoldsLease(saga, token, now) {
      forall row: Row, event | event in {DeliveryWait, RecoveryResumed, ManualInterventionRequired}
          && (row.reason.Some? <==> event == ManualInterventionRequired)
        ensures JournalOk(Save(d, saga, row, event, None, ForwardDirection, saga.progress.step))
      {
        SaveJournals(d, saga, row, event, ForwardDirection, saga.progress.step);
      }
      RecoverShape(cfg, d, token, now, mid);
      var row := saga.(pending := None, recoveryAttempts := saga.recoveryAttempts + 1, lease := None);
      var recovered := Save(d, saga, row, RecoveryResumed, None, ForwardDirection, saga.progress.step);
      SavedRow(d, saga, row, RecoveryResumed, saga.progress.step);
      DispatchJournals(cfg, recovered, recovered.row, now, mid);
    }
  }

  lemma SavedRow(d: Slice, saga: Row, row: Row, event: EventKind, step: SagaStep)
    ensures
      var d' := Save(d, saga, row, event, None, ForwardDirection, step);
      d'.row == row.(version := saga.version + 1) && d'.outbox == d.outbox
  {
  }

  lemma PerformJournals(cfg: Config, d: Slice, a: Action, now: nat)
    requires Ok(d) && Enabled(d, a) && JournalOk(d)
    ensures JournalOk(Perform(cfg, d, a, now))
  {
    hide Ok, JournalOk, Receive, Resume, ConfirmPayment, Recover;
    match a {
      case DoConfirm(mid) => ConfirmJournals(cfg, d, now, mid);
      case DoResume(mid) => ResumeJournals(cfg, d, now, mid);
      case DoReceive(env, mid) => ReceiveJournals(cfg, d, env, now, mid);
      case DoClaim(token, leaseMs) =>
        if Claimable(d.row, now) {
          SaveJournals(d, d.row, d.row.(lease := Some(Lease(token, now + leaseMs))), RecoveryClaimed,
                       ForwardDirection, d.row.progress.step);
        }
      case DoRecover(token, mid) => RecoverJournals(cfg, d, token, now, mid);
      case DoHandOver(m) => JournalStays(d, Perform(cfg, d, a, now));
      case DoMarkPublished(m) => JournalStays(d, Perform(cfg, d, a, now));
    }
  }

  lemma AcceptedJournal(cfg: Config, id: Uuid, orderId: Uuid, payload: OrderPayload, now: nat, mid: Uuid)
    ensures JournalOk(Accept(cfg, id, orderId, payload, now, mid))
  {
    var status := if payload.paymentMethod == BankTransfer then PendingPayment else InProgress;
    var row := Row(id, orderId, payload, Progress(status, ChargePayment, PaymentStep, [], [], false),
                   None, None, now, 0, 0, 0, None, None, None, 1);
    var d := Slice(row, [Entry(1, None, status, PaymentStep, ForwardDirection, OrderAccepted, None, None, None)],
                   map[], map[]);
    if status == InProgress {
      DispatchJournals(cfg, d, row, now, mid);
    }
  }

  /** Over every run of an accepted order, every recorded command and every recorded answer is real. */
  lemma {:induction false} JournalsAreBacked(cfg: Config, r: Run, i: nat)
    requires IsRun(cfg, r) && JournalOk(r.slices[0]) && i < |r.slices|
    ensures JournalOk(r.slices[i])
  {
    hide Ok, Perform, Enabled, JournalOk;
    if i > 0 {
      JournalsAreBacked(cfg, r, i - 1);
      StepOf(cfg, r, i - 1);
      PerformJournals(cfg, r.slices[i - 1], r.actions[i - 1], r.times[i - 1]);
    }
  }
}
