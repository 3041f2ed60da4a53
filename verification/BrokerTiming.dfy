/** When things happen: a retry backs off before it goes out, a new step goes out at once, and no
    command is sent again before its time is up
    (services/order-orchestrator/src/saga/brokerOrders.ts:207-239 and 296-334). */
module BrokerTiming {
  import opened Contracts
  import opened StateMachine
  import opened Broker
  import opened BrokerInvariant
  import opened BrokerTheorems
  import opened BrokerProgress

  // ---------- What is due when ----------

  /** The saga waits for this new message, which becomes available at this time, and for its answer
      one time-out longer. */
  predicate SentFor(cfg: Config, d': Slice, mid: Uuid, availableAt: nat) {
    && d'.row.pending == Some(mid) && mid in d'.outbox
    && d'.outbox[mid].body.CommandBody? && d'.outbox[mid].availableAt == availableAt
    && !d'.outbox[mid].handed && d'.outbox[mid].publishedAt.None?
    && d'.row.responseDeadlineAt == Some(availableAt + cfg.commandTimeout)
    && d'.row.nextAttemptAt == availableAt + cfg.commandTimeout
    && d'.row.lease.None? && !Flagged(d')
  }

  /** That message is all that is added to the outbox. */
  predicate Adds(d: Slice, d': Slice, mid: Uuid) {
    mid !in d.outbox && mid in d'.outbox && d'.outbox == d.outbox[mid := d'.outbox[mid]]
  }

  predicate Sends(cfg: Config, d: Slice, d': Slice, mid: Uuid, availableAt: nat) {
    SentFor(cfg, d', mid, availableAt) && Adds(d, d', mid)
  }

  /** The answer is a success, or the refusal that ends the operation it answers: the charge was
      declined, the stock was short, the shipment was rejected. */
  predicate Decides(result: Result) {
    match result.outcome
    case Succeeded(_) => true
    case Failed(code) =>
      || (result.operation == ChargePayment && code == PaymentDeclined)
      || (result.operation == ReserveInventory && code == InsufficientStock)
      || (result.operation == CreateShipment && code == ShippingRejected)
    case Unknown => false
  }

  lemma DispatchSends(cfg: Config, d: Slice, saga: Row, availableAt: nat, mid: Uuid)
    requires CopyOf(saga, d.row) && mid !in d.outbox && NextOperation(saga.progress).Next?
    ensures Dispatch(cfg, d, saga, availableAt, mid).Committed?
    ensures
      var d' := Dispatch(cfg, d, saga, availableAt, mid).slice;
      && Sends(cfg, d, d', mid, availableAt) && d'.row.progress == d.row.progress
      && d'.inbox == d.inbox && d'.row.lastResult == d.row.lastResult
      && d'.row.brokerAttempts == saga.brokerAttempts + 1 && d'.row.recoveryAttempts == saga.recoveryAttempts
  {
    hide NextOperation, Dispatch;
    DispatchShape(cfg, d, saga, availableAt, mid);
  }

  lemma DecidesVerdict(saga: Row, result: Result, step: SagaStep)
    requires Coherent(saga.progress) && NextOperation(saga.progress) == Next(result.operation, step)
    ensures IsForward(saga.progress.operation)
    ensures saga.progress.status != Compensating ==> result.operation == saga.progress.operation
    ensures Judge(saga, result, step).retry <==> !Decides(result)
    ensures Judge(saga, result, step).row.lastResult == Some(result)
    ensures Judge(saga, result, step).retry ==>
      var row := Judge(saga, result, step).row;
      row.progress == saga.progress && row.brokerAttempts == saga.brokerAttempts
  {
    CoherentCursor(saga.progress);
  }

  /** What an awaited answer does next: after a success or a rejection that leaves something to do,
      the next command is available at once; after anything else the same operation is asked again
      after a delay for every attempt made, or, when three are spent, the saga is left to an operator
      and the answer kept as a dead letter. */
  predicate AnswerTimes(cfg: Config, d: Slice, env: ResultEnvelope, d': Slice, now: nat, mid: Uuid) {
    && d'.inbox == d.inbox[env.messageId := env] && d'.row.lastResult == Some(env.result)
    && if Decides(env.result) then
         if Active(d'.row.progress.status) then Sends(cfg, d, d', mid, now) && d'.row.brokerAttempts == 1
         else d'.outbox == d.outbox && d'.row.lease.None?
       else
         && d'.row.progress == d.row.progress
         && if d.row.brokerAttempts < 3 then
              && Sends(cfg, d, d', mid, now + cfg.retryDelay * d.row.brokerAttempts)
              && d'.row.brokerAttempts == d.row.brokerAttempts + 1
            else
              && d'.row.reason == Some(CommandRetriesExhausted) && d'.row.pending.None? && d'.row.lease.None?
              && d'.outbox == if env.messageId in d.outbox then d.outbox
                              else d.outbox[env.messageId := Outgoing(DeadLetter(env), now, false, None)]
  }

  /** A saga that goes on after an answer sends its next command. */
  lemma ResolveSends(cfg: Config, d: Slice, v: Verdict, env: ResultEnvelope, now: nat, mid: Uuid)
    requires mid !in d.outbox && NextOperation(v.row.progress).Next? && v.row.reason.None?
    requires !Terminal(v.row.progress.status) && !(v.retry && v.row.brokerAttempts >= 3)
    ensures Resolve(cfg, d, v, env, now, mid).Committed?
    ensures
      var d' := Resolve(cfg, d, v, env, now, mid).slice;
      && Sends(cfg, d, d', mid, if v.retry then now + cfg.retryDelay * v.row.brokerAttempts else now)
      && d'.row.progress == v.row.progress && d'.row.brokerAttempts == v.row.brokerAttempts + 1
      && d'.inbox == d.inbox && d'.row.lastResult == v.row.lastResult
  {
    hide NextOperation, Dispatch, SentFor;
    var u := Judged(d, v, env.result);
    DispatchSends(cfg, u, u.row, if v.retry then now + cfg.retryDelay * v.row.brokerAttempts else now, mid);
  }

  /** A saga whose attempts are spent is flagged, and the answer is kept. */
  lemma ResolveFlags(cfg: Config, d: Slice, v: Verdict, env: ResultEnvelope, now: nat, mid: Uuid)
    requires v.row.pending.None?
    requires !Terminal(v.row.progress.status) && v.retry && v.row.brokerAttempts >= 3
    ensures Resolve(cfg, d, v, env, now, mid).Committed?
    ensures
      var d' := Resolve(cfg, d, v, env, now, mid).slice;
      && d'.row.reason == Some(CommandRetriesExhausted) && d'.row.pending.None? && d'.row.lease.None?
      && d'.row.progress == v.row.progress && d'.inbox == d.inbox && d'.row.lastResult == v.row.lastResult
      && d'.outbox == if env.messageId in d.outbox then d.outbox
                      else d.outbox[env.messageId := Outgoing(DeadLetter(env), now, false, None)]
  {
    hide NextOperation, Dispatch;
  }

  /** A saga with nothing left to do is over. */
  lemma ResolveEnds(cfg: Config, d: Slice, v: Verdict, env: ResultEnvelope, now: nat, mid: Uuid)
    requires v.row.lease.None?
    requires Terminal(v.row.progress.status) || (!v.retry && NextOperation(v.row.progress).Finished?)
    ensures Resolve(cfg, d, v, env, now, mid).Committed?
    ensures
      var d' := Resolve(cfg, d, v, env, now, mid).slice;
      && !Active(d'.row.progress.status) && d'.outbox == d.outbox && d'.row.lease.None?
      && d'.inbox == d.inbox && d'.row.lastResult == v.row.lastResult
  {
    if !Terminal(v.row.progress.status) {
      GiveUpShape(cfg, Judged(d, v, env.result), now, mid);
    }
  }

  lemma ResolveTimes(cfg: Config, d: Slice, v: Verdict, env: ResultEnvelope, now: nat, mid: Uuid)
    requires Sound(d.row, v) && NextOperation(d.row.progress).Next? && Active(d.row.progress.status)
    requires mid !in d.outbox && d.inbox == d.inbox[env.messageId := env]
    requires (v.retry <==> !Decides(env.result)) && v.row.lastResult == Some(env.result)
    ensures Resolve(cfg, d, v, env, now, mid).Committed?
    ensures AnswerTimes(cfg, d, env, Resolve(cfg, d, v, env, now, mid).slice, now, mid)
  {
    hide Resolve, Dispatch, Sends, Decides, AbstractStep;
    CoherentCursor(v.row.progress);
    hide NextOperation, Coherent;
    if Terminal(v.row.progress.status) {
      ResolveEnds(cfg, d, v, env, now, mid);
    } else if v.retry && v.row.brokerAttempts >= 3 {
      ResolveFlags(cfg, d, v, env, now, mid);
    } else if NextOperation(v.row.progress).Next? {
      ResolveSends(cfg, d, v, env, now, mid);
    } else {
      ResolveEnds(cfg, d, v, env, now, mid);
    }
  }

  /** One answer: when the saga goes on, in terms of the answer and of the row as it was. */
  lemma ReceiveTimes(cfg: Config, d: Slice, env: ResultEnvelope, now: nat, mid: Uuid)
    requires Ok(d) && mid !in d.outbox && Awaited(d, env)
    ensures AnswerTimes(cfg, d, env, Perform(cfg, d, DoReceive(env, mid), now), now, mid)
  {
    hide Ok, Awaited, Judge, Resolve, Receive, NextOperation, Sound, Coherent, AnswerTimes, Decides;
    ReceiveShape(cfg, d, env, now, mid);
    var e, step := Remembered(d, env), NextOperation(d.row.progress).step;
    var v := Judge(d.row, env.result, step);
    JudgedTimes(cfg, d, env, v, step, now, mid);
    SameTimes(cfg, d, env, Resolve(cfg, e, v, env, now, mid).slice, now, mid);
  }

  lemma JudgedTimes(cfg: Config, d: Slice, env: ResultEnvelope, v: Verdict, step: SagaStep, now: nat, mid: Uuid)
    requires Coherent(d.row.progress) && NextOperation(d.row.progress) == Next(env.result.operation, step)
    requires Active(d.row.progress.status) && mid !in d.outbox
    requires IsForward(d.row.progress.operation)
    requires d.row.progress.status != Compensating ==> env.result.operation == d.row.progress.operation
    requires v == Judge(d.row, env.result, step)
    ensures Resolve(cfg, Remembered(d, env), v, env, now, mid).Committed?
    ensures
      var e := Remembered(d, env);
      AnswerTimes(cfg, e, env, Resolve(cfg, e, v, env, now, mid).slice, now, mid)
  {
    hide Judge, Resolve, NextOperation, Sound, Coherent, AnswerTimes, Decides;
    DecidesVerdict(d.row, env.result, step);
    JudgeIsSound(d.row, env.result, step);
    var e := Remembered(d, env);
    assert e.inbox == e.inbox[env.messageId := env];
    ResolveTimes(cfg, e, v, env, now, mid);
  }

  lemma SameTimes(cfg: Config, d: Slice, env: ResultEnvelope, d': Slice, now: nat, mid: Uuid)
    ensures AnswerTimes(cfg, Remembered(d, env), env, d', now, mid) <==> AnswerTimes(cfg, d, env, d', now, mid)
  {
    var e := Remembered(d, env);
    assert e.inbox == e.inbox[env.messageId := env];
  }

  /** Any other message is at most remembered. */
  lemma UnawaitedTimes(cfg: Config, d: Slice, env: ResultEnvelope, now: nat, mid: Uuid)
    requires Ok(d) && !Awaited(d, env)
    ensures Perform(cfg, d, DoReceive(env, mid), now) in {d, Remembered(d, env)}
  {
    hide Resolve, NextOperation, Judge, Ok, Correlated;
  }

  /** A confirmation starts the saga at once, and only a saga that waits for its payment. */
  lemma ConfirmTimes(cfg: Config, d: Slice, now: nat, mid: Uuid)
    requires Ok(d) && mid !in d.outbox
    ensures
      var d' := Perform(cfg, d, DoConfirm(mid), now);
      if d.row.progress.status == PendingPayment then
        Sends(cfg, d, d', mid, now) && d'.row.progress == d.row.progress.(status := InProgress)
      else d' == d
  {
    if d.row.progress.status == PendingPayment {
      var saga := d.row;
      var confirmed := Save(d, saga, saga.(progress := saga.progress.(status := InProgress), nextAttemptAt := now),
                            PaymentConfirmed, None, ForwardDirection, saga.progress.step);
      CoherentCursor(confirmed.row.progress);
      hide Dispatch, Ok, NextOperation, FaithfulLog, CommandsOk, RelayOk, BudgetOk;
      DispatchSends(cfg, confirmed, confirmed.row, now, mid);
    }
  }

  /** A resume restarts a flagged saga at once, with all its attempts, and changes no other. */
  lemma ResumeTimes(cfg: Config, d: Slice, now: nat, mid: Uuid)
    requires Ok(d) && mid !in d.outbox
    ensures
      var d' := Perform(cfg, d, DoResume(mid), now);
      if Flagged(d) then
        && Sends(cfg, d, d', mid, now) && d'.row.progress == d.row.progress
        && d'.row.brokerAttempts == 1 && d'.row.recoveryAttempts == 0
      else d' == d
  {
    ResumeRestartsTheStuckOperation(cfg, d, now, mid);
    if Flagged(d) {
      hide Dispatch, Ok, NextOperation;
      DispatchSends(cfg, d, d.row.(brokerAttempts := 0, recoveryAttempts := 0, reason := None), now, mid);
    }
  }

  // ---------- Recoveries ----------

  /** A claimed recovery sends the command again, or gives the saga up, once the command was
      published and its time is up. Before that it waits: it sends nothing, spends nothing, and sets
      the time of its next attempt by the publication, or by now when there was none. */
  predicate RecoveryTimes(cfg: Config, d: Slice, d': Slice, now: nat, mid: Uuid) {
    && d.row.pending.Some? && d.row.pending.value in d.outbox
    && var sent := d.outbox[d.row.pending.value];
       var overdue := sent.publishedAt.Some? && sent.publishedAt.value + cfg.commandTimeout <= now;
       if overdue && d.row.brokerAttempts < 3 then
         && Sends(cfg, d, d', mid, now) && d'.row.progress == d.row.progress
         && d'.outbox == d.outbox[mid := Outgoing(sent.body, now, false, None)]
         && d'.row.attempts == d.row.attempts + 1 && d'.row.brokerAttempts == d.row.brokerAttempts + 1
         && d'.row.recoveryAttempts == d.row.recoveryAttempts + 1
       else if overdue then
         d'.outbox == d.outbox && d'.row == d.row.(reason := Some(RecoveryRetriesExhausted), lease := None,
                                                   version := d.row.version + 1)
       else
         var next := (if sent.publishedAt.Some? then sent.publishedAt.value else now) + cfg.commandTimeout;
         d'.outbox == d.outbox && d'.row == d.row.(responseDeadlineAt := Some(next), nextAttemptAt := next,
                                                   lease := None, version := d.row.version + 1)
  }

  lemma RecoverTimes(cfg: Config, d: Slice, token: Uuid, now: nat, mid: Uuid)
    requires Ok(d) && HoldsLease(d.row, token, now) && mid !in d.outbox
    ensures RecoveryTimes(cfg, d, Perform(cfg, d, DoRecover(token, mid), now), now, mid)
  {
    RecoverShape(cfg, d, token, now, mid);
    PendingIsSent(d);
    hide Ok, Recover, Dispatch, NextOperation, SentFor;
    var saga := d.row;
    var sent := d.outbox[saga.pending.value];
    if sent.publishedAt.Some? && sent.publishedAt.value + cfg.commandTimeout <= now && saga.brokerAttempts < 3 {
      var recovered := Save(d, saga, saga.(pending := None, recoveryAttempts := saga.recoveryAttempts + 1,
                                           lease := None),
                            RecoveryResumed, None, ForwardDirection, saga.progress.step);
      DispatchSends(cfg, recovered, recovered.row, now, mid);
      DispatchShape(cfg, recovered, recovered.row, now, mid);
    }
  }

  /** A recovery without its lease changes nothing. */
  lemma NoLeaseNoRecovery(cfg: Config, d: Slice, token: Uuid, now: nat, mid: Uuid)
    requires d.row.lease.None? || d.row.lease.value.owner != token || d.row.lease.value.expiresAt <= now
    ensures Perform(cfg, d, DoRecover(token, mid), now) == d
  {
  }
}
