/** How one saga's progress depends on the answers it received, and what its transactions leave
    alone. */
module BrokerLinks {
  import opened Contracts
  import opened StateMachine
  import opened Broker
  import opened BrokerInvariant

  // ---------- Identity and outbox ----------

  /** Messages once sent keep their content; a message handed to the broker stays handed. */
  predicate OutboxGrows(d: Slice, d': Slice) {
    forall m | m in d.outbox ::
      m in d'.outbox && d'.outbox[m].body == d.outbox[m].body && (d.outbox[m].handed ==> d'.outbox[m].handed)
  }

  /** The saga keeps its ids, its order and its history, and at most one command is added to the
      outbox. */
  predicate SameSaga(d: Slice, d': Slice, mid: Option<Uuid>) {
    && d'.row.id == d.row.id && d'.row.orderId == d.row.orderId && d'.row.payload == d.row.payload
    && d.log <= d'.log && OutboxGrows(d, d')
    && (forall m | m in d'.outbox && m !in d.outbox && d'.outbox[m].body.CommandBody? :: mid == Some(m))
  }

  /** The id an action would give to a new command. */
  function NewId(a: Action): Option<Uuid> {
    match a
    case DoConfirm(mid) => Some(mid)
    case DoResume(mid) => Some(mid)
    case DoReceive(_, mid) => Some(mid)
    case DoRecover(_, mid) => Some(mid)
    case _ => None
  }

  lemma DispatchFrame(cfg: Config, d: Slice, saga: Row, at: nat, mid: Uuid)
    ensures SameSaga(d, Settle(d, Dispatch(cfg, d, saga, at, mid)), Some(mid))
  {
    hide NextOperation;
  }

  lemma ResolveFrame(cfg: Config, d: Slice, v: Verdict, env: ResultEnvelope, now: nat, mid: Uuid)
    requires v.row.id == d.row.id && v.row.orderId == d.row.orderId && v.row.payload == d.row.payload
    ensures SameSaga(d, Settle(d, Resolve(cfg, d, v, env, now, mid)), Some(mid))
  {
    hide Dispatch;
    var u := Judged(d, v, env.result);
    DispatchFrame(cfg, u, u.row, RetryAt(cfg, v, now), mid);
  }

  lemma AwaitedFrame(cfg: Config, d: Slice, env: ResultEnvelope, now: nat, mid: Uuid)
    requires Ok(d) && Awaited(d, env)
    ensures SameSaga(d, Settle(d, Receive(cfg, d, env, now, mid)), Some(mid))
  {
    hide Receive, Resolve, NextOperation, Ok, Correlated;
    ReceiveShape(cfg, d, env, now, mid);
    ResolveFrame(cfg, Remembered(d, env), Judge(d.row, env.result, NextOperation(d.row.progress).step), env, now, mid);
  }

  lemma UnawaitedFrame(cfg: Config, d: Slice, env: ResultEnvelope, now: nat, mid: Uuid)
    requires Ok(d) && !Awaited(d, env)
    ensures SameSaga(d, Settle(d, Receive(cfg, d, env, now, mid)), Some(mid))
  {
    hide Resolve, NextOperation, Judge, Ok, Correlated;
  }

  lemma RecoverFrame(cfg: Config, d: Slice, token: Uuid, now: nat, mid: Uuid)
    ensures SameSaga(d, Settle(d, Recover(cfg, d, token, now, mid)), Some(mid))
  {
    hide Dispatch, NextOperation;
    var recovered := Save(d, d.row, d.row.(pending := None, recoveryAttempts := d.row.recoveryAttempts + 1,
                                           lease := None),
                          RecoveryResumed, None, ForwardDirection, d.row.progress.step);
    DispatchFrame(cfg, recovered, recovered.row, now, mid);
  }

  lemma PerformFrame(cfg: Config, d: Slice, a: Action, now: nat)
    requires Ok(d)
    ensures SameSaga(d, Perform(cfg, d, a, now), NewId(a))
  {
    hide Ok, Receive, Recover, Dispatch, Awaited;
    match a {
      case DoConfirm(mid) =>
        var confirmed := Save(d, d.row, d.row.(progress := d.row.progress.(status := InProgress), nextAttemptAt := now),
                              PaymentConfirmed, None, ForwardDirection, d.row.progress.step);
        DispatchFrame(cfg, confirmed, confirmed.row, now, mid);
      case DoResume(mid) =>
        DispatchFrame(cfg, d, d.row.(brokerAttempts := 0, recoveryAttempts := 0, reason := None), now, mid);
      case DoReceive(env, mid) => if Awaited(d, env) { AwaitedFrame(cfg, d, env, now, mid); }
        else { UnawaitedFrame(cfg, d, env, now, mid); }
      case DoRecover(token, mid) => RecoverFrame(cfg, d, token, now, mid);
      case _ =>
    }
  }

  /** Results are remembered by `receive` only. */
  predicate InboxAfter(d: Slice, d': Slice, a: Action) {
    d'.inbox == d.inbox || (a.DoReceive? && d'.inbox == d.inbox[a.envelope.messageId := a.envelope])
  }

  lemma DispatchKeepsInbox(cfg: Config, d: Slice, saga: Row, at: nat, mid: Uuid)
    ensures Settle(d, Dispatch(cfg, d, saga, at, mid)).inbox == d.inbox
  {
    hide NextOperation;
  }

  lemma ReceiveInbox(cfg: Config, d: Slice, env: ResultEnvelope, now: nat, mid: Uuid)
    requires Ok(d)
    ensures InboxAfter(d, Settle(d, Receive(cfg, d, env, now, mid)), DoReceive(env, mid))
  {
    if Awaited(d, env) {
      ReceiveShape(cfg, d, env, now, mid);
      hide Receive, Judge, NextOperation, Ok, Dispatch, Correlated;
      var v := Judge(d.row, env.result, NextOperation(d.row.progress).step);
      var u := Judged(Remembered(d, env), v, env.result);
      DispatchKeepsInbox(cfg, u, u.row, RetryAt(cfg, v, now), mid);
    } else {
      hide Resolve, Judge, NextOperation, Ok, Correlated;
    }
  }

  lemma InboxGrows(cfg: Config, d: Slice, a: Action, now: nat)
    requires Ok(d)
    ensures InboxAfter(d, Perform(cfg, d, a, now), a)
  {
    hide Ok, Receive, Dispatch, NextOperation, HoldsLease, AwaitingDelivery, ResponseDeadline;
    match a {
      case DoConfirm(mid) =>
        var confirmed := Save(d, d.row, d.row.(progress := d.row.progress.(status := InProgress), nextAttemptAt := now),
                              PaymentConfirmed, None, ForwardDirection, d.row.progress.step);
        DispatchKeepsInbox(cfg, confirmed, confirmed.row, now, mid);
      case DoResume(mid) =>
        DispatchKeepsInbox(cfg, d, d.row.(brokerAttempts := 0, recoveryAttempts := 0, reason := None), now, mid);
      case DoReceive(env, mid) => ReceiveInbox(cfg, d, env, now, mid);
      case DoRecover(token, mid) =>
        var recovered := Save(d, d.row, d.row.(pending := None, recoveryAttempts := d.row.recoveryAttempts + 1,
                                               lease := None),
                              RecoveryResumed, None, ForwardDirection, d.row.progress.step);
        DispatchKeepsInbox(cfg, recovered, recovered.row, now, mid);
      case _ =>
    }
  }

  // ---------- Progress is earned ----------

  /** The saga has come this far because these operations answered success, and turned back
      because this one was rejected. */
  predicate Earned(p: Progress, done: set<Operation>, rejected: set<Operation>)
    requires IsForward(p.operation)
  {
    && (forall op | IsForward(op) && ForwardIndex(op) < ForwardIndex(p.operation) :: op in done)
    && (p.status == CompletedOrder ==> FinalizeInventory in done)
    && (p.status in {Compensating, FailedOrder} ==> p.operation in rejected)
    && (forall step | step in p.compensated :: ReverseOf(step) in done)
  }

  /** What an envelope claims is among the answers. */
  predicate Attested(result: Result, done: set<Operation>, rejected: set<Operation>) {
    && (result.outcome.Succeeded? ==> result.operation in done)
    && (result.outcome.Failed? ==> IsRejection(result.operation, result.outcome.code) && result.operation in rejected)
  }

  /** A transition that needs no answer: starting, giving up, or none. */
  predicate Quiet(p: Progress, q: Progress) {
    || q == p
    || (p.status == PendingPayment && q == p.(status := InProgress))
    || (p.status == Compensating && q == p.(status := FailedOrder))
  }

  lemma QuietKeepsEarned(p: Progress, q: Progress, done: set<Operation>, rejected: set<Operation>)
    requires IsForward(p.operation) && Earned(p, done, rejected) && Quiet(p, q)
    ensures IsForward(q.operation) && Earned(q, done, rejected)
  {
  }

  lemma VerdictIsEarned(saga: Row, result: Result, step: SagaStep, done: set<Operation>, rejected: set<Operation>)
    requires Coherent(saga.progress) && NextOperation(saga.progress) == Next(result.operation, step)
    requires saga.progress.status != Compensating ==> result.operation == saga.progress.operation
    requires Earned(saga.progress, done, rejected) && Attested(result, done, rejected)
    ensures var q := Judge(saga, result, step).row.progress; IsForward(q.operation) && Earned(q, done, rejected)
  {
    CoherentCursor(saga.progress);
    var q := Judge(saga, result, step).row.progress;
    if saga.progress.status == Compensating && result.outcome.Succeeded? {
      assert q.compensated == saga.progress.compensated + [step];
      assert ReverseOf(step) == result.operation;
    }
  }

  lemma DispatchIsQuiet(cfg: Config, d: Slice, saga: Row, at: nat, mid: Uuid)
    requires saga.progress == d.row.progress
    ensures Quiet(d.row.progress, Settle(d, Dispatch(cfg, d, saga, at, mid)).row.progress)
  {
  }

  lemma ResolveIsQuiet(cfg: Config, d: Slice, v: Verdict, env: ResultEnvelope, now: nat, mid: Uuid)
    requires Resolve(cfg, d, v, env, now, mid).Committed?
    ensures Quiet(v.row.progress, Resolve(cfg, d, v, env, now, mid).slice.row.progress)
  {
    hide Dispatch;
    var u := Judged(d, v, env.result);
    DispatchIsQuiet(cfg, u, u.row, RetryAt(cfg, v, now), mid);
  }

  lemma ReceiveIsEarned(cfg: Config, d: Slice, env: ResultEnvelope, now: nat, mid: Uuid, done: set<Operation>,
                        rejected: set<Operation>)
    requires Ok(d) && Enabled(d, DoReceive(env, mid)) && Awaited(d, env)
    requires Earned(d.row.progress, done, rejected) && Attested(env.result, done, rejected)
    ensures var q := Settle(d, Receive(cfg, d, env, now, mid)).row.progress;
      IsForward(q.operation) && Earned(q, done, rejected)
  {
    ReceiveShape(cfg, d, env, now, mid);
    var step := NextOperation(d.row.progress).step;
    var v := Judge(d.row, env.result, step);
    hide Earned, Attested, Receive, Judge, NextOperation, Resolve, Enabled;
    VerdictIsEarned(d.row, env.result, step, done, rejected);
    JudgeIsSound(d.row, env.result, step);
    var r := Remembered(d, env);
    if Resolve(cfg, r, v, env, now, mid).Committed? {
      ResolveIsQuiet(cfg, r, v, env, now, mid);
      QuietKeepsEarned(v.row.progress, Resolve(cfg, r, v, env, now, mid).slice.row.progress, done, rejected);
    }
  }

  lemma ConfirmIsQuiet(cfg: Config, d: Slice, now: nat, mid: Uuid)
    ensures Quiet(d.row.progress, Settle(d, ConfirmPayment(cfg, d, now, mid)).row.progress)
  {
    hide Dispatch;
    var confirmed := Save(d, d.row, d.row.(progress := d.row.progress.(status := InProgress), nextAttemptAt := now),
                          PaymentConfirmed, None, ForwardDirection, d.row.progress.step);
    DispatchIsQuiet(cfg, confirmed, confirmed.row, now, mid);
  }

  lemma ResumeIsQuiet(cfg: Config, d: Slice, now: nat, mid: Uuid)
    ensures Quiet(d.row.progress, Settle(d, Resume(cfg, d, now, mid)).row.progress)
  {
    hide Dispatch;
    DispatchIsQuiet(cfg, d, d.row.(brokerAttempts := 0, recoveryAttempts := 0, reason := None), now, mid);
  }

  lemma UnawaitedIsQuiet(cfg: Config, d: Slice, env: ResultEnvelope, now: nat, mid: Uuid)
    requires !Awaited(d, env)
    ensures Quiet(d.row.progress, Settle(d, Receive(cfg, d, env, now, mid)).row.progress)
  {
    hide Resolve, Judge, NextOperation, Correlated;
  }

  lemma RecoverIsQuiet(cfg: Config, d: Slice, token: Uuid, now: nat, mid: Uuid)
    ensures Quiet(d.row.progress, Settle(d, Recover(cfg, d, token, now, mid)).row.progress)
  {
    hide Dispatch, NextOperation, HoldsLease, AwaitingDelivery, ResponseDeadline;
    var recovered := Save(d, d.row, d.row.(pending := None, recoveryAttempts := d.row.recoveryAttempts + 1,
                                           lease := None),
                          RecoveryResumed, None, ForwardDirection, d.row.progress.step);
    DispatchIsQuiet(cfg, recovered, recovered.row, now, mid);
  }

  lemma OthersAreQuiet(cfg: Config, d: Slice, a: Action, now: nat)
    requires !(a.DoReceive? && Awaited(d, a.envelope))
    ensures Quiet(d.row.progress, Perform(cfg, d, a, now).row.progress)
  {
    hide ConfirmPayment, Resume, Receive, Recover, Awaited;
    match a {
      case DoConfirm(mid) => ConfirmIsQuiet(cfg, d, now, mid);
      case DoResume(mid) => ResumeIsQuiet(cfg, d, now, mid);
      case DoReceive(env, mid) => UnawaitedIsQuiet(cfg, d, env, now, mid);
      case DoRecover(token, mid) => RecoverIsQuiet(cfg, d, token, now, mid);
      case _ =>
    }
  }

  /** Whatever a transaction does, the progress it leaves is earned, provided the results it
      consumes are true. */
  lemma PerformIsEarned(cfg: Config, d: Slice, a: Action, now: nat, done: set<Operation>, rejected: set<Operation>)
    requires Ok(d) && Enabled(d, a) && Earned(d.row.progress, done, rejected)
    requires a.DoReceive? && Awaited(d, a.envelope) ==> Attested(a.envelope.result, done, rejected)
    ensures var q := Perform(cfg, d, a, now).row.progress; IsForward(q.operation) && Earned(q, done, rejected)
  {
    hide Earned, Attested, Awaited, Quiet, Receive, Recover, Resume;
    hide ConfirmPayment, Claim, HandOver, MarkPublished, Enabled;
    if a.DoReceive? && Awaited(d, a.envelope) {
      ReceiveIsEarned(cfg, d, a.envelope, now, a.mid, done, rejected);
    } else {
      OthersAreQuiet(cfg, d, a, now);
      QuietKeepsEarned(d.row.progress, Perform(cfg, d, a, now).row.progress, done, rejected);
    }
  }
}
