/** Retries are consumed only by uncertain and by missing answers, in every run of the system. */
module SystemRetries {
  import opened Contracts
  import opened StateMachine
  import opened Broker
  import opened BrokerInvariant
  import opened BrokerEnds
  import opened System
  import opened SystemInvariant
  import opened SystemOrders
  import opened SystemRuns
  import opened SystemTheorems
  import BP = BrokerProgress
  import Inventory
  import II = InventoryInvariant

  /** A further attempt is counted, a command is sent again, or the saga is flagged. */
  predicate Retried(d: Slice, d': Slice) {
    || (1 <= d.row.brokerAttempts < d'.row.brokerAttempts)
    || (d'.row.attempts > d.row.attempts && d'.row.progress == d.row.progress)
    || (Flagged(d') && !Flagged(d))
  }

  /** The answer awaited was neither a success nor the rejection of the operation in hand. */
  predicate Undecided(d: Slice, env: ResultEnvelope) {
    && !env.result.outcome.Succeeded?
    && (d.row.progress.status == Compensating || !env.result.outcome.Failed?
        || !IsRejection(env.result.operation, env.result.outcome.code))
  }

  /** A worker that owns the saga finds its command published and past its deadline. */
  predicate Overdue(cfg: Config, d: Slice, token: Uuid, now: nat) {
    && HoldsLease(d.row, token, now)
    && d.row.pending.Some? && d.row.pending.value in d.outbox
    && !AwaitingDelivery(cfg, d.outbox[d.row.pending.value], now)
  }

  // ---------- One order ----------

  lemma RetryVerdict(saga: Row, result: Result, step: SagaStep)
    requires Coherent(saga.progress) && NextOperation(saga.progress) == Next(result.operation, step)
    ensures IsForward(saga.progress.operation)
    ensures saga.progress.status != Compensating ==> result.operation == saga.progress.operation
    ensures
      Judge(saga, result, step).retry <==>
        !result.outcome.Succeeded?
        && (saga.progress.status == Compensating || !result.outcome.Failed?
            || !IsRejection(result.operation, result.outcome.code))
    ensures !Judge(saga, result, step).retry ==> Judge(saga, result, step).row.progress != saga.progress
  {
    CoherentCursor(saga.progress);
  }

  lemma FlaggedIsSpent(d: Slice)
    requires Ok(d) && Flagged(d)
    ensures d.row.brokerAttempts == 3 && Active(d.row.progress.status)
  {
  }

  lemma ResolveRetries(cfg: Config, d: Slice, v: Verdict, env: ResultEnvelope, now: nat, mid: Uuid)
    requires Answered(d) && Sound(d.row, v) && mid !in d.outbox
    requires !v.retry ==> v.row.progress != d.row.progress
    ensures
      var tx := Resolve(cfg, d, v, env, now, mid);
      tx.Committed? && (Retried(d, tx.slice) <==> v.retry && !Flagged(d))
  {
    CoherentCursor(v.row.progress);
    if Flagged(d) { FlaggedIsSpent(d); }
    var u := Judged(d, v, env.result);
    if v.retry {
      hide Ok, NextOperation, Dispatch, AbstractStep, Coherent;
      if v.row.brokerAttempts < 3 {
        DispatchShape(cfg, u, u.row, RetryAt(cfg, v, now), mid);
      }
    } else {
      ResolveMoves(cfg, d, v, env, now, mid);
    }
  }

  lemma ReceiveRetries(cfg: Config, d: Slice, env: ResultEnvelope, now: nat, mid: Uuid)
    requires Ok(d) && Enabled(d, DoReceive(env, mid))
    ensures Retried(d, Perform(cfg, d, DoReceive(env, mid), now)) <==>
      Awaited(d, env) && Undecided(d, env) && !Flagged(d)
  {
    if Awaited(d, env) {
      ReceiveShape(cfg, d, env, now, mid);
      hide Ok, Judge, Resolve, Receive, NextOperation, Sound, Answered, Correlated, Coherent, Retried;
      var step := NextOperation(d.row.progress).step;
      var v := Judge(d.row, env.result, step);
      RetryVerdict(d.row, env.result, step);
      AnswerIsSound(d, env, v, step);
      ResolveRetries(cfg, Remembered(d, env), v, env, now, mid);
      SameRow(d, Remembered(d, env), Perform(cfg, d, DoReceive(env, mid), now));
    } else {
      assert Receive(cfg, d, env, now, mid) in {Aborted, Committed(d), Committed(Remembered(d, env))};
    }
  }

  lemma SameRow(d: Slice, e: Slice, d': Slice)
    requires d.row == e.row
    ensures Retried(d, d') == Retried(e, d')
  {
  }

  lemma RecoverRetries(cfg: Config, d: Slice, token: Uuid, now: nat, mid: Uuid)
    requires Ok(d) && mid !in d.outbox
    ensures Retried(d, Perform(cfg, d, DoRecover(token, mid), now)) <==> Overdue(cfg, d, token, now)
  {
    hide Ok, Dispatch, NextOperation, AwaitingDelivery, ResponseDeadline;
    if HoldsLease(d.row, token, now) {
      hide Perform;
      BP.RecoverEnds(cfg, d, token, now, mid);
    }
  }

  lemma ResumeRetries(cfg: Config, d: Slice, now: nat, mid: Uuid)
    requires Ok(d) && mid !in d.outbox
    ensures Retried(d, Perform(cfg, d, DoResume(mid), now)) <==> Flagged(d)
  {
    CoherentCursor(d.row.progress);
    if Flagged(d) {
      DispatchShape(cfg, d, d.row.(brokerAttempts := 0, recoveryAttempts := 0, reason := None), now, mid);
    }
  }

  lemma ConfirmIsNoRetry(cfg: Config, d: Slice, now: nat, mid: Uuid)
    requires Ok(d) && mid !in d.outbox
    ensures !Retried(d, Perform(cfg, d, DoConfirm(mid), now))
  {
    if d.row.progress.status == PendingPayment {
      RestartKeepsProgress(cfg, d, now, mid);
    }
  }

  /** Exactly which transactions of one saga consume a retry. */
  lemma PerformRetries(cfg: Config, d: Slice, a: Action, now: nat)
    requires Ok(d) && Enabled(d, a)
    ensures Retried(d, Perform(cfg, d, a, now)) <==>
      match a
      case DoReceive(env, _) => Awaited(d, env) && Undecided(d, env) && !Flagged(d)
      case DoRecover(token, _) => Overdue(cfg, d, token, now)
      case DoResume(_) => Flagged(d)
      case _ => false
  {
    match a {
      case DoReceive(env, mid) => ReceiveRetries(cfg, d, env, now, mid);
      case DoRecover(token, mid) => RecoverRetries(cfg, d, token, now, mid);
      case DoResume(mid) => ResumeRetries(cfg, d, now, mid);
      case DoConfirm(mid) => ConfirmIsNoRetry(cfg, d, now, mid);
      case _ => hide Ok;
    }
  }

  // ---------- The whole system ----------

  /** A participant refuses only what the saga takes for a rejection, so an undecided answer is UNKNOWN. */
  lemma UndecidedIsUnknown(d: Slice, env: ResultEnvelope)
    requires Ok(d) && Awaited(d, env) && Undecided(d, env)
    requires env.result.outcome.Failed? ==> IsRejection(env.result.operation, env.result.outcome.code)
    ensures env.result.outcome.Unknown?
  {
    CoherentCursor(d.row.progress);
  }

  /** Why an order was retried. */
  predicate Excused(cfg: Config, d: Slice, a: Action, now: nat) {
    match a
    case DoReceive(env, _) => Awaited(d, env) && env.result.outcome.Unknown?
    case DoRecover(token, _) => Overdue(cfg, d, token, now)
    case DoResume(_) => Flagged(d)
    case _ => false
  }

  lemma OrderRetries(cfg: Config, initial: map<Uuid, nat>, w: World, o: Uuid, a: Action, now: nat)
    requires WorldOk(initial, w) && o in w.orders && ActionPossible(w, o, a)
    requires Retried(w.orders[o], Perform(cfg, w.orders[o], a, now))
    ensures Excused(cfg, w.orders[o], a, now)
  {
    ActionEnabled(initial, w, o, a);
    OrderIsOk(initial, w, o);
    hide Ok, Enabled, Perform, Retried, Awaited, Undecided, Overdue;
    PerformRetries(cfg, w.orders[o], a, now);
    if a.DoReceive? {
      DeliveredIsTruthful(initial, w, a.envelope);
      UndecidedIsUnknown(w.orders[o], a.envelope);
    }
  }

  lemma OrderIsOk(initial: map<Uuid, nat>, w: World, o: Uuid)
    requires WorldOk(initial, w) && o in w.orders
    ensures Ok(w.orders[o])
  {
    OrdersAndNetwork(initial, w);
    hide WorldOk;
  }

  /** Only its own transactions change an order. */
  lemma OnlyOwnEvents(cfg: Config, w: World, e: Event, now: nat, o: Uuid)
    requires Possible(w, e) && o in w.orders
    ensures o in Step(cfg, w, e, now).orders
    ensures Step(cfg, w, e, now).orders[o] ==
      if e.Orchestrate? && e.orderId == o then Perform(cfg, w.orders[o], e.action, now) else w.orders[o]
    ensures e.Orchestrate? && e.orderId == o ==> ActionPossible(w, o, e.action)
  {
    hide Perform, Accept, ActionPossible, Published, Fresh;
  }

  lemma SameIsNoRetry(d: Slice)
    ensures !Retried(d, d)
  {
  }

  /** In every run of the system an order spends a retry, sends a command again or is left to an
      operator only because the answer it awaited was UNKNOWN, because none had come by the
      deadline of a published command, or because an operator resumed it. */
  lemma RetriesAreExcused(cfg: Config, products: map<Uuid, Inventory.Product>, h: History, i: nat, o: Uuid)
    requires IsHistory(cfg, products, h) && i < |h.events| && o in h.worlds[i].orders && o in h.worlds[i + 1].orders
    requires Retried(h.worlds[i].orders[o], h.worlds[i + 1].orders[o])
    ensures
      var e := h.events[i];
      e.Orchestrate? && e.orderId == o && Excused(cfg, h.worlds[i].orders[o], e.action, h.times[i])
  {
    hide WorldOk, Perform, Excused, Retried, Possible, Step, Begin, ActionPossible;
    HistoriesStayOk(cfg, products, h, i);
    var w, e, now := h.worlds[i], h.events[i], h.times[i];
    OnlyOwnEvents(cfg, w, e, now, o);
    SameIsNoRetry(w.orders[o]);
    if e.Orchestrate? && e.orderId == o {
      OrderRetries(cfg, II.Initially(products), w, o, e.action, now);
    }
  }
}
