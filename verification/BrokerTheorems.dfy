/** Statements about whole runs of one broker-driven saga. */
module BrokerTheorems {
  import opened Contracts
  import opened StateMachine
  import opened Broker
  import opened BrokerInvariant
  import opened BrokerLinks

  /** A run: the slices it passes through, and the actions with their times in between. */
  datatype Run = Run(slices: seq<Slice>, actions: seq<Action>, times: seq<nat>)

  predicate IsRun(cfg: Config, r: Run) {
    && |r.slices| == |r.actions| + 1 == |r.times| + 1
    && r.slices[0].row.lease.None? && Ok(r.slices[0])
    && (forall i :: 0 <= i < |r.actions| ==>
          Enabled(r.slices[i], r.actions[i]) && r.slices[i + 1] == Perform(cfg, r.slices[i], r.actions[i], r.times[i]))
    && (forall i, j :: 0 <= i < j < |r.times| ==> r.times[i] <= r.times[j])
  }

  /** Every slice a run passes through satisfies the invariant. */
  lemma {:induction false} RunsStayOk(cfg: Config, r: Run, i: nat)
    requires IsRun(cfg, r) && i < |r.slices|
    ensures Ok(r.slices[i])
  {
    if i > 0 {
      RunsStayOk(cfg, r, i - 1);
      PerformKeepsOk(cfg, r.slices[i - 1], r.actions[i - 1], r.times[i - 1]);
    }
  }

  /** One step of a run. */
  lemma StepOf(cfg: Config, r: Run, i: nat)
    requires IsRun(cfg, r) && i < |r.actions|
    ensures Ok(r.slices[i]) && Enabled(r.slices[i], r.actions[i])
    ensures r.slices[i + 1] == Perform(cfg, r.slices[i], r.actions[i], r.times[i]) && Ok(r.slices[i + 1])
  {
    RunsStayOk(cfg, r, i);
    RunsStayOk(cfg, r, i + 1);
  }

  // ---------- The history ----------

  lemma {:induction false} LogsGrow(cfg: Config, r: Run, i: nat, j: nat)
    requires IsRun(cfg, r) && i <= j < |r.slices|
    ensures r.slices[i].log <= r.slices[j].log
    decreases j
  {
    hide Ok, Perform, Enabled, OutboxGrows;
    if i < j {
      LogsGrow(cfg, r, i, j - 1);
      StepOf(cfg, r, j - 1);
      PerformFrame(cfg, r.slices[j - 1], r.actions[j - 1], r.times[j - 1]);
    }
  }

  /** The transition log is a faithful history in every reachable slice, and it is only ever
      extended: what was recorded once stays as it was. */
  lemma LogIsFaithful(cfg: Config, r: Run, i: nat, j: nat)
    requires IsRun(cfg, r) && i <= j < |r.slices|
    ensures FaithfulLog(r.slices[j])
    ensures r.slices[i].log <= r.slices[j].log
  {
    hide Perform, Enabled, FaithfulLog;
    RunsStayOk(cfg, r, j);
    LogsGrow(cfg, r, i, j);
  }

  // ---------- Retry budget ----------

  /** Fifteen commands, and three more for every manual resume the log records. */
  lemma BudgetHolds(d: Slice)
    requires Ok(d)
    ensures |CommandIds(d)| <= 15 + 3 * Resumes(d.log)
  {
    assert Coherent(d.row.progress);
    assert d.row.progress.status == FailedOrder ==> |d.row.progress.compensated| == |d.row.progress.completed|;
  }

  /** Dispatching counts as a resume only right after an intervention. */
  lemma DispatchCounts(cfg: Config, d: Slice, saga: Row, at: nat, mid: Uuid)
    ensures var d' := Settle(d, Dispatch(cfg, d, saga, at, mid)); Resumes(d'.log) <= Resumes(d.log) + ResumeCost(d.log)
  {
    hide NextOperation, Replay, Dispatches;
    var d' := Settle(d, Dispatch(cfg, d, saga, at, mid));
    if d'.log != d.log {
      var e := d'.log[|d.log|];
      assert d'.log == d.log + [e];
      LogGrows(d.log, e);
    }
  }

  /** Saving anything but a dispatch is no resume, and unless it is an intervention nothing after it is. */
  lemma SaveCounts(d: Slice, saga: Row, row: Row, event: EventKind, result: Option<Result>, direction: Direction,
                   step: SagaStep)
    requires !IsDispatch(event)
    ensures var d' := Save(d, saga, row, event, result, direction, step);
      Resumes(d'.log) == Resumes(d.log) && (event != ManualInterventionRequired ==> ResumeCost(d'.log) == 0)
  {
    var d' := Save(d, saga, row, event, result, direction, step);
    LogGrows(d.log, d'.log[|d.log|]);
  }

  lemma ResolveCounts(cfg: Config, d: Slice, v: Verdict, env: ResultEnvelope, now: nat, mid: Uuid)
    requires !IsDispatch(v.event) && v.event != ManualInterventionRequired
    ensures Resumes(Settle(d, Resolve(cfg, d, v, env, now, mid)).log) <= Resumes(d.log)
  {
    hide Dispatch, Resumes, Save;
    var u := Judged(d, v, env.result);
    SaveCounts(d, d.row, v.row, v.event, Some(env.result), v.direction, v.step);
    SaveCounts(u, u.row, u.row.(reason := Some(CommandRetriesExhausted), lease := None),
               ManualInterventionRequired, None, ForwardDirection, u.row.progress.step);
    DispatchCounts(cfg, u, u.row, RetryAt(cfg, v, now), mid);
  }

  lemma ReceiveCounts(cfg: Config, d: Slice, env: ResultEnvelope, now: nat, mid: Uuid)
    requires Ok(d)
    ensures Resumes(Settle(d, Receive(cfg, d, env, now, mid)).log) <= Resumes(d.log)
  {
    if Awaited(d, env) {
      ReceiveShape(cfg, d, env, now, mid);
      var step := NextOperation(d.row.progress).step;
      JudgeIsSound(d.row, env.result, step);
      hide Ok, Receive, Resolve, NextOperation, Judge, Resumes, Correlated;
      ResolveCounts(cfg, Remembered(d, env), Judge(d.row, env.result, step), env, now, mid);
    } else {
      hide Ok, Resolve, NextOperation, Judge, Resumes, Correlated;
    }
  }

  lemma RecoverCounts(cfg: Config, d: Slice, token: Uuid, now: nat, mid: Uuid)
    ensures Resumes(Settle(d, Recover(cfg, d, token, now, mid)).log) <= Resumes(d.log)
  {
    hide Dispatch, NextOperation, Resumes, Save, HoldsLease, AwaitingDelivery, ResponseDeadline;
    var saga := d.row;
    forall row, event | event in {ManualInterventionRequired, DeliveryWait, RecoveryResumed}
      ensures var d' := Save(d, saga, row, event, None, ForwardDirection, saga.progress.step);
        Resumes(d'.log) == Resumes(d.log) && (event != ManualInterventionRequired ==> ResumeCost(d'.log) == 0)
    {
      SaveCounts(d, saga, row, event, None, ForwardDirection, saga.progress.step);
    }
    var recovered := Save(d, saga, saga.(pending := None, recoveryAttempts := saga.recoveryAttempts + 1, lease := None),
                          RecoveryResumed, None, ForwardDirection, saga.progress.step);
    DispatchCounts(cfg, recovered, recovered.row, now, mid);
  }

  /** Only an operator's resume is counted as one. */
  lemma ResumesCounted(cfg: Config, d: Slice, a: Action, now: nat)
    requires Ok(d)
    ensures Resumes(Perform(cfg, d, a, now).log) <= Resumes(d.log) + if a.DoResume? then 1 else 0
  {
    hide Ok, Receive, Recover, Dispatch, Resumes, Save;
    var saga := d.row;
    match a {
      case DoConfirm(mid) =>
        var row := saga.(progress := saga.progress.(status := InProgress), nextAttemptAt := now);
        SaveCounts(d, saga, row, PaymentConfirmed, None, ForwardDirection, saga.progress.step);
        var confirmed := Save(d, saga, row, PaymentConfirmed, None, ForwardDirection, saga.progress.step);
        DispatchCounts(cfg, confirmed, confirmed.row, now, mid);
      case DoResume(mid) =>
        DispatchCounts(cfg, d, saga.(brokerAttempts := 0, recoveryAttempts := 0, reason := None), now, mid);
      case DoReceive(env, mid) => ReceiveCounts(cfg, d, env, now, mid);
      case DoClaim(token, leaseMs) =>
        SaveCounts(d, saga, saga.(lease := Some(Lease(token, now + leaseMs))), RecoveryClaimed, None, ForwardDirection,
                   saga.progress.step);
      case DoRecover(token, mid) => RecoverCounts(cfg, d, token, now, mid);
      case _ =>
    }
  }

  function ResumeActions(actions: seq<Action>): nat {
    if actions == [] then 0
    else ResumeActions(actions[..|actions| - 1]) + if actions[|actions| - 1].DoResume? then 1 else 0
  }

  lemma {:induction false} ResumesOfRun(cfg: Config, r: Run, i: nat)
    requires IsRun(cfg, r) && i < |r.slices|
    ensures Resumes(r.slices[i].log) <= Resumes(r.slices[0].log) + ResumeActions(r.actions[..i])
  {
    hide Resumes, Perform, Ok;
    if i > 0 {
      ResumesOfRun(cfg, r, i - 1);
      StepOf(cfg, r, i - 1);
      ResumesCounted(cfg, r.slices[i - 1], r.actions[i - 1], r.times[i - 1]);
      assert r.actions[..i][..i - 1] == r.actions[..i - 1];
    }
  }

  /** The retry budget: over every run of an accepted order at most fifteen commands are ever sent,
      and each manual resume buys at most three more. */
  lemma FifteenCommands(cfg: Config, r: Run, i: nat)
    requires IsRun(cfg, r) && i < |r.slices| && Resumes(r.slices[0].log) == 0
    ensures |CommandIds(r.slices[i])| <= 15 + 3 * ResumeActions(r.actions[..i])
  {
    RunsStayOk(cfg, r, i);
    ResumesOfRun(cfg, r, i);
    BudgetHolds(r.slices[i]);
  }

  /** An accepted order starts a run, with nothing resumed. */
  lemma AcceptedOrdersStartRuns(cfg: Config, id: Uuid, orderId: Uuid, payload: OrderPayload, now: nat, mid: Uuid)
    ensures var d := Accept(cfg, id, orderId, payload, now, mid); IsRun(cfg, Run([d], [], [])) && Resumes(d.log) == 0
  {
    AcceptIsOk(cfg, id, orderId, payload, now, mid);
  }

  // ---------- The run-time checks never fire ----------

  /** `receive` throws for uncorrelated or altered messages only: "Result does not match saga
      progress" is unreachable. */
  lemma ReceiveThrowsOnlyForBadMessages(cfg: Config, d: Slice, env: ResultEnvelope, now: nat, mid: Uuid)
    requires Ok(d) && Enabled(d, DoReceive(env, mid))
    ensures Receive(cfg, d, env, now, mid).Aborted? <==>
      !Correlated(d, env) || (env.messageId in d.inbox && d.inbox[env.messageId] != env)
  {
    if Awaited(d, env) {
      ReceiveShape(cfg, d, env, now, mid);
      var step := NextOperation(d.row.progress).step;
      JudgeIsSound(d.row, env.result, step);
      RememberKeepsOk(d, Remembered(d, env).inbox);
      ResolveKeepsOk(cfg, Remembered(d, env), Judge(d.row, env.result, step), env, now, mid);
    }
  }

  /** The pending command is in the outbox and asks for exactly the next operation of a progress
      that is a prefix of the steps and, backwards, a prefix of their reverse. */
  predicate IsWaiting(d: Slice) {
    var p := d.row.progress;
    && d.row.pending.Some? && d.row.pending.value in d.outbox && NextOperation(p).Next?
    && d.outbox[d.row.pending.value].body == CommandBody(CommandFor(d.row, NextOperation(p).operation))
    && IsForward(p.operation) && p.completed == ExpectedSteps(p.operation) && p.compensated <= Reversed(p.completed)
  }

  /** In every reachable slice a running saga is flagged for an operator or waits for a command that
      is in its outbox, and that command asks for exactly the next operation of its progress. */
  lemma RunningSagasWait(cfg: Config, r: Run, i: nat)
    requires IsRun(cfg, r) && i < |r.slices| && Active(r.slices[i].row.progress.status) && !Flagged(r.slices[i])
    ensures IsWaiting(r.slices[i])
  {
    RunsStayOk(cfg, r, i);
    var p := r.slices[i].row.progress;
    var back := Reversed(p.completed);
    assert p.status == InProgress ==> p.compensated == back[..0];
    assert back[..|p.compensated|] <= back;
  }

  /** No cancellation is ever sent: a saga turns back only before its shipment exists. */
  lemma CancelIsNeverSent(cfg: Config, r: Run, i: nat, m: Uuid)
    requires IsRun(cfg, r) && i < |r.slices| && m in CommandIds(r.slices[i])
    ensures r.slices[i].outbox[m].body.command.operation != CancelShipment
  {
    RunsStayOk(cfg, r, i);
  }

  /** INCONSISTENT_PROGRESS and MISSING_COMMAND are never recorded. */
  lemma OnlyExhaustionFlags(cfg: Config, r: Run, i: nat)
    requires IsRun(cfg, r) && i < |r.slices| && Flagged(r.slices[i])
    ensures r.slices[i].row.reason.value in {CommandRetriesExhausted, RecoveryRetriesExhausted}
    ensures Active(r.slices[i].row.progress.status) && r.slices[i].row.brokerAttempts == 3
  {
    RunsStayOk(cfg, r, i);
  }

  /** A resume throws exactly on an order that still waits for its payment; on a flagged saga it
      sends one new command for the operation that was stuck. */
  lemma ResumeRestartsTheStuckOperation(cfg: Config, d: Slice, now: nat, mid: Uuid)
    requires Ok(d) && mid !in d.outbox
    ensures Resume(cfg, d, now, mid).Aborted? <==> d.row.progress.status == PendingPayment
    ensures Flagged(d) ==>
      && NextOperation(d.row.progress).Next?
      && var tx := Resume(cfg, d, now, mid);
         && tx.Committed? && !Flagged(tx.slice) && tx.slice.row.pending == Some(mid)
         && tx.slice.row.progress == d.row.progress
         && CommandIds(tx.slice) == CommandIds(d) + {mid}
         && tx.slice.outbox[mid].body == CommandBody(CommandFor(d.row, NextOperation(d.row.progress).operation))
    ensures !Flagged(d) && d.row.progress.status != PendingPayment ==> Resume(cfg, d, now, mid) == Committed(d)
  {
    hide FaithfulLog, CommandsOk, RelayOk, BudgetOk;
    CoherentCursor(d.row.progress);
    if Flagged(d) {
      DispatchShape(cfg, d, d.row.(brokerAttempts := 0, recoveryAttempts := 0, reason := None), now, mid);
    }
  }

  /** At most one command of a saga has not been given to the broker: the pending one. */
  lemma OneUndeliveredCommand(cfg: Config, r: Run, i: nat, m: Uuid, n: Uuid)
    requires IsRun(cfg, r) && i < |r.slices| && m in CommandIds(r.slices[i]) && n in CommandIds(r.slices[i])
    requires !r.slices[i].outbox[m].handed && !r.slices[i].outbox[n].handed
    ensures m == n && r.slices[i].row.pending == Some(m)
  {
    RunsStayOk(cfg, r, i);
  }

  // ---------- Refinement of the abstract saga ----------

  lemma DispatchRefines(cfg: Config, d: Slice, saga: Row, at: nat, mid: Uuid)
    requires CopyOf(saga, d.row) && Coherent(d.row.progress)
    ensures AbstractStep(d.row.progress, Settle(d, Dispatch(cfg, d, saga, at, mid)).row.progress)
  {
    CoherentCursor(d.row.progress);
    if NextOperation(saga.progress).Finished? {
      assert GivesUp(d.row.progress, Settle(d, Dispatch(cfg, d, saga, at, mid)).row.progress);
    }
  }

  lemma ResolveRefines(cfg: Config, d: Slice, v: Verdict, env: ResultEnvelope, now: nat, mid: Uuid)
    requires Answered(d) && Sound(d.row, v) && mid !in d.outbox
    ensures AbstractStep(d.row.progress, v.row.progress)
    ensures AbstractStep(v.row.progress, Settle(d, Resolve(cfg, d, v, env, now, mid)).row.progress)
  {
    ResolveKeepsOk(cfg, d, v, env, now, mid);
    var u := Judged(d, v, env.result);
    if !Terminal(v.row.progress.status) && !(v.retry && v.row.brokerAttempts >= 3) {
      DispatchRefines(cfg, u, u.row, RetryAt(cfg, v, now), mid);
      assert Resolve(cfg, d, v, env, now, mid) == Dispatch(cfg, u, u.row, RetryAt(cfg, v, now), mid);
    }
  }

  /** Each transaction of the broker engine is at most two abstract steps. */
  lemma PerformRefines(cfg: Config, d: Slice, a: Action, now: nat)
    requires Ok(d) && Enabled(d, a)
    ensures exists q :: AbstractStep(d.row.progress, q) && AbstractStep(q, Perform(cfg, d, a, now).row.progress)
  {
    var p := d.row.progress;
    var p' := Perform(cfg, d, a, now).row.progress;
    if a.DoReceive? && Awaited(d, a.envelope) {
      ReceiveShape(cfg, d, a.envelope, now, a.mid);
      var step := NextOperation(p).step;
      var v := Judge(d.row, a.envelope.result, step);
      JudgeIsSound(d.row, a.envelope.result, step);
      RememberKeepsOk(d, Remembered(d, a.envelope).inbox);
      var tx := Resolve(cfg, Remembered(d, a.envelope), v, a.envelope, now, a.mid);
      ResolveKeepsOk(cfg, Remembered(d, a.envelope), v, a.envelope, now, a.mid);
      ResolveRefines(cfg, Remembered(d, a.envelope), v, a.envelope, now, a.mid);
      assert tx.Committed?;
      assert AbstractStep(p, v.row.progress) && AbstractStep(v.row.progress, p');
    } else {
      OtherActionsRefine(cfg, d, a, now);
    }
  }

  lemma OtherActionsRefine(cfg: Config, d: Slice, a: Action, now: nat)
    requires Ok(d) && Enabled(d, a)
    requires !(a.DoReceive? && Awaited(d, a.envelope))
    ensures exists q :: AbstractStep(d.row.progress, q) && AbstractStep(q, Perform(cfg, d, a, now).row.progress)
  {
    var p := d.row.progress;
    var p' := Perform(cfg, d, a, now).row.progress;
    CoherentCursor(p);
    if a.DoConfirm? && p.status == PendingPayment {
      var q := p.(status := InProgress);
      assert Confirms(p, q);
      CoherentCursor(q);
      assert AbstractStep(p, q) && AbstractStep(q, p');
    } else if a.DoRecover? && HoldsLease(d.row, a.token, now) {
      RecoverShape(cfg, d, a.token, now, a.mid);
      assert p == p';
      assert AbstractStep(p, p) && AbstractStep(p, p');
    } else if a.DoReceive? {
      assert Receive(cfg, d, a.envelope, now, a.mid) in {Aborted, Committed(d), Committed(Remembered(d, a.envelope))};
      assert AbstractStep(p, p) && AbstractStep(p, p');
    } else {
      assert p == p';
      assert AbstractStep(p, p) && AbstractStep(p, p');
    }
  }

  lemma PerformNeverGoesBack(cfg: Config, d: Slice, a: Action, now: nat)
    requires Ok(d) && Enabled(d, a)
    ensures NoReturn(d.row.progress, Perform(cfg, d, a, now).row.progress)
  {
    PerformRefines(cfg, d, a, now);
    var p, p' := d.row.progress, Perform(cfg, d, a, now).row.progress;
    var q :| AbstractStep(p, q) && AbstractStep(q, p');
    NoWayBack(p, q);
    AbstractStepKeepsCoherence(p, q);
    NoWayBack(q, p');
  }

  lemma RunStepNeverGoesBack(cfg: Config, r: Run, i: nat)
    requires IsRun(cfg, r) && i < |r.actions|
    ensures NoReturn(r.slices[i].row.progress, r.slices[i + 1].row.progress)
  {
    StepOf(cfg, r, i);
    PerformNeverGoesBack(cfg, r.slices[i], r.actions[i], r.times[i]);
  }

  function ProgressAlong(r: Run): seq<Progress> {
    seq(|r.slices|, i requires 0 <= i < |r.slices| => r.slices[i].row.progress)
  }

  lemma {:induction false} ChainNeverGoesBack(ps: seq<Progress>, i: nat, j: nat)
    requires forall k :: 0 <= k < |ps| ==> NoReturn(ps[k], ps[k])
    requires forall k :: 0 <= k < |ps| - 1 ==> NoReturn(ps[k], ps[k + 1])
    requires i <= j < |ps|
    ensures NoReturn(ps[i], ps[j])
  {
    if i < j {
      ChainNeverGoesBack(ps, i, j - 1);
      assert NoReturn(ps[j - 1], ps[j - 1 + 1]);
      NoReturnChains(ps[i], ps[j - 1], ps[j]);
    }
  }

  /** A finished saga never changes again, and one that is being finalized is never undone. */
  lemma RunsNeverGoBack(cfg: Config, r: Run, i: nat, j: nat)
    requires IsRun(cfg, r) && i <= j < |r.slices|
    ensures NoReturn(r.slices[i].row.progress, r.slices[j].row.progress)
  {
    var ps := ProgressAlong(r);
    forall k | 0 <= k < |ps| ensures NoReturn(ps[k], ps[k]) {
      RunsStayOk(cfg, r, k);
    }
    forall k | 0 <= k < |ps| - 1 ensures NoReturn(ps[k], ps[k + 1]) {
      RunStepNeverGoesBack(cfg, r, k);
    }
    ChainNeverGoesBack(ps, i, j);
  }

  // ---------- Lease fencing ----------

  predicate Owns(d: Slice, token: Uuid) {
    d.row.lease.Some? && d.row.lease.value.owner == token
  }

  /** Lease tokens are random: no two claims draw the same one. */
  predicate FreshTokens(r: Run) {
    forall i, j :: 0 <= i < j < |r.actions| && r.actions[i].DoClaim? && r.actions[j].DoClaim? ==>
      r.actions[i].token != r.actions[j].token
  }

  /** A token comes to own a lease only through its claim, and only while the lease is free. */
  lemma LeaseChanges(cfg: Config, d: Slice, a: Action, now: nat, token: Uuid)
    requires Ok(d) && Enabled(d, a) && Owns(Perform(cfg, d, a, now), token) && !Owns(d, token)
    ensures a.DoClaim? && a.token == token && Claimable(d.row, now)
  {
    match a
    case DoReceive(env, mid) => ReceiveGivesNoLease(cfg, d, env, now, mid);
    case DoRecover(t, mid) => if HoldsLease(d.row, t, now) { RecoveryEndsLease(cfg, d, t, now, mid); }
    case _ =>
  }

  lemma ReceiveGivesNoLease(cfg: Config, d: Slice, env: ResultEnvelope, now: nat, mid: Uuid)
    requires Ok(d) && Enabled(d, DoReceive(env, mid))
    ensures var d' := Settle(d, Receive(cfg, d, env, now, mid)); d'.row.lease.None? || d'.row.lease == d.row.lease
    ensures Awaited(d, env) ==> Settle(d, Receive(cfg, d, env, now, mid)).row.lease.None?
  {
    if Awaited(d, env) {
      ReceiveShape(cfg, d, env, now, mid);
      var step := NextOperation(d.row.progress).step;
      var v := Judge(d.row, env.result, step);
      JudgeIsSound(d.row, env.result, step);
      RememberKeepsOk(d, Remembered(d, env).inbox);
      ResolveKeepsOk(cfg, Remembered(d, env), v, env, now, mid);
      ResolvedLease(cfg, Remembered(d, env), v, env, now, mid);
    } else {
      assert Receive(cfg, d, env, now, mid) in {Aborted, Committed(d), Committed(Remembered(d, env))};
    }
  }

  lemma ResolvedLease(cfg: Config, d: Slice, v: Verdict, env: ResultEnvelope, now: nat, mid: Uuid)
    requires v.row.lease.None?
    ensures var tx := Resolve(cfg, d, v, env, now, mid); tx.Committed? ==> tx.slice.row.lease.None?
  {
  }

  /** Along a run, a token's ownership begins only at its own claim. */
  predicate Fenced(r: Run, token: Uuid) {
    && |r.slices| == |r.actions| + 1
    && !Owns(r.slices[0], token)
    && (forall i | 0 <= i < |r.actions| && Owns(r.slices[i + 1], token) ::
          Owns(r.slices[i], token) || (r.actions[i].DoClaim? && r.actions[i].token == token))
  }

  lemma RunsAreFenced(cfg: Config, r: Run, token: Uuid)
    requires IsRun(cfg, r)
    ensures Fenced(r, token)
  {
    forall i | 0 <= i < |r.actions| && Owns(r.slices[i + 1], token)
      ensures Owns(r.slices[i], token) || (r.actions[i].DoClaim? && r.actions[i].token == token)
    {
      StepOf(cfg, r, i);
      if !Owns(r.slices[i], token) {
        LeaseChanges(cfg, r.slices[i], r.actions[i], r.times[i], token);
      }
    }
  }

  /** Once a token's lease is lost it is lost for good. */
  lemma {:induction false} LostTokensStayLost(r: Run, token: Uuid, c: nat, k: nat, j: nat)
    requires Fenced(r, token) && FreshTokens(r)
    requires c < k <= j < |r.slices|
    requires r.actions[c].DoClaim? && r.actions[c].token == token
    requires !Owns(r.slices[k], token)
    ensures !Owns(r.slices[j], token)
  {
    if k < j {
      LostTokensStayLost(r, token, c, k, j - 1);
    }
  }

  /** An owner got its lease from an earlier claim. */
  lemma {:induction false} OwnersClaimed(r: Run, token: Uuid, j: nat) returns (c: nat)
    requires Fenced(r, token) && j < |r.slices| && Owns(r.slices[j], token)
    ensures c < j && r.actions[c].DoClaim? && r.actions[c].token == token
  {
    assert j > 0;
    if Owns(r.slices[j - 1], token) {
      c := OwnersClaimed(r, token, j - 1);
    } else {
      assert Owns(r.slices[j - 1 + 1], token);
      c := j - 1;
    }
  }

  predicate EffectiveRecovery(r: Run, i: nat, token: Uuid)
    requires |r.slices| == |r.actions| + 1 == |r.times| + 1
  {
    && i < |r.actions|
    && r.actions[i].DoRecover? && r.actions[i].token == token
    && HoldsLease(r.slices[i].row, token, r.times[i])
  }

  lemma RecoveryEndsLease(cfg: Config, d: Slice, token: Uuid, now: nat, mid: Uuid)
    requires Ok(d) && mid !in d.outbox && HoldsLease(d.row, token, now)
    ensures Recover(cfg, d, token, now, mid).Committed? && Recover(cfg, d, token, now, mid).slice.row.lease.None?
  {
    RecoverShape(cfg, d, token, now, mid);
    if !AwaitingDelivery(cfg, d.outbox[d.row.pending.value], now) && d.row.brokerAttempts < 3 {
      RedispatchKeepsOk(cfg, d, now, mid);
    }
  }

  /** A token is good for one recovery, whatever the interleaving of workers. */
  lemma TokensRecoverOnce(cfg: Config, r: Run, token: Uuid, i: nat, j: nat)
    requires IsRun(cfg, r) && FreshTokens(r)
    requires i <= j && EffectiveRecovery(r, i, token) && EffectiveRecovery(r, j, token)
    ensures i == j
  {
    StepOf(cfg, r, i);
    RunsAreFenced(cfg, r, token);
    var c := OwnersClaimed(r, token, i);
    RecoveryEndsLease(cfg, r.slices[i], token, r.times[i], r.actions[i].mid);
    if i < j {
      LostTokensStayLost(r, token, c, i + 1, j);
    }
  }

  /** A result applied after the claim turns that recovery into a no-op. */
  lemma ResultsDisarmClaims(cfg: Config, r: Run, token: Uuid, c: nat, i: nat, j: nat, mid: Uuid)
    requires IsRun(cfg, r) && FreshTokens(r)
    requires c < i < j < |r.slices|
    requires r.actions[c].DoClaim? && r.actions[c].token == token
    requires r.actions[i].DoReceive? && Awaited(r.slices[i], r.actions[i].envelope)
    ensures forall now :: Recover(cfg, r.slices[j], token, now, mid) == Committed(r.slices[j])
  {
    StepOf(cfg, r, i);
    ReceiveGivesNoLease(cfg, r.slices[i], r.actions[i].envelope, r.times[i], r.actions[i].mid);
    RunsAreFenced(cfg, r, token);
    LostTokensStayLost(r, token, c, i + 1, j);
  }

  /** While a token may recover, no other worker's claim has succeeded since its own. */
  lemma LeasesExclude(cfg: Config, r: Run, token: Uuid, c: nat, k: nat, j: nat)
    requires IsRun(cfg, r) && FreshTokens(r)
    requires c < k < j < |r.slices|
    requires r.actions[c].DoClaim? && r.actions[c].token == token
    requires Owns(r.slices[j], token)
    ensures r.actions[k].DoClaim? ==> !Claimable(r.slices[k].row, r.times[k])
  {
    if !Owns(r.slices[k + 1], token) {
      RunsAreFenced(cfg, r, token);
      LostTokensStayLost(r, token, c, k + 1, j);
    }
  }
}
