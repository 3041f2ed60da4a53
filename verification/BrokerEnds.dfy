/** Which ends are still open to a broker-driven saga, in every reachable slice, as far as the
    orchestrator alone decides: under answers of any kind that the result schema admits. */
module BrokerEnds {
  import opened Contracts
  import opened StateMachine
  import opened Broker
  import opened BrokerInvariant
  import opened BrokerTheorems
  import opened BrokerProgress

  // ---------- Answers ----------

  /** Some success of the operation. */
  function SuccessOf(op: Operation): (outcome: Outcome)
    ensures outcome.Succeeded? && FitsSchema(op, outcome)
  {
    Succeeded(if IsForward(op) then Applied(0) else Undone)
  }

  function AnswerTo(d: Slice, id: Uuid, outcome: Outcome): ResultEnvelope
    requires d.row.pending.Some? && d.row.pending.value in d.outbox
    requires d.outbox[d.row.pending.value].body.CommandBody?
  {
    ResultEnvelope(id, d.row.pending.value, ResultFor(d.outbox[d.row.pending.value].body.command, outcome))
  }

  lemma AnswerIsAwaited(d: Slice, id: Uuid, outcome: Outcome)
    requires Ok(d) && Active(d.row.progress.status) && !Flagged(d) && id !in d.inbox
    ensures d.row.pending.Some? && d.row.pending.value in d.outbox && NextOperation(d.row.progress).Next?
    ensures d.outbox[d.row.pending.value].body.CommandBody?
    ensures Awaited(d, AnswerTo(d, id, outcome))
    ensures AnswerTo(d, id, outcome).result.operation == NextOperation(d.row.progress).operation
    ensures AnswerTo(d, id, outcome).result.outcome == outcome
  {
    PendingIsSent(d);
    hide Ok, NextOperation;
  }

  /** Nothing left to undo: the saga fails. */
  function GoesTo(p: Progress): Progress {
    if p.status == Compensating && |p.compensated| == |p.completed| then p.(status := FailedOrder) else p
  }

  /** Unless it is retried, an answer takes the saga where its verdict says, unflagged. */
  lemma ResolveMoves(cfg: Config, d: Slice, v: Verdict, env: ResultEnvelope, now: nat, mid: Uuid)
    requires Answered(d) && Sound(d.row, v) && !v.retry && mid !in d.outbox
    ensures
      var tx := Resolve(cfg, d, v, env, now, mid);
      && tx.Committed? && tx.slice.row.progress == GoesTo(v.row.progress) && !Flagged(tx.slice)
      && tx.slice.row.brokerAttempts <= 1
      && tx.slice.inbox == d.inbox && (Active(tx.slice.row.progress.status) ==> tx.slice.row.pending == Some(mid))
  {
    var u := Judged(d, v, env.result);
    CoherentCursor(v.row.progress);
    if !Terminal(v.row.progress.status) {
      hide Ok, NextOperation, Dispatch, AbstractStep;
      if NextOperation(u.row.progress).Next? {
        DispatchShape(cfg, u, u.row, now, mid);
      } else {
        GiveUpShape(cfg, u, now, mid);
      }
    }
  }

  /** The verdict on a success. */
  lemma SuccessVerdict(saga: Row, result: Result, step: SagaStep)
    requires Coherent(saga.progress) && NextOperation(saga.progress) == Next(result.operation, step)
    requires result.outcome.Succeeded?
    ensures IsForward(saga.progress.operation)
    ensures saga.progress.status != Compensating ==> result.operation == saga.progress.operation
    ensures
      var v := Judge(saga, result, step);
      !v.retry
      && match saga.progress.status
         case Compensating => Undoes(saga.progress, v.row.progress)
         case _ =>
           if saga.progress.operation == FinalizeInventory then Completes(saga.progress, v.row.progress)
           else Advances(saga.progress, v.row.progress)
  {
    CoherentCursor(saga.progress);
  }

  /** The verdict on a rejection. */
  lemma RejectionVerdict(saga: Row, result: Result, step: SagaStep)
    requires Coherent(saga.progress) && NextOperation(saga.progress) == Next(result.operation, step)
    requires saga.progress.status == InProgress && saga.progress.operation != FinalizeInventory
    requires result.outcome.Failed? && IsRejection(result.operation, result.outcome.code)
    ensures IsForward(saga.progress.operation) && result.operation == saga.progress.operation
    ensures var v := Judge(saga, result, step); !v.retry && Rejects(saga.progress, v.row.progress)
  {
    CoherentCursor(saga.progress);
  }

  /** An answer to the pending command, delivered. */
  lemma Answer(cfg: Config, r: Run, outcome: Outcome) returns (longer: Run, v: Verdict)
    requires IsRun(cfg, r) && Active(Last(r).row.progress.status) && !Flagged(Last(r))
    requires outcome.Succeeded? ||
      (outcome.Failed? && Last(r).row.progress.status == InProgress
       && RejectionOf(Last(r).row.progress.operation) == Some(outcome.code))
    requires NextOperation(Last(r).row.progress).Next? ==>
      FitsSchema(NextOperation(Last(r).row.progress).operation, outcome)
    ensures IsRun(cfg, longer) && Extends(r, longer)
    ensures Last(longer).row.progress == GoesTo(v.row.progress) && !Flagged(Last(longer))
    ensures
      var p := Last(r).row.progress;
      if outcome.Failed? then Rejects(p, v.row.progress)
      else if p.status == Compensating then Undoes(p, v.row.progress)
      else if p.operation == FinalizeInventory then Completes(p, v.row.progress)
      else Advances(p, v.row.progress)
  {
    hide Ok, CommandIds, Perform, Judge, Resolve, Receive, NextOperation, Extends, Past, SilentSince;
    var handed := PublishPending(cfg, r);
    var d := Last(handed);
    LastIsOk(cfg, handed);
    var id := SomeId(d.inbox.Keys);
    var mid := SomeId(d.outbox.Keys);
    AnswerIsAwaited(d, id, outcome);
    var env := AnswerTo(d, id, outcome);
    var now := SomeTime(handed.times, 0);
    v := AnswerMoves(cfg, d, env, now, mid);
    WithIsRun(cfg, handed, DoReceive(env, mid), now);
    longer := With(cfg, handed, DoReceive(env, mid), now);
    SilentExtends(r, handed, longer);
  }

  lemma SilentExtends(r: Run, r': Run, r'': Run)
    requires SilentSince(r, r') && Extends(r', r'')
    ensures Extends(r, r'')
  {
  }

  lemma AnswerMoves(cfg: Config, d: Slice, env: ResultEnvelope, now: nat, mid: Uuid) returns (v: Verdict)
    requires Ok(d) && Awaited(d, env) && mid !in d.outbox && d.outbox[env.causationId].handed
    requires NextOperation(d.row.progress).Next? && env.result.operation == NextOperation(d.row.progress).operation
    requires env.result.outcome.Succeeded? ||
      (env.result.outcome.Failed? && d.row.progress.status == InProgress
       && RejectionOf(d.row.progress.operation) == Some(env.result.outcome.code))
    ensures
      var d' := Perform(cfg, d, DoReceive(env, mid), now);
      && d'.row.progress == GoesTo(v.row.progress) && !Flagged(d')
      && d'.inbox == d.inbox[env.messageId := env]
      && (Active(d'.row.progress.status) ==> d'.row.pending == Some(mid))
    ensures
      var p := d.row.progress;
      if env.result.outcome.Failed? then Rejects(p, v.row.progress)
      else if p.status == Compensating then Undoes(p, v.row.progress)
      else if p.operation == FinalizeInventory then Completes(p, v.row.progress)
      else Advances(p, v.row.progress)
  {
    hide Ok, Judge, Resolve, Receive, Coherent, NextOperation, Sound, Answered, Correlated, GoesTo;
    hide Advances, Completes, Rejects, Undoes;
    ReceiveShape(cfg, d, env, now, mid);
    var step := NextOperation(d.row.progress).step;
    v := Judge(d.row, env.result, step);
    AnswerIsSound(d, env, v, step);
    if env.result.outcome.Failed? {
      RejectionVerdict(d.row, env.result, step);
    } else {
      SuccessVerdict(d.row, env.result, step);
    }
    ResolveMoves(cfg, Remembered(d, env), v, env, now, mid);
  }

  lemma AnswerIsSound(d: Slice, env: ResultEnvelope, v: Verdict, step: SagaStep)
    requires Ok(d) && Active(d.row.progress.status) && Awaited(d, env) && d.outbox[env.causationId].handed
    requires IsForward(d.row.progress.operation)
    requires d.row.progress.status != Compensating ==> env.result.operation == d.row.progress.operation
    requires NextOperation(d.row.progress) == Next(env.result.operation, step) && v == Judge(d.row, env.result, step)
    ensures Answered(Remembered(d, env)) && Sound(Remembered(d, env).row, v)
  {
    hide Judge, NextOperation, Sound, Correlated;
    RememberKeepsOk(d, Remembered(d, env).inbox);
    JudgeIsSound(d.row, env.result, step);
  }

  // ---------- The open ends ----------

  lemma RestartKeepsProgress(cfg: Config, d: Slice, now: nat, mid: Uuid)
    requires Ok(d) && mid !in d.outbox
    ensures d.row.progress.status == PendingPayment ==>
      var d' := Perform(cfg, d, DoConfirm(mid), now);
      d'.row.progress == d.row.progress.(status := InProgress) && !Flagged(d') && d'.row.pending == Some(mid)
    ensures Flagged(d) ==>
      var d' := Perform(cfg, d, DoResume(mid), now);
      && d'.row.progress == d.row.progress && !Flagged(d') && Active(d.row.progress.status)
      && d'.row.pending == Some(mid)
  {
    if d.row.progress.status == PendingPayment {
      var saga := d.row;
      var u := Save(d, saga, saga.(progress := saga.progress.(status := InProgress), nextAttemptAt := now),
                    PaymentConfirmed, None, ForwardDirection, saga.progress.step);
      CoherentCursor(u.row.progress);
      DispatchShape(cfg, u, u.row, now, mid);
    } else if Flagged(d) {
      ResumeRestartsTheStuckOperation(cfg, d, now, mid);
    }
  }

  /** A saga that is not over can be made to run: its payment is confirmed, or an operator resumes it. */
  lemma Restart(cfg: Config, r: Run) returns (longer: Run)
    requires IsRun(cfg, r) && !Terminal(Last(r).row.progress.status)
    ensures IsRun(cfg, longer) && Extends(r, longer)
    ensures Active(Last(longer).row.progress.status) && !Flagged(Last(longer))
    ensures
      var p := Last(r).row.progress;
      Last(longer).row.progress == if p.status == PendingPayment then p.(status := InProgress) else p
  {
    hide Ok, Perform, Past, Extends;
    var d := Last(r);
    LastIsOk(cfg, r);
    longer := r;
    ExtendsItself(r);
    var mid := SomeId(d.outbox.Keys);
    var now := SomeTime(r.times, 0);
    RestartKeepsProgress(cfg, d, now, mid);
    if d.row.progress.status == PendingPayment {
      WithIsRun(cfg, r, DoConfirm(mid), now);
      longer := With(cfg, r, DoConfirm(mid), now);
    } else if Flagged(d) {
      WithIsRun(cfg, r, DoResume(mid), now);
      longer := With(cfg, r, DoResume(mid), now);
    }
  }

  lemma ExtendsItself(r: Run)
    ensures Extends(r, r)
  {
  }

  function StepsLeft(p: Progress): nat {
    if p.status == Compensating then (if |p.compensated| < |p.completed| then |p.completed| - |p.compensated| else 0)
    else if !IsForward(p.operation) || Terminal(p.status) then 0
    else 4 - ForwardIndex(p.operation)
  }

  lemma CoherentLast(cfg: Config, r: Run)
    requires IsRun(cfg, r)
    ensures Coherent(Last(r).row.progress)
  {
    LastIsOk(cfg, r);
  }

  lemma ForwardNext(p: Progress)
    requires Coherent(p) && p.status == InProgress
    ensures NextOperation(p).Next? && NextOperation(p).operation == p.operation
  {
  }

  lemma UndoFits(p: Progress)
    requires Coherent(p) && p.status == Compensating
    ensures NextOperation(p).Next? ==> FitsSchema(NextOperation(p).operation, Succeeded(Undone))
  {
    CoherentCursor(p);
  }

  lemma {:induction false} CanComplete(cfg: Config, r: Run) returns (longer: Run)
    requires IsRun(cfg, r) && Last(r).row.progress.status !in {Compensating, FailedOrder}
    ensures IsRun(cfg, longer) && Extends(r, longer)
    ensures Last(longer).row.progress.status == CompletedOrder
    decreases StepsLeft(Last(r).row.progress)
  {
    hide Ok, Extends, NextOperation;
    CoherentLast(cfg, r);
    ExtendsItself(r);
    longer := r;
    if Last(r).row.progress.status != CompletedOrder {
      var running := Restart(cfg, r);
      CoherentLast(cfg, running);
      ForwardNext(Last(running).row.progress);
      var answered, v := Answer(cfg, running, SuccessOf(Last(running).row.progress.operation));
      ExtendsChains(r, running, answered);
      longer := CanComplete(cfg, answered);
      ExtendsChains(r, answered, longer);
    }
  }

  lemma {:induction false} CanUndo(cfg: Config, r: Run) returns (longer: Run)
    requires IsRun(cfg, r) && Last(r).row.progress.status in {Compensating, FailedOrder}
    ensures IsRun(cfg, longer) && Extends(r, longer)
    ensures Last(longer).row.progress.status == FailedOrder
    decreases StepsLeft(Last(r).row.progress)
  {
    hide Ok, Extends, NextOperation;
    CoherentLast(cfg, r);
    ExtendsItself(r);
    longer := r;
    if Last(r).row.progress.status != FailedOrder {
      var running := Restart(cfg, r);
      CoherentLast(cfg, running);
      UndoFits(Last(running).row.progress);
      var answered, v := Answer(cfg, running, Succeeded(Undone));
      ExtendsChains(r, running, answered);
      longer := CanUndo(cfg, answered);
      ExtendsChains(r, answered, longer);
    }
  }

  lemma CanFail(cfg: Config, r: Run) returns (longer: Run)
    requires IsRun(cfg, r) && Last(r).row.progress.operation != FinalizeInventory
    ensures IsRun(cfg, longer) && Extends(r, longer)
    ensures Last(longer).row.progress.status == FailedOrder
  {
    hide Ok, Extends;
    CoherentLast(cfg, r);
    var turned := r;
    ExtendsItself(r);
    if Last(r).row.progress.status !in {Compensating, FailedOrder} {
      var running := Restart(cfg, r);
      var v;
      turned, v := Answer(cfg, running, Failed(RejectionOf(Last(running).row.progress.operation).value));
      ExtendsChains(r, running, turned);
    }
    longer := CanUndo(cfg, turned);
    ExtendsChains(r, turned, longer);
  }

  ghost predicate CanEnd(cfg: Config, r: Run, status: Status) {
    exists longer :: IsRun(cfg, longer) && Extends(r, longer) && Last(longer).row.progress.status == status
  }

  lemma EndsFollow(cfg: Config, r: Run, longer: Run)
    requires IsRun(cfg, r) && IsRun(cfg, longer) && Extends(r, longer)
    ensures NoReturn(Last(r).row.progress, Last(longer).row.progress)
  {
    RunsNeverGoBack(cfg, longer, |r.slices| - 1, |longer.slices| - 1);
  }

  /** As far as the orchestrator alone decides, under answers of any kind: from every reachable slice,
      pending, running, compensating or flagged, the saga can still complete exactly while no
      compensation has begun, and can still fail exactly before it reaches its finalization. What
      the participants already decided may leave fewer ends open. */
  lemma OpenEnds(cfg: Config, r: Run)
    requires IsRun(cfg, r)
    ensures CanEnd(cfg, r, CompletedOrder) <==> Last(r).row.progress.status !in {Compensating, FailedOrder}
    ensures CanEnd(cfg, r, FailedOrder) <==> Last(r).row.progress.operation != FinalizeInventory
  {
    hide Ok, Extends;
    CoherentLast(cfg, r);
    var p := Last(r).row.progress;
    forall longer | IsRun(cfg, longer) && Extends(r, longer)
      ensures NoReturn(p, Last(longer).row.progress) && Coherent(Last(longer).row.progress)
    {
      EndsFollow(cfg, r, longer);
      CoherentLast(cfg, longer);
    }
    if p.status !in {Compensating, FailedOrder} {
      var longer := CanComplete(cfg, r);
    }
    if p.operation != FinalizeInventory {
      var longer := CanFail(cfg, r);
    }
  }
}
