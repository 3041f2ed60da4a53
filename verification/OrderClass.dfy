/** The synchronous engine: `OrderService` with its loops over a command transport
    (services/order-orchestrator/src/orders/service.ts). The session lock admits one run per
    order, so the object below is one order's saga; the transport answers anything, nothing, or
    something that does not match. */
module OrderClass {
  import opened Contracts
  import opened StateMachine
  import opened Broker
  import opened BrokerInvariant

  type Transport = (nat, Command) -> Option<Result>

  /** What the engine makes of the transport's reply to call `k`: a reply that does not match its
      command counts as UNKNOWN, like none at all. */
  function Heard(transport: Transport, k: nat, c: Command): Result {
    ResultFor(c, match transport(k, c)
                 case Some(r) => if r == ResultFor(c, r.outcome) then r.outcome else Unknown
                 case None => Unknown)
  }

  // ---------- What the log says ----------

  /** The results a log records, in order. */
  function Results(log: seq<Entry>): seq<Result> {
    if log == [] then []
    else
      var last := log[|log| - 1];
      Results(log[..|log| - 1]) + if last.result.Some? then [last.result.value] else []
  }

  /** An entry records what its result justifies: a step is completed or compensated by the success
      of its own operation, and the saga turns back only on that operation's own rejection. */
  predicate Justified(e: Entry) {
    match e.event
    case StepSucceeded =>
      && e.result.Some? && e.result.value.outcome.Succeeded?
      && IsForward(e.result.value.operation) && e.result.value.operation != FinalizeInventory
      && StepFor(e.result.value.operation) == e.step
    case CompensationSucceeded =>
      e.result.Some? && e.result.value.outcome.Succeeded? && e.result.value.operation == ReverseOf(e.step)
    case OrderCompleted =>
      e.result.Some? && e.result.value.outcome.Succeeded? && e.result.value.operation == FinalizeInventory
    case StepRejected =>
      && e.result.Some? && e.result.value.outcome.Failed?
      && (e.to == InProgress <==> !IsRejection(e.result.value.operation, e.result.value.outcome.code))
    case FinalizationRejected =>
      && e.result.Some? && e.result.value.outcome.Failed? && e.result.value.operation == FinalizeInventory
      && e.to == InProgress
    case RetryRequired => e.result.Some? && e.result.value.outcome.Unknown?
    case CompensationRetryRequired => e.result.Some? && !e.result.value.outcome.Succeeded?
    case OrderAccepted => e.result.None?
    case CommandDispatched => e.result.None?
    case CompensationDispatched => e.result.None?
    case CompensationCompleted => e.result.None?
    case _ => false
  }

  /** Each progress the saga went through has the status and the steps its entry of the log tells. */
  predicate Anchored(log: seq<Entry>, history: seq<Progress>) {
    && |history| == |log|
    && forall i :: 0 <= i < |log| ==>
         && log[i].to == history[i].status
         && Replay(log[..i + 1]) == (history[i].completed, history[i].compensated)
  }

  /** The saga as the synchronous engine keeps it: no message is ever pending, its log is faithful
      and justified, and it reached its progress by abstract steps, one for each entry. */
  predicate SagaOk(saga: Row, log: seq<Entry>, history: seq<Progress>) {
    && saga.pending.None? && saga.reason.None?
    && FaithfulLog(Slice(saga, log, map[], map[]))
    && Coherent(saga.progress)
    && history != [] && history[|history| - 1] == saga.progress && StepsOnly(history)
    && Anchored(log, history)
    && forall i :: 0 <= i < |log| ==> Justified(log[i])
  }

  // ---------- One committed transition ----------

  function Logged(
    saga: Row, row: Row, event: EventKind, result: Option<Result>, direction: Direction, step: SagaStep
  ): Entry {
    Entry(saga.version + 1, Some(saga.progress.status), row.progress.status, step, direction, event, None, None, result)
  }

  /** A patch the engine commits: an abstract step, logged as what it is. */
  predicate Allowed(
    saga: Row, row: Row, event: EventKind, result: Option<Result>, direction: Direction, step: SagaStep
  ) {
    && row == saga.(progress := row.progress, attempts := row.attempts, lease := row.lease,
                    lastResult := row.lastResult, nextAttemptAt := row.nextAttemptAt)
    && AbstractStep(saga.progress, row.progress)
    && row.attempts == saga.attempts + (if IsDispatch(event) then 1 else 0)
    && row.progress.completed == saga.progress.completed + (if event == StepSucceeded then [step] else [])
    && row.progress.compensated == saga.progress.compensated + (if event == CompensationSucceeded then [step] else [])
    && Justified(Logged(saga, row, event, result, direction, step))
  }

  lemma AnchorHolds(log: seq<Entry>, history: seq<Progress>, e: Entry, p: Progress)
    requires Anchored(log, history) && e.to == p.status && Replay(log + [e]) == (p.completed, p.compensated)
    ensures Anchored(log + [e], history + [p])
  {
    forall i | 0 <= i < |log + [e]|
      ensures Replay((log + [e])[..i + 1]) == ((history + [p])[i].completed, (history + [p])[i].compensated)
    {
      if i < |log| {
        assert (log + [e])[..i + 1] == log[..i + 1];
      } else {
        assert (log + [e])[..i + 1] == log + [e];
      }
    }
  }

  lemma SagaMoves(
    saga: Row, log: seq<Entry>, history: seq<Progress>, row: Row, event: EventKind,
    result: Option<Result>, direction: Direction, step: SagaStep)
    requires SagaOk(saga, log, history) && Allowed(saga, row, event, result, direction, step)
    ensures
      var e := Logged(saga, row, event, result, direction, step);
      SagaOk(row.(version := saga.version + 1), log + [e], history + [row.progress])
  {
    hide FaithfulLog, AbstractStep, Coherent, Anchored, Justified;
    var d := Slice(saga, log, map[], map[]);
    var e := Logged(saga, row, event, result, direction, step);
    SaveKeepsLog(d, saga, row, event, result, direction, step);
    AbstractStepKeepsCoherence(saga.progress, row.progress);
    var d' := Slice(row.(version := saga.version + 1), log + [e], map[], map[]);
    assert Save(d, saga, row, event, result, direction, step) == d';
    FaithfulReplay(d');
    AnchorHolds(log, history, e, row.progress);
  }

  lemma FaithfulReplay(d: Slice)
    requires FaithfulLog(d)
    ensures Replay(d.log) == (d.row.progress.completed, d.row.progress.compensated)
  {
  }

  lemma ResultsGrow(log: seq<Entry>, e: Entry)
    ensures Results(log + [e]) == Results(log) + if e.result.Some? then [e.result.value] else []
  {
    assert (log + [e])[..|log|] == log;
  }

  /** An accepted saga, with its one entry. */
  lemma FirstEntry(saga: Row, e: Entry)
    requires saga.pending.None? && saga.reason.None? && saga.version == 1 && saga.attempts == 0
    requires saga.progress == Progress(saga.progress.status, ChargePayment, PaymentStep, [], [], false)
    requires saga.progress.status in {PendingPayment, InProgress}
    requires e == Entry(1, None, saga.progress.status, PaymentStep, ForwardDirection, OrderAccepted, None, None, None)
    ensures SagaOk(saga, [e], [saga.progress]) && Results([e]) == []
  {
    LogGrows([], e);
    ResultsGrow([], e);
    assert [] + [e] == [e] && [e][..1] == [e];
  }

  // ---------- The patches ----------

  lemma CursorHolds(saga: Row, log: seq<Entry>, history: seq<Progress>)
    requires SagaOk(saga, log, history)
    ensures var p := saga.progress;
      && Coherent(p)
      && (p.status == Compensating ==>
            && NextCompensation(p) != Inconsistent
            && (NextCompensation(p).Next? <==> |p.compensated| < |p.completed|)
            && |p.compensated| <= |p.completed| <= 2)
  {
    hide FaithfulLog, Anchored, Justified, StepsOnly;
    CoherentCursor(saga.progress);
  }

  lemma UndoAllowed(saga: Row, row: Row, result: Result, step: SagaStep)
    requires Coherent(saga.progress)
    requires NextCompensation(saga.progress) == Next(result.operation, step) && result.outcome.Succeeded?
    requires row == saga.(progress := saga.progress.(compensated := saga.progress.compensated + [step]), lease := None,
                          lastResult := row.lastResult, nextAttemptAt := row.nextAttemptAt)
    ensures Allowed(saga, row, CompensationSucceeded, Some(result), CompensationDirection, step)
  {
    CoherentCursor(saga.progress);
  }

  lemma GiveUpAllowed(saga: Row)
    requires Coherent(saga.progress) && NextCompensation(saga.progress).Finished?
    ensures
      var row := saga.(progress := saga.progress.(status := FailedOrder), lease := None);
      Allowed(saga, row, CompensationCompleted, None, CompensationDirection, saga.progress.step)
  {
    CoherentCursor(saga.progress);
  }

  lemma CompleteAllowed(saga: Row, row: Row, result: Result)
    requires saga.progress.status == InProgress && saga.progress.operation == FinalizeInventory
    requires result.operation == FinalizeInventory && result.outcome.Succeeded?
    requires row == saga.(progress := saga.progress.(status := CompletedOrder, finalized := true), lease := None,
                          lastResult := row.lastResult)
    ensures Allowed(saga, row, OrderCompleted, Some(result), ForwardDirection, saga.progress.step)
  {
    assert saga.progress.completed + [] == saga.progress.completed;
    assert saga.progress.compensated + [] == saga.progress.compensated;
  }

  lemma AdvanceAllowed(saga: Row, row: Row, result: Result)
    requires var p := saga.progress;
      && p.status == InProgress && IsForward(p.operation) && p.operation != FinalizeInventory
      && p.step == StepFor(p.operation)
      && result.operation == p.operation && result.outcome.Succeeded?
      && row == saga.(progress := p.(completed := p.completed + [p.step], operation := NextForward(p.operation),
                                     step := StepFor(NextForward(p.operation))),
                      lease := None, lastResult := row.lastResult, nextAttemptAt := row.nextAttemptAt)
    ensures Allowed(saga, row, StepSucceeded, Some(result), ForwardDirection, saga.progress.step)
  {
    assert saga.progress.compensated + [] == saga.progress.compensated;
  }

  /** An attempt is leased; the progress stays. */
  lemma AttemptAllowed(saga: Row, row: Row, direction: Direction, step: SagaStep)
    requires row == saga.(attempts := saga.attempts + 1, lease := row.lease)
    ensures Allowed(saga, row, DispatchEvent(direction), None, direction, step)
  {
    assert saga.progress.completed + [] == saga.progress.completed;
    assert saga.progress.compensated + [] == saga.progress.compensated;
  }

  function DispatchEvent(direction: Direction): EventKind {
    if direction == CompensationDirection then CompensationDispatched else CommandDispatched
  }

  /** A call did not succeed; the progress stays. */
  lemma RetryAllowed(saga: Row, row: Row, result: Result, step: SagaStep)
    requires row == saga.(lease := None, lastResult := row.lastResult, nextAttemptAt := row.nextAttemptAt)
    ensures !result.outcome.Succeeded? ==>
      Allowed(saga, row, CompensationRetryRequired, Some(result), CompensationDirection, step)
    ensures result.outcome.Unknown? ==> Allowed(saga, row, RetryRequired, Some(result), ForwardDirection, step)
  {
    assert saga.progress.completed + [] == saga.progress.completed;
    assert saga.progress.compensated + [] == saga.progress.compensated;
  }

  /** The status a refused forward operation leads to. */
  function StatusAfter(p: Progress, code: FailureCode): Status {
    if !IsRejection(p.operation, code) then InProgress else if p.completed == [] then FailedOrder else Compensating
  }

  lemma RefusalAllowed(saga: Row, row: Row, result: Result, event: EventKind)
    requires saga.progress.status == InProgress && result.outcome.Failed? && result.operation == saga.progress.operation
    requires event == if result.operation == FinalizeInventory then FinalizationRejected else StepRejected
    requires row == saga.(progress := saga.progress.(status := StatusAfter(saga.progress, result.outcome.code)),
                          lease := None, lastResult := row.lastResult)
    ensures Allowed(saga, row, event, Some(result), ForwardDirection, saga.progress.step)
  {
    assert saga.progress.completed + [] == saga.progress.completed;
    assert saga.progress.compensated + [] == saga.progress.compensated;
  }

  // ---------- Where a run leads ----------

  /** A longer history leads on from where the shorter one ended. */
  lemma HistoryLeads(before: seq<Progress>, after: seq<Progress>)
    requires before != [] && before <= after && StepsOnly(after)
    ensures Leads(after[|before| - 1..], before[|before| - 1], after[|after| - 1])
  {
    var path := after[|before| - 1..];
    forall i | 0 <= i < |path| - 1 ensures AbstractStep(path[i], path[i + 1]) {
      assert AbstractStep(after[|before| - 1 + i], after[|before| - 1 + i + 1]);
    }
  }

  class OrderSaga {
    const transport: Transport
    var saga: Row
    var log: seq<Entry>
    var calls: nat
    ghost var history: seq<Progress>
    ghost var heard: seq<Result>
    ghost var asked: seq<Command>

    /** `accept` for a new order, without the broker's first dispatch. */
    constructor (transport: Transport, id: Uuid, orderId: Uuid, payload: OrderPayload, now: nat)
      ensures Valid() && AtRest() && saga.progress.completed == [] && calls == 0
      ensures saga.id == id && saga.orderId == orderId && saga.payload == payload
      ensures saga.progress.status == if payload.paymentMethod == BankTransfer then PendingPayment else InProgress
    {
      this.transport := transport;
      var status := if payload.paymentMethod == BankTransfer then PendingPayment else InProgress;
      var progress := Progress(status, ChargePayment, PaymentStep, [], [], false);
      saga := Row(id, orderId, payload, progress, None, None, now, 0, 0, 0, None, None, None, 1);
      log := [Entry(1, None, status, PaymentStep, ForwardDirection, OrderAccepted, None, None, None)];
      calls, history, heard, asked := 0, [progress], [], [];
      new;
      FirstEntry(saga, log[0]);
    }

    /** A command of this saga, under its own key, that asks for exactly what was ordered. */
    ghost predicate Own(c: Command)
      reads this
    {
      && c.orderId == saga.orderId && c.sagaId == saga.id && c.key == SagaKey(saga.id, c.operation)
      && Carries(c, saga.payload)
    }

    /** Besides the saga itself: every call asked for what was ordered, every result heard is what
        the transport said to it, and the log records them in the order they were heard. */
    ghost predicate Valid()
      reads this
    {
      && SagaOk(saga, log, history)
      && |heard| == |asked| == calls && Results(log) <= heard
      && forall k :: 0 <= k < calls ==> Own(asked[k]) && heard[k] == Heard(transport, k, asked[k])
    }

    /** No result is waiting to be recorded. */
    ghost predicate AtRest()
      reads this
    {
      Results(log) == heard
    }

    /** The saga moved on by at most so many committed transitions and so many calls. */
    twostate predicate Within(moves: int, attempts: int)
      reads this
    {
      && old(log) <= log && |log| <= |old(log)| + moves
      && old(history) <= history
      && old(heard) <= heard && old(asked) <= asked && old(calls) <= calls <= old(calls) + attempts
      && saga.id == old(saga.id) && saga.orderId == old(saga.orderId) && saga.payload == old(saga.payload)
    }

    /** The new progress is reached from the old one by abstract steps, so it never goes back. */
    twostate predicate Refines()
      reads this
    {
      && old(history) != [] && old(history) <= history
      && Leads(history[|old(history)| - 1..], old(saga.progress), saga.progress)
      && NoReturn(old(saga.progress), saga.progress)
    }

    /** The outcome reported is that of the last call, if there was one. */
    twostate predicate Reports(last: Outcome)
      reads this
    {
      calls > old(calls) ==> |heard| > 0 && last == heard[|heard| - 1].outcome
    }

    /** No attempt is left open: the lease is given back, the last answer is kept, and after an answer
        that says nothing the next attempt is a second away. */
    twostate predicate Closes(last: Outcome, now: nat)
      reads this
    {
      calls > old(calls) ==>
        && saga.lease.None? && |heard| > 0 && saga.lastResult == Some(heard[|heard| - 1])
        && (last.Unknown? ==> saga.nextAttemptAt == now + 1000)
    }

    twostate lemma RunsRefine()
      requires old(Valid()) && Valid() && old(history) <= history
      ensures Refines()
    {
      hide FaithfulLog, Anchored, Justified, NoReturn, Coherent;
      HistoryLeads(old(history), history);
      PathsNeverGoBack(history[|old(history)| - 1..], old(saga.progress), saga.progress);
    }

    method Call(c: Command) returns (outcome: Outcome)
      modifies this`calls, this`heard, this`asked
      ensures calls == old(calls) + 1 && heard == old(heard) + [ResultFor(c, outcome)] && asked == old(asked) + [c]
      ensures ResultFor(c, outcome) == Heard(transport, old(calls), c)
    {
      var reply := transport(calls, c);
      calls, asked := calls + 1, asked + [c];
      outcome := Unknown;
      if reply.Some? {
        var r := reply.value;
        if r.operation == c.operation && r.orderId == c.orderId && r.sagaId == c.sagaId && r.key == c.key {
          outcome := r.outcome;
        }
      }
      heard := heard + [ResultFor(c, outcome)];
    }

    /** One committed transition, if the row still has the version that was read. A result is
        recorded when it is the next one heard. */
    method Transition(
      read: Row, row: Row, event: EventKind, result: Option<Result>, direction: Direction, step: SagaStep
    ) returns (ok: bool)
      requires Valid() && read == saga && Allowed(saga, row, event, result, direction, step)
      requires if result.Some? then Results(log) + [result.value] == heard else AtRest()
      modifies this`saga, this`log, this`history
      ensures ok && Valid() && AtRest() && saga == row.(version := read.version + 1)
      ensures log == old(log) + [Logged(read, row, event, result, direction, step)]
      ensures history == old(history) + [row.progress]
    {
      hide SagaOk, Justified, Results;
      if saga.version != read.version { return false; }
      SagaMoves(saga, log, history, row, event, result, direction, step);
      ResultsGrow(log, Logged(read, row, event, result, direction, step));
      saga := row.(version := read.version + 1);
      log := log + [Logged(read, row, event, result, direction, step)];
      history := history + [row.progress];
      ok := true;
    }

    /** Leases the saga, commits the attempt, and calls; the result is still to be recorded. */
    method Attempt(operation: Operation, step: SagaStep, direction: Direction, now: nat) returns (result: Result)
      requires Valid() && AtRest()
      modifies this
      ensures Valid() && Within(1, 1) && calls == old(calls) + 1
      ensures Results(log) + [result] == heard
      ensures saga.progress == old(saga.progress)
      ensures asked == old(asked) + [asked[|asked| - 1]] && asked[|asked| - 1].operation == operation
      ensures result.operation == operation
    {
      hide SagaOk, Allowed, Results, Heard, Carries;
      var command := BuildCommand(operation, saga.orderId, saga.id, saga.payload);
      BuiltCarries(operation, saga.orderId, saga.id, saga.payload);
      var row := saga.(attempts := saga.attempts + 1, lease := Some(Lease(now, now + 60000)));
      AttemptAllowed(saga, row, direction, step);
      assert row == row.(id := saga.id, orderId := saga.orderId, payload := saga.payload);
      var ok := Transition(saga, row, DispatchEvent(direction), None, direction, step);
      var outcome := Call(command);
      result := ResultFor(command, outcome);
    }

    // ---------- Compensation ----------

    ghost function Left(): int
      reads this
    {
      |saga.progress.completed| - |saga.progress.compensated|
    }

    /** Undoes one step after the other until nothing is left, or an undo does not succeed. The
        cursor never throws, and each undone step was answered by the transport. */
    method Compensate(now: nat) returns (ok: bool, last: Outcome)
      requires Valid() && AtRest() && saga.progress.status == Compensating
      modifies this
      ensures Valid() && AtRest() && Within(2 * old(Left()) + 1, old(Left()))
      ensures Reports(last) && Closes(last, now) && (old(Left()) > 0 ==> calls > old(calls))
      ensures ok && (saga.progress.status == FailedOrder || (calls > old(calls) && !last.Succeeded?))
      ensures Refines()
    {
      hide NextCompensation, SagaOk, Coherent, Allowed, Results, Heard;
      ok, last := true, Unknown;
      CursorHolds(saga, log, history);
      var more := true;
      while more
        invariant Valid() && AtRest() && Reports(last) && Closes(last, now)
        invariant calls > old(calls) || last.Unknown?
        invariant more ==> calls - old(calls) == old(Left()) - Left()
        invariant !more && old(Left()) > 0 ==> calls > old(calls)
        invariant more ==> saga.progress.status == Compensating
        invariant more ==> 0 <= Left() <= old(Left())
        invariant more ==> Within(2 * (old(Left()) - Left()), old(Left()) - Left())
        invariant !more ==> Within(2 * old(Left()) + 1, old(Left()))
        invariant !more ==> ok && (saga.progress.status == FailedOrder || (calls > old(calls) && !last.Succeeded?))
        decreases more, Left()
      {
        ok, last, more := UndoNext(last, now);
      }
      RunsRefine();
    }

    /** One round of the loop; `more` when another step may be undone. */
    method UndoNext(before: Outcome, now: nat) returns (ok: bool, last: Outcome, more: bool)
      requires Valid() && AtRest() && saga.progress.status == Compensating
      modifies this
      ensures Valid() && AtRest() && ok && Reports(last) && Closes(last, now) && saga.lease.None?
      ensures
        if old(Left()) > 0 then calls == old(calls) + 1
        else
          && calls == old(calls) && heard == old(heard) && last == before
          && saga.lastResult == old(saga.lastResult) && saga.nextAttemptAt == old(saga.nextAttemptAt)
      ensures more ==> Within(2, 1) && saga.progress.status == Compensating && 0 <= Left() == old(Left()) - 1
      ensures !more ==> Within(if saga.progress.status == FailedOrder then 1 else 2, old(Left()))
      ensures !more ==> saga.progress.status == FailedOrder || (calls > old(calls) && !last.Succeeded?)
    {
      hide NextCompensation, SagaOk, Coherent, Allowed, Results, Heard;
      CursorHolds(saga, log, history);
      more, last := false, before;
      var next := NextCompensation(saga.progress);
      if next.Inconsistent? { return false, last, more; }
      if next.Finished? {
        GiveUpAllowed(saga);
        var row := saga.(progress := saga.progress.(status := FailedOrder), lease := None);
        ok := Transition(saga, row, CompensationCompleted, None, CompensationDirection, saga.progress.step);
        return;
      }
      var result := Attempt(next.operation, next.step, CompensationDirection, now);
      last := result.outcome;
      CursorHolds(saga, log, history);
      var common := saga.(lease := None, lastResult := Some(result));
      if !last.Succeeded? {
        var row := common.(nextAttemptAt := now + 1000);
        RetryAllowed(saga, row, result, next.step);
        ok := Transition(saga, row, CompensationRetryRequired, Some(result), CompensationDirection, next.step);
        return;
      }
      var compensated := saga.progress.compensated + [next.step];
      var row := common.(progress := saga.progress.(compensated := compensated), nextAttemptAt := now);
      UndoAllowed(saga, row, result, next.step);
      ok := Transition(saga, row, CompensationSucceeded, Some(result), CompensationDirection, next.step);
      more := true;
    }

    // ---------- Forward execution ----------

    /** One forward operation; `more` when the next one may be tried in the same run. */
    method Forward(now: nat) returns (ok: bool, last: Outcome, more: bool)
      requires Valid() && AtRest() && saga.progress.status == InProgress
      modifies this
      ensures IsForward(old(saga.progress.operation)) && Valid() && AtRest() && ok
      ensures Reports(last) && Closes(last, now) && calls > old(calls)
      ensures more ==> Within(2, 1) && saga.progress.status == InProgress
      ensures more ==> old(saga.progress.operation) != FinalizeInventory
      ensures more ==> saga.progress.operation == NextForward(old(saga.progress.operation))
      ensures !more ==> Terminal(saga.progress.status) || (calls > old(calls) && !last.Succeeded?)
      ensures
        var operation := old(saga.progress.operation);
        var undo := if operation == FinalizeInventory then 0 else ForwardIndex(operation);
        !more ==> Within(2 * undo + 3, undo + 1)
      ensures Refines()
    {
      hide SagaOk, Allowed, Results, Heard;
      CursorHolds(saga, log, history);
      var p := saga.progress;
      if
        || !IsForward(p.operation)
        || p.completed != ExpectedSteps(p.operation)
        || p.step != StepFor(p.operation)
        || p.finalized
        || p.compensated != []
      { return false, Unknown, false; }
      var result := Attempt(p.operation, p.step, ForwardDirection, now);
      last := result.outcome;
      ok, more := Conclude(result, now);
      if saga.progress.status == Compensating { ok, last := Compensate(now); }
      RunsRefine();
    }

    /** Records the result of a forward operation and moves on accordingly. */
    method Conclude(result: Result, now: nat) returns (ok: bool, more: bool)
      requires Valid() && Results(log) + [result] == heard
      requires saga.progress.status == InProgress && result.operation == saga.progress.operation
      modifies this`saga, this`log, this`history
      ensures IsForward(old(saga.progress.operation)) && Valid() && AtRest() && ok && Within(1, 0)
      ensures more <==> result.outcome.Succeeded? && result.operation != FinalizeInventory
      ensures saga.lease.None? && saga.lastResult == Some(result)
      ensures saga.nextAttemptAt ==
        if result.outcome.Unknown? then now + 1000 else if more then now else old(saga.nextAttemptAt)
      ensures
        var p := old(saga.progress);
        saga.progress ==
          match result.outcome
          case Unknown => p
          case Failed(code) => p.(status := StatusAfter(p, code))
          case Succeeded(_) =>
            if p.operation == FinalizeInventory then p.(status := CompletedOrder, finalized := true)
            else
              var next := NextForward(p.operation);
              p.(completed := p.completed + [p.step], operation := next, step := StepFor(next))
      ensures Left() == |ExpectedSteps(old(saga.progress.operation))| + if more then 1 else 0
    {
      hide SagaOk, Allowed, Results, Heard;
      CursorHolds(saga, log, history);
      var p := saga.progress;
      var common := saga.(lease := None, lastResult := Some(result));
      more := false;
      match result.outcome {
        case Unknown =>
          var row := common.(nextAttemptAt := now + 1000);
          RetryAllowed(saga, row, result, p.step);
          ok := Transition(saga, row, RetryRequired, Some(result), ForwardDirection, p.step);
        case Failed(code) =>
          var rejected :=
            || (p.operation == ChargePayment && code == PaymentDeclined)
            || (p.operation == ReserveInventory && code == InsufficientStock)
            || (p.operation == CreateShipment && code == ShippingRejected);
          var status := if !rejected then InProgress else if p.completed != [] then Compensating else FailedOrder;
          var row := common.(progress := p.(status := status));
          var event := if p.operation == FinalizeInventory then FinalizationRejected else StepRejected;
          RefusalAllowed(saga, row, result, event);
          ok := Transition(saga, row, event, Some(result), ForwardDirection, p.step);
        case Succeeded(_) =>
          if p.operation == FinalizeInventory {
            var row := common.(progress := p.(status := CompletedOrder, finalized := true));
            CompleteAllowed(saga, row, result);
            ok := Transition(saga, row, OrderCompleted, Some(result), ForwardDirection, p.step);
          } else {
            var next := NextForward(p.operation);
            var row := common.(progress := p.(completed := p.completed + [StepFor(p.operation)], operation := next,
                                              step := StepFor(next)),
                               nextAttemptAt := now);
            AdvanceAllowed(saga, row, result);
            ok := Transition(saga, row, StepSucceeded, Some(result), ForwardDirection, p.step);
            more := true;
          }
      }
    }

    /** Forwards for as long as calls succeed, then, after a definite rejection, backwards. One
        run makes at most five calls and commits at most eleven transitions; it moves by abstract
        steps only, each recorded with the answer that justifies it; and it stops only at a
        finished order or at a call that did not succeed. */
    method Run(now: nat) returns (ok: bool, last: Outcome)
      requires Valid() && AtRest()
      modifies this
      ensures Valid() && AtRest() && Within(11, 5) && ok
      ensures Refines() && Reports(last) && Closes(last, now)
      ensures old(saga.progress.status) !in {InProgress, Compensating} ==> unchanged(this)
      ensures old(saga.progress.status) in {InProgress, Compensating} ==>
        Terminal(saga.progress.status) || (calls > old(calls) && !last.Succeeded?)
    {
      hide SagaOk, Coherent, Results, Heard;
      CursorHolds(saga, log, history);
      if saga.progress.status == Compensating {
        ok, last := Compensate(now);
        return;
      }
      RunsRefine();
      if saga.progress.status != InProgress { return true, Unknown; }
      var more := true;
      for remaining := 0 to 4
        invariant Valid() && AtRest() && saga.progress.status == InProgress && Within(2 * remaining, remaining)
        invariant remaining == 0 ==> calls == old(calls)
        invariant remaining > 0 ==>
          IsForward(saga.progress.operation) && remaining <= ForwardIndex(saga.progress.operation)
      {
        ok, last, more := Forward(now);
        if !more {
          RunsRefine();
          return;
        }
      }
      assert false;
    }
  }
}
