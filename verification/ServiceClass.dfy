/** `PaymentService` and its shipping twin as an object that updates its tables in place around a
    provider call (services/payment-service/src/payments/service.ts and
    services/shipping-service/src/shipments/service.ts).

    Each method below is one transaction or one call of `execute`, in the order the code makes
    them, and is proved to be one step of the machine of `Service`, whose runs admit every
    interleaving and every crash. `Execute` strings them together. */
module ServiceClass {
  import opened Contracts
  import opened Provider
  import opened Mailbox
  import opened Service
  import opened ServiceTheorems
  import P = Providers
  import MS = MessageStore

  /** Where `execute` goes next: to another step, back to its caller with an outcome, or out with
      a thrown error. */
  datatype Next = Go(position: Position) | Left(outcome: Outcome) | Threw

  function Reported(answers: set<Return>, message: Option<Uuid>, c: Command, outcome: Outcome): set<Return> {
    if message.Some? then answers + {Return(message.value, c, outcome)} else answers
  }

  /** The receipts when `execute` has taken the lock and ends like this: completed with the outcome,
      or left open for a retry. A refund the provider refused stays open too. */
  predicate ReceiptsEnd(kind: Kind, before: map<Key, Receipt>, after: map<Key, Receipt>, c: Command, next: Next) {
    var completed := before[c.key := Receipt(Fingerprint(c), if next.Left? then Some(next.outcome) else None)];
    var open := before[c.key := Receipt(Fingerprint(c), None)];
    match next
    case Go(_) => after == open
    case Threw => after == open
    case Left(Succeeded(_)) => after == completed
    case Left(Unknown) => after == open
    case Left(Failed(_)) => after == completed || (after == open && c.operation == ReverseOp(kind))
  }

  /** An execution of a well-formed command of this order; only a compensation calls the reverse
      operation. */
  predicate Placed(kind: Kind, o: Uuid, x: Execution) {
    && x.command.orderId == o && WellFormed(kind, x.command)
    && (x.position in {Undoing, AwaitingReverse} ==> x.command.operation == ReverseOp(kind))
    && (x.position.Committing? ==> !x.position.outcome.Unknown?)
  }

  /** UNKNOWN is never recorded as an answer. */
  predicate Decided(receipts: map<Key, Receipt>) {
    forall k | k in receipts :: receipts[k].result != Some(Unknown)
  }

  /** What a step leaves alone while the execution goes on. */
  datatype Controls = Controls(
    receipts: map<Key, Receipt>, executions: map<Uuid, Execution>, answers: set<Return>, mail: Mail)

  /** While the execution goes on, receipts, answers and messages stay; when it ends, the lock is
      free, the caller's answer is reported, and the receipt tells the outcome. */
  predicate Ends(kind: Kind, s: Controls, s': Controls, c: Command, next: Next)
    requires c.orderId in s.executions
  {
    var x := s.executions[c.orderId];
    && (c.key in s.receipts && s.receipts[c.key] == Receipt(Fingerprint(c), None) ==>
          ReceiptsEnd(kind, s.receipts, s'.receipts, c, next))
    && match next
       case Go(position) =>
         && s'.executions == s.executions[c.orderId := x.(position := position)]
         && s'.answers == s.answers && s'.mail == s.mail
       case Left(outcome) =>
         && s'.executions == s.executions - {c.orderId}
         && s'.answers == Reported(s.answers, x.message, c, outcome)
         && (s'.mail == s.mail || (x.message.Some? && s'.mail == Commit(s.mail, x.message.value, c, outcome)))
       case Threw =>
         && s'.executions == s.executions - {c.orderId}
         && s'.answers == s.answers && s'.mail == s.mail
         && x.message.Some? && Altered(s.mail, x.message.value, c)
  }

  lemma AdvanceOpened(kind: Kind, s: State, o: Uuid, mode: Mode, timely: bool)
    requires o in s.executions && s.executions[o].command.orderId == o && s.executions[o].position == Opened
    ensures Service.Advance(kind, s, o, mode, timely) == Open(kind, s, s.executions[o])
  {
  }

  lemma AdvanceCommitting(kind: Kind, s: State, o: Uuid, mode: Mode, timely: bool)
    requires o in s.executions && s.executions[o].command.orderId == o && s.executions[o].position.Committing?
    ensures Service.Advance(kind, s, o, mode, timely)
      == Finalize(kind, s, s.executions[o], s.executions[o].position.outcome)
  {
  }

  /** A step that goes on touches the execution's position only. */
  lemma GoesOn(kind: Kind, s: Controls, c: Command, position: Position)
    requires c.orderId in s.executions
    ensures Ends(kind, s, s.(executions := s.executions[c.orderId := s.executions[c.orderId].(position := position)]),
                 c, Go(position))
  {
    hide Commit, Altered, Reported;
    assert c.key in s.receipts ==> s.receipts[c.key := s.receipts[c.key]] == s.receipts;
  }

  /** The final transaction ends an execution: it throws with everything kept, or completes. */
  lemma CompletionEnds(kind: Kind, s: Controls, c: Command, outcome: Outcome)
    requires c.orderId in s.executions && !outcome.Unknown?
    ensures
      var x := s.executions[c.orderId];
      var left := s.executions - {c.orderId};
      && (x.message.Some? && Altered(s.mail, x.message.value, c) ==> Ends(kind, s, s.(executions := left), c, Threw))
      && Ends(kind, s, Controls(s.receipts[c.key := Receipt(Fingerprint(c), Some(outcome))], left,
                                Reported(s.answers, x.message, c, outcome),
                                if x.message.Some? then Commit(s.mail, x.message.value, c, outcome) else s.mail),
                       c, Left(outcome))
  {
    hide Commit, Altered, Reported;
    assert c.key in s.receipts ==> s.receipts[c.key := s.receipts[c.key]] == s.receipts;
  }

  lemma EndsChain(kind: Kind, s: Controls, s': Controls, s'': Controls, c: Command, position: Position, next: Next)
    requires c.orderId in s.executions && Ends(kind, s, s', c, Go(position))
    requires c.orderId in s'.executions && Ends(kind, s', s'', c, next)
    requires c.key in s.receipts && s.receipts[c.key] == Receipt(Fingerprint(c), None)
    ensures Ends(kind, s, s'', c, next)
    ensures next.Go? ==> c.orderId in s''.executions
    ensures s'.receipts == s.receipts
  {
    hide Commit, Altered, Reported;
    assert s.receipts[c.key := Receipt(Fingerprint(c), None)] == s.receipts;
  }

  /** A completed key is answered by its receipt, which stays. */
  lemma EarlyReceipts(kind: Kind, receipts: map<Key, Receipt>, c: Command, outcome: Outcome)
    ensures c.key in receipts && receipts[c.key] == Receipt(Fingerprint(c), Some(outcome)) && !outcome.Unknown? ==>
      ReceiptsEnd(kind, receipts, receipts, c, Left(outcome))
  {
    if c.key in receipts && receipts[c.key] == Receipt(Fingerprint(c), Some(outcome)) {
      assert receipts[c.key := receipts[c.key]] == receipts;
    }
  }

  /** From the opened receipt to the end, as the caller of `execute` sees it. */
  lemma Returned(
    kind: Kind, receipts: map<Key, Receipt>, executions: map<Uuid, Execution>, s: Controls, s': Controls, c: Command,
      next: Next)
    requires c.orderId !in executions && c.orderId in s.executions
    requires s.executions == executions[c.orderId := s.executions[c.orderId]]
    requires s.receipts == receipts[c.key := Receipt(Fingerprint(c), None)]
    requires Ends(kind, s, s', c, next) && !next.Go?
    ensures s'.executions == executions && ReceiptsEnd(kind, receipts, s'.receipts, c, next)
    ensures s'.answers == if next.Left? then Reported(s.answers, s.executions[c.orderId].message, c, next.outcome)
      else s.answers
    ensures next.Threw? ==>
      && s'.mail == s.mail && s.executions[c.orderId].message.Some?
      && Altered(s.mail, s.executions[c.orderId].message.value, c)
    ensures next.Left? ==>
      || s'.mail == s.mail
      || (&& s.executions[c.orderId].message.Some?
          && s'.mail == Commit(s.mail, s.executions[c.orderId].message.value, c, next.outcome))
  {
    hide Commit, Altered, Reported;
    assert s.executions - {c.orderId} == executions;
    var open, completed := Receipt(Fingerprint(c), None),
      Receipt(Fingerprint(c), if next.Left? then Some(next.outcome) else None);
    assert s.receipts[c.key := open] == receipts[c.key := open];
    assert s.receipts[c.key := completed] == receipts[c.key := completed];
  }

  lemma TraceGrows(kind: Kind, r: Run, e: Event, s: State)
    requires IsTrace(kind, r) && Possible(kind, r.states[|r.states| - 1], e)
    requires s == Step(kind, r.states[|r.states| - 1], e)
    ensures IsTrace(kind, Run(r.states + [s], r.events + [e]))
  {
    hide Step, Possible;
  }

  class ProviderService {
    const kind: Kind
    const provider: P.LocalProvider
    const store: MS.Store
    var receipts: map<Key, Receipt>
    var effects: map<Uuid, Effect>
    var undos: map<Uuid, Undo>
    var locks: set<Uuid>
    ghost var issued: set<Command>
    ghost var executions: map<Uuid, Execution>
    ghost var answers: set<Return>

    constructor (kind: Kind, mode: Mode)
      ensures this.kind == kind && Valid() && Abstract() == EMPTY && fresh(provider) && fresh(store)
    {
      this.kind := kind;
      provider := new P.LocalProvider(kind, mode);
      store := new MS.Store();
      receipts, effects, undos, locks := map[], map[], map[], {};
      issued, executions, answers := {}, map[], {};
    }

    ghost predicate Valid()
      reads this
    {
      && provider.kind == kind
      && locks == executions.Keys && Decided(receipts)
      && forall o | o in executions :: Placed(kind, o, executions[o])
    }

    ghost function Abstract(): State
      reads this, provider, store
    {
      State(receipts, effects, undos, provider.Value(), issued, executions, answers, store.Value())
    }

    ghost function Control(): Controls
      reads this, store
    {
      Controls(receipts, executions, answers, store.Value())
    }

    // ---------- The session lock ----------

    ghost method Report(message: Option<Uuid>, c: Command, outcome: Outcome)
      modifies this`answers
      ensures answers == Reported(old(answers), message, c, outcome)
    {
      if message.Some? { answers := answers + {Return(message.value, c, outcome)}; }
    }

    /** Returning to the caller, or dying, gives the lock back. */
    method Unlock(o: Uuid)
      requires Valid()
      modifies this`locks, this`executions
      ensures Valid() && executions == old(executions) - {o}
    {
      locks := locks - {o};
      executions := executions - {o};
    }

    ghost method Advance(x: Execution, position: Position)
      requires Valid() && x.command.orderId in executions && Placed(kind, x.command.orderId, x.(position := position))
      modifies this`executions
      ensures Valid() && executions == old(executions)[x.command.orderId := x.(position := position)]
    {
      executions := executions[x.command.orderId := x.(position := position)];
      assert executions.Keys == old(executions).Keys;
    }

    // ---------- The receipt ----------

    /** Takes the lock and inserts the receipt; the answer, if the execution ends here. */
    method Begin(message: Option<Uuid>, c: Command) returns (early: Option<Outcome>)
      requires Valid() && WellFormed(kind, c)
      modifies this
      ensures Valid() && Abstract() == Service.Begin(old(Abstract()), message, c)
      ensures early.None? ==> c.orderId !in old(executions) && c.orderId in executions
      ensures early.None? ==>
        executions == old(executions)[c.orderId := Execution(message, c, Get(effects, c.orderId),
                                                             Get(undos, c.orderId), Opened)]
      ensures early.None? ==>
        receipts == old(receipts)[c.key := Receipt(Fingerprint(c), None)] && answers == old(answers)
      ensures early.Some? ==> executions == old(executions) && receipts == old(receipts)
      ensures early.Some? ==> answers == Reported(old(answers), message, c, early.value)
      ensures early.Some? ==>
        early.value ==
          if c.orderId in old(locks) then Unknown
          else if c.key in receipts && receipts[c.key].content == Fingerprint(c) && receipts[c.key].result.Some?
          then receipts[c.key].result.value
          else Failed(IdempotencyConflict)
      ensures early == Some(Failed(IdempotencyConflict)) ==> c.key in receipts
      ensures undos == old(undos)
    {
      if c.orderId in locks {
        Report(message, c, Unknown);
        return Some(Unknown);
      }
      var inserted := c.key !in receipts;
      if inserted { receipts := receipts[c.key := Receipt(Fingerprint(c), None)]; }
      var receipt := receipts[c.key];
      if receipt.content != Fingerprint(c) {
        Report(message, c, Failed(IdempotencyConflict));
        return Some(Failed(IdempotencyConflict));
      }
      if receipt.result.Some? {
        Report(message, c, receipt.result.value);
        return Some(receipt.result.value);
      }
      assert receipts == old(receipts)[c.key := Receipt(Fingerprint(c), None)];
      locks := locks + {c.orderId};
      executions := executions[c.orderId := Execution(message, c, Get(effects, c.orderId), Get(undos, c.orderId),
                                                      Opened)];
      early := None;
    }

    // ---------- The rows ----------

    /** The execution of the command is at this point of the code. */
    ghost predicate IsAt(message: Option<Uuid>, c: Command, payment: Option<Effect>, refund: Option<Undo>,
                         position: Position)
      reads this
    {
      Valid() && c.orderId in executions && executions[c.orderId] == Execution(message, c, payment, refund, position)
    }

    /** This step of the code is this step of the machine. While it goes on, receipts, answers and
        messages stay; when it ends, the lock is free, the caller's answer is reported, and the
        receipt tells the outcome. */
    twostate predicate Steps(c: Command, timely: bool, next: Next)
      reads this, provider, store
    {
      && old(Valid()) && Valid() && c.orderId in old(executions)
      && Abstract() == Service.Advance(kind, old(Abstract()), c.orderId, provider.mode, timely)
      && Ends(kind, old(Control()), Control(), c, next)
    }

    method OpenForward(message: Option<Uuid>, c: Command, payment: Option<Effect>, refund: Option<Undo>, foreign: bool)
      returns (next: Next)
      requires IsAt(message, c, payment, refund, Opened) && payment == Get(effects, c.orderId)
      requires c.operation == ForwardOp(kind) && (foreign <==> OtherSaga(executions[c.orderId]))
      modifies this`effects, this`executions
      ensures Steps(c, true, next) && (next == Go(Resolving) ==> c.orderId in effects)
      ensures next.Go? && (next.position == Resolving || next.position.Committing?)
    {
      if foreign {
        next := Go(Committing(Failed(IdempotencyConflict)));
      } else if payment.Some? && payment.value.details != c.payload {
        next := Go(Committing(Failed(IdempotencyConflict)));
      } else if refund.Some? || (payment.Some? && payment.value.status == UndoneEffect) {
        next := Go(Committing(Failed(AlreadyCompensated)));
      } else {
        if payment.None? {
          effects := effects[c.orderId := Effect(c.sagaId, c.payload, PendingEffect, None, None)];
        }
        next := Go(Resolving);
      }
      Advance(executions[c.orderId], next.position);
    }

    /** A compensation for another saga's order is refused, and no receipt is completed. */
    method RefuseReverse(message: Option<Uuid>, c: Command, payment: Option<Effect>, refund: Option<Undo>)
      requires IsAt(message, c, payment, refund, Opened) && c.operation == ReverseOp(kind)
      requires OtherSaga(executions[c.orderId])
      modifies this`executions, this`answers, this`locks
      ensures Steps(c, true, Left(Failed(IdempotencyConflict)))
    {
      Report(message, c, Failed(IdempotencyConflict));
      Unlock(c.orderId);
    }

    method OpenReverse(message: Option<Uuid>, c: Command, payment: Option<Effect>, refund: Option<Undo>)
      returns (position: Position)
      requires IsAt(message, c, payment, refund, Opened) && payment == Get(effects, c.orderId)
      requires c.operation == ReverseOp(kind) && !OtherSaga(executions[c.orderId])
      modifies this`undos, this`executions
      ensures Steps(c, true, Go(position)) && (position == Resolving ==> c.orderId in effects)
      ensures StillPending(c, old(undos))
      ensures position in {Resolving, Undoing} || position.Committing?
    {
      hide Ends, ReverseStart, Service.Advance, Decided;
      ghost var x := executions[c.orderId];
      AdvanceOpened(kind, Abstract(), c.orderId, provider.mode, true);
      if c.orderId !in undos { undos := undos[c.orderId := Undo(c.sagaId, payment.Some?, PendingUndo)]; }
      position := StartReverse(payment, refund, x);
      GoesOn(kind, old(Control()), c, position);
      Advance(x, position);
    }

    /** Where a compensation begins, judged by the rows as first read. */
    static method StartReverse(payment: Option<Effect>, refund: Option<Undo>, ghost x: Execution)
        returns (position: Position)
      requires x.effect == payment && x.undo == refund
      ensures position == ReverseStart(x)
      ensures position == Resolving ==> payment.Some?
      ensures position in {Resolving, Undoing} || (position.Committing? && !position.outcome.Unknown?)
    {
      if refund.Some? && refund.value.status == UndoneUndo {
        position := Committing(Succeeded(Undone));
      } else if refund.Some? && refund.value.status == NoopUndo {
        position := Committing(Succeeded(Noop));
      } else if payment.Some? && payment.value.status == PendingEffect {
        position := Resolving;
      } else if payment.None? || payment.value.status == FailedEffect || payment.value.status == OnDelivery {
        position := Committing(Succeeded(Noop));
      } else {
        position := Undoing;
      }
    }

    /** The branches on the rows as first read. */
    method OpenRows(message: Option<Uuid>, c: Command, payment: Option<Effect>, refund: Option<Undo>)
        returns (next: Next)
      requires IsAt(message, c, payment, refund, Opened) && payment == Get(effects, c.orderId)
      modifies this
      ensures Steps(c, true, next) && (next == Go(Resolving) ==> c.orderId in effects)
      ensures StillPending(c, old(undos))
      ensures if next.Go? then next.position in {Resolving, Undoing} || next.position.Committing?
              else next == Left(Failed(IdempotencyConflict))
    {
      hide Ends, Service.Advance, Decided;
      var foreign := (payment.Some? && payment.value.sagaId != c.sagaId)
        || (refund.Some? && refund.value.sagaId != c.sagaId);
      if c.operation == ForwardOp(kind) {
        next := OpenForward(message, c, payment, refund, foreign);
      } else if foreign {
        RefuseReverse(message, c, payment, refund);
        next := Left(Failed(IdempotencyConflict));
      } else {
        var position := OpenReverse(message, c, payment, refund);
        next := Go(position);
      }
    }

    // ---------- The forward effect ----------

    /** What follows once the forward effect is settled, or could not be. */
    method AfterForward(message: Option<Uuid>, c: Command, outcome: Outcome, ghost x: Execution) returns (next: Next)
      requires Valid() && c.orderId in executions && executions[c.orderId] == x && x.command == c
        && x.message == message
      modifies this`answers, this`locks, this`executions
      ensures Valid() && Abstract() == Service.AfterForward(kind, old(Abstract()), x, outcome)
      ensures next.Go? ==>
        executions == old(executions)[c.orderId := x.(position := next.position)] && answers == old(answers)
      ensures next.Go? ==> next.position == Undoing || next.position.Committing?
      ensures !next.Go? ==>
        next == Left(Unknown) && executions == old(executions) - {c.orderId}
          && answers == Reported(old(answers), message, c, Unknown)
    {
      if outcome == Unknown {
        Report(message, c, Unknown);
        Unlock(c.orderId);
        return Left(Unknown);
      }
      if c.operation == ForwardOp(kind) {
        next := Go(Committing(outcome));
      } else if outcome.Failed? {
        next := Go(Committing(Succeeded(Noop)));
      } else {
        next := Go(Undoing);
      }
      Advance(x, next.position);
    }

    /** `resolveCharge`: a stored result is used again, otherwise the provider is asked with the
        saga's own key. */
    method Resolve(message: Option<Uuid>, c: Command, payment: Option<Effect>, refund: Option<Undo>)
        returns (next: Next)
      requires IsAt(message, c, payment, refund, Resolving) && c.orderId in effects
      modifies this
      ensures Steps(c, true, next) && effects == old(effects) && undos == old(undos) && !next.Threw?
      ensures next.Go? ==> next.position in {AwaitingForward, Undoing} || next.position.Committing?
    {
      ghost var x := executions[c.orderId];
      if effects[c.orderId].result.Some? {
        next := AfterForward(message, c, effects[c.orderId].result.value, x);
      } else {
        issued := issued + {ForwardCall(kind, c.orderId, effects[c.orderId])};
        Advance(x, AwaitingForward);
        next := Go(AwaitingForward);
      }
    }

    /** `callProvider` for the forward operation: the reply in time, or UNKNOWN. */
    method AwaitForward(message: Option<Uuid>, c: Command, payment: Option<Effect>, refund: Option<Undo>, timely: bool)
        returns (next: Next)
      requires IsAt(message, c, payment, refund, AwaitingForward) && c.orderId in effects
      modifies this, provider
      ensures Steps(c, timely, next) && effects == old(effects) && undos == old(undos)
      ensures
        var reply := Provider.Execute(kind, old(provider.Value()), ForwardCall(kind, c.orderId, effects[c.orderId]),
                                      provider.mode).1;
        next == if timely && reply != Unknown then Go(GotForward(reply)) else Left(Unknown)
    {
      ghost var x := executions[c.orderId];
      if timely {
        var reply := provider.Execute(ForwardCall(kind, c.orderId, effects[c.orderId]));
        if reply != Unknown {
          Advance(x, GotForward(reply));
          return Go(GotForward(reply));
        }
      }
      Report(message, c, Unknown);
      Unlock(c.orderId);
      next := Left(Unknown);
    }

    /** The row is updated with the reply. */
    method StoreReply(message: Option<Uuid>, c: Command, payment: Option<Effect>, refund: Option<Undo>, reply: Outcome)
        returns (next: Next)
      requires IsAt(message, c, payment, refund, GotForward(reply)) && c.orderId in effects
      modifies this
      ensures Steps(c, true, next) && undos == old(undos) && !next.Threw?
      ensures next.Go? ==> next.position == Undoing || next.position.Committing?
    {
      ghost var x := executions[c.orderId];
      effects := effects[c.orderId := Settled(effects[c.orderId], reply)];
      next := AfterForward(message, c, reply, x);
    }

    // ---------- The compensation ----------

    method AskUndo(message: Option<Uuid>, c: Command, payment: Option<Effect>, refund: Option<Undo>)
        returns (next: Next)
      requires IsAt(message, c, payment, refund, Undoing)
      modifies this`issued, this`executions
      ensures Steps(c, true, next) && next == Go(AwaitingReverse)
    {
      issued := issued + {ReverseCall(kind, c.orderId, c.sagaId)};
      Advance(executions[c.orderId], AwaitingReverse);
      next := Go(AwaitingReverse);
    }

    method AwaitReverse(message: Option<Uuid>, c: Command, payment: Option<Effect>, refund: Option<Undo>, timely: bool)
        returns (next: Next)
      requires IsAt(message, c, payment, refund, AwaitingReverse)
      modifies this, provider
      ensures Steps(c, timely, next) && undos == old(undos)
      ensures
        var asked := Provider.Execute(kind, old(provider.Value()), ReverseCall(kind, c.orderId, c.sagaId),
                                      provider.mode).1;
        var reply := if timely then asked else Unknown;
        next == if reply.Succeeded? then Go(Committing(reply)) else Left(reply)
    {
      ghost var x := executions[c.orderId];
      var reply := Unknown;
      if timely { reply := provider.Execute(ReverseCall(kind, c.orderId, c.sagaId)); }
      if reply.Succeeded? {
        Advance(x, Committing(reply));
        return Go(Committing(reply));
      }
      Report(message, c, reply);
      Unlock(c.orderId);
      next := Left(reply);
    }

    // ---------- The final transaction ----------

    method RecordUndo(o: Uuid, payment: Option<Effect>, data: Data, ghost x: Execution)
      requires x.command.orderId == o && x.effect == payment
      modifies this`undos, this`effects
      ensures Abstract() == Service.Compensate(kind, old(Abstract()), x, data)
    {
      if o in undos { undos := undos[o := undos[o].(status := if data == Undone then UndoneUndo else NoopUndo)]; }
      if payment.Some? && o in effects { effects := effects[o := UndoneRow(kind, effects[o], data)]; }
    }

    /** The compensation's rows, the receipt, and the commit hook, all or nothing. */
    method Complete(message: Option<Uuid>, c: Command, payment: Option<Effect>, refund: Option<Undo>, outcome: Outcome)
        returns (next: Next)
      requires IsAt(message, c, payment, refund, Committing(outcome))
      modifies this, store
      ensures Steps(c, true, next)
      ensures next == if message.Some? && Altered(old(store.Value()), message.value, c) then Threw else Left(outcome)
      ensures next.Threw? ==> receipts == old(receipts) && effects == old(effects) && undos == old(undos)
    {
      hide Service.Compensate, Service.Advance, Commit, Altered, Ends;
      ghost var x := executions[c.orderId];
      AdvanceCommitting(kind, Abstract(), c.orderId, provider.mode, true);
      CompletionEnds(kind, Control(), c, outcome);
      var receipts0, effects0, undos0 := receipts, effects, undos;
      if c.operation == ReverseOp(kind) && outcome.Succeeded? { RecordUndo(c.orderId, payment, outcome.data, x); }
      receipts := receipts[c.key := Receipt(Fingerprint(c), Some(outcome))];
      var ok := true;
      if message.Some? { ok := store.CommitResult(message.value, c, outcome); }
      if !ok {
        receipts, effects, undos := receipts0, effects0, undos0;
        Unlock(c.orderId);
        return Threw;
      }
      Report(message, c, outcome);
      Unlock(c.orderId);
      next := Left(outcome);
    }

    // ---------- The whole of `execute` ----------

    /** A trace of the machine from `start` to the object's present state, by this execution alone. */
    ghost predicate Traces(r: Run, start: State, message: Option<Uuid>, c: Command)
      reads this, provider, store
    {
      TracesTo(r, start, Abstract(), message, c)
    }

    ghost predicate Moved(was: State, c: Command, timely: bool)
      reads this, provider, store
    {
      && c.orderId in was.executions && was.executions[c.orderId].command.orderId == c.orderId
      && Abstract() == Service.Advance(kind, was, c.orderId, provider.mode, timely)
    }

    /** A trace up to an earlier state, made of this execution's own events: its start, and no
        crash, no other order and no late call after it. */
    ghost predicate TracesTo(r: Run, start: State, was: State, message: Option<Uuid>, c: Command) {
      && IsTrace(kind, r) && r.states[0] == start && r.states[|r.states| - 1] == was
      && r.events != [] && r.events[0] == Start(message, c)
      && forall i | 1 <= i < |r.events| :: r.events[i].Continue? && r.events[i].orderId == c.orderId
    }

    ghost method Record(r: Run, start: State, was: State, message: Option<Uuid>, c: Command, timely: bool)
      returns (r': Run)
      requires TracesTo(r, start, was, message, c) && Moved(was, c, timely)
      ensures Traces(r', start, message, c)
    {
      TraceGrows(kind, r, Continue(c.orderId, provider.mode, timely), Abstract());
      r' := Run(r.states + [Abstract()], r.events + [Continue(c.orderId, provider.mode, timely)]);
    }

    /** The receipt of the command is open. */
    ghost predicate IsOpen(c: Command)
      reads this
    {
      c.key in receipts && receipts[c.key] == Receipt(Fingerprint(c), None)
    }

    /** Settling the forward effect: `resolveCharge` and what follows it. */
    method Settle(message: Option<Uuid>, c: Command, payment: Option<Effect>, refund: Option<Undo>, timely: bool,
                  ghost r: Run, ghost start: State) returns (next: Next, ghost r': Run)
      requires IsAt(message, c, payment, refund, Resolving) && c.orderId in effects && Traces(r, start, message, c)
        && IsOpen(c)
      modifies this, provider
      ensures Valid() && Traces(r', start, message, c) && undos == old(undos)
      ensures next.Go? ==> next.position == Undoing || next.position.Committing?
      ensures Ends(kind, old(Control()), Control(), c, next) && !next.Threw?
    {
      hide TracesTo, Service.Advance, Ends, Provider.Execute;
      ghost var was := Abstract();
      ghost var s := Control();
      next := Resolve(message, c, payment, refund);
      r' := Record(r, start, was, message, c, true);
      if next == Go(AwaitingForward) {
        Going(c, s, next.position);
        ghost var s1 := Control();
        was := Abstract();
        next := AwaitForward(message, c, payment, refund, timely);
        r' := Record(r', start, was, message, c, timely);
        EndsChain(kind, s, s1, Control(), c, AwaitingForward, next);
        if next.Go? {
          Going(c, s, next.position);
          ghost var s2 := Control();
          ghost var at := next.position;
          was := Abstract();
          next := StoreReply(message, c, payment, refund, next.position.outcome);
          r' := Record(r', start, was, message, c, true);
          EndsChain(kind, s, s2, Control(), c, at, next);
        }
      }
    }

    /** Where a step that goes on leaves the execution. */
    lemma Going(c: Command, s: Controls, position: Position)
      requires c.orderId in s.executions && Ends(kind, s, Control(), c, Go(position))
      requires c.key in s.receipts && s.receipts[c.key] == Receipt(Fingerprint(c), None)
      ensures c.orderId in executions && executions[c.orderId] == s.executions[c.orderId].(position := position)
      ensures receipts == s.receipts && IsOpen(c)
    {
      assert s.receipts[c.key := Receipt(Fingerprint(c), None)] == s.receipts;
    }

    method Compensate(message: Option<Uuid>, c: Command, payment: Option<Effect>, refund: Option<Undo>, timely: bool,
                      ghost r: Run, ghost start: State) returns (next: Next, ghost r': Run)
      requires IsAt(message, c, payment, refund, Undoing) && Traces(r, start, message, c) && IsOpen(c)
      modifies this, provider
      ensures Valid() && Traces(r', start, message, c) && undos == old(undos)
      ensures next.Go? ==> next.position.Committing?
      ensures Ends(kind, old(Control()), Control(), c, next) && !next.Threw?
    {
      hide TracesTo, Service.Advance, Ends, Provider.Execute;
      ghost var was := Abstract();
      ghost var s := Control();
      next := AskUndo(message, c, payment, refund);
      r' := Record(r, start, was, message, c, true);
      Going(c, s, AwaitingReverse);
      ghost var s1 := Control();
      was := Abstract();
      next := AwaitReverse(message, c, payment, refund, timely);
      r' := Record(r', start, was, message, c, timely);
      EndsChain(kind, s, s1, Control(), c, AwaitingReverse, next);
    }

    /** The final transaction, if the execution got that far. */
    method Finish(message: Option<Uuid>, c: Command, payment: Option<Effect>, refund: Option<Undo>, so: Next,
                  ghost r: Run, ghost start: State) returns (next: Next, ghost r': Run)
      requires Valid() && Traces(r, start, message, c) && !so.Threw?
      requires so.Go? ==> so.position.Committing? && IsAt(message, c, payment, refund, so.position) && IsOpen(c)
      modifies this, store
      ensures Valid() && Traces(r', start, message, c) && !next.Go?
      ensures !so.Go? ==> next == so && Control() == old(Control()) && undos == old(undos)
      ensures so.Go? ==> c.orderId in old(executions) && Ends(kind, old(Control()), Control(), c, next)
      ensures next.Threw? ==> undos == old(undos)
    {
      hide TracesTo, Service.Advance, Ends;
      next, r' := so, r;
      if so.Go? {
        ghost var was := Abstract();
        next := Complete(message, c, payment, refund, so.position.outcome);
        r' := Record(r, start, was, message, c, true);
      }
    }

    /** From the rows to the end. */
    method Work(message: Option<Uuid>, c: Command, timely: bool, undoTimely: bool, ghost r: Run, ghost start: State)
      returns (next: Next, ghost r': Run)
      requires IsAt(message, c, Get(effects, c.orderId), Get(undos, c.orderId), Opened)
      requires Traces(r, start, message, c) && IsOpen(c)
      modifies this, provider, store
      ensures Valid() && Traces(r', start, message, c) && !next.Go?
      ensures Ends(kind, old(Control()), Control(), c, next)
      ensures next.Threw? ==> StillPending(c, old(undos))
    {
      hide TracesTo, Service.Advance, Ends;
      var payment, refund := Get(effects, c.orderId), Get(undos, c.orderId);
      ghost var was := Abstract();
      ghost var s := Control();
      next := OpenRows(message, c, payment, refund);
      r' := Record(r, start, was, message, c, true);
      if next == Go(Resolving) {
        Going(c, s, Resolving);
        ghost var s1 := Control();
        next, r' := Settle(message, c, payment, refund, timely, r', start);
        EndsChain(kind, s, s1, Control(), c, Resolving, next);
      }
      if next == Go(Undoing) {
        Going(c, s, Undoing);
        ghost var s1 := Control();
        next, r' := Compensate(message, c, payment, refund, undoTimely, r', start);
        EndsChain(kind, s, s1, Control(), c, Undoing, next);
      }
      if next.Go? { Going(c, s, next.position); }
      ghost var s1 := Control();
      ghost var so := next;
      next, r' := Finish(message, c, payment, refund, next, r', start);
      if so.Go? { EndsChain(kind, s, s1, Control(), c, so.position, next); }
    }

    /** The compensation is not decided: its row is as it was, or new and pending. */
    ghost predicate StillPending(c: Command, before: map<Uuid, Undo>)
      reads this
    {
      || undos == before
      || (c.orderId !in before && c.orderId in undos && undos[c.orderId].status == PendingUndo
          && undos == before[c.orderId := undos[c.orderId]])
    }

    /** `execute`, undisturbed. Whatever it returns, its effect on the tables is a run of the
        machine and the order's lock is as it was. Success is returned only with the completed
        receipt, a retryable answer leaves the receipt open, and when the commit hook throws neither
        the receipt nor the compensation is decided. */
    method Execute(message: Option<Uuid>, c: Command, timely: bool, undoTimely: bool)
      returns (next: Next, ghost r: Run)
      requires Valid() && WellFormed(kind, c)
      modifies this, provider, store
      ensures Valid() && Traces(r, old(Abstract()), message, c) && !next.Go?
      ensures executions == old(executions) && locks == old(locks)
      ensures answers == if next.Left? then Reported(old(answers), message, c, next.outcome) else old(answers)
      ensures c.orderId in old(locks) ==> next == Left(Unknown) && receipts == old(receipts)
      ensures c.orderId !in old(locks) ==>
        || ReceiptsEnd(kind, old(receipts), receipts, c, next)
        || (&& next == Left(Failed(IdempotencyConflict)) && receipts == old(receipts)
            && c.key in receipts && receipts[c.key].content != Fingerprint(c))
      ensures next.Threw? ==>
        && message.Some? && Altered(old(store.Value()), message.value, c)
        && store.Value() == old(store.Value()) && StillPending(c, old(undos))
      ensures next.Left? ==>
        || store.Value() == old(store.Value())
        || (message.Some? && store.Value() == Commit(old(store.Value()), message.value, c, next.outcome))
    {
      ghost var start := Abstract();
      ghost var s0 := Control();
      var early := Begin(message, c);
      r := BeginTrace(start, message, c, Abstract());
      if early.Some? {
        EarlyReceipts(kind, receipts, c, early.value);
        hide ReceiptsEnd, TracesTo, Service.Begin;
        return Left(early.value), r;
      }
      hide TracesTo, Service.Advance, Service.Begin, Ends;
      ghost var s := Control();
      next, r := Work(message, c, timely, undoTimely, r, start);
      Returned(kind, s0.receipts, s0.executions, s, Control(), c, next);
    }

    ghost method BeginTrace(start: State, message: Option<Uuid>, c: Command, s: State) returns (r: Run)
      requires WellFormed(kind, c) && s == Service.Begin(start, message, c)
      ensures TracesTo(r, start, s, message, c)
    {
      r := Run([start, s], [Start(message, c)]);
    }
  }
}
