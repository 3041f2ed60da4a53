/** Statements about whole runs of a payment or shipping service: any commands under any keys, a
    crash between any two steps, provider calls that take effect after their deadline. */
module ServiceTheorems {
  import opened Contracts
  import opened Provider
  import opened Mailbox
  import opened Service
  import opened ServiceInvariant

  datatype Run = Run(states: seq<State>, events: seq<Event>)

  /** Consecutive states of the machine. */
  predicate IsTrace(kind: Kind, r: Run) {
    && |r.states| == |r.events| + 1
    && (forall i :: 0 <= i < |r.events| ==>
          Possible(kind, r.states[i], r.events[i]) && r.states[i + 1] == Step(kind, r.states[i], r.events[i]))
  }

  predicate IsRun(kind: Kind, r: Run) {
    IsTrace(kind, r) && r.states[0] == EMPTY
  }

  lemma StepOf(kind: Kind, r: Run, i: nat)
    requires IsRun(kind, r) && i < |r.events| && Consistent(kind, r.states[i])
    ensures Progresses(kind, r.states[i], r.states[i + 1])
  {
    StepKeepsConsistent(kind, r.states[i], r.events[i]);
  }

  lemma {:induction false} RunsStayConsistent(kind: Kind, r: Run, i: nat)
    requires IsRun(kind, r) && i < |r.states|
    ensures Consistent(kind, r.states[i])
  {
    hide Consistent, Step, Possible, AllEvolve, ReceiptsStay;
    if i == 0 {
      EmptyIsConsistent(kind);
    } else {
      RunsStayConsistent(kind, r, i - 1);
      StepOf(kind, r, i - 1);
    }
  }

  /** Between any two moments of a run every order only evolves and completed receipts stay. */
  lemma {:induction false} RunsEvolve(kind: Kind, r: Run, i: nat, j: nat)
    requires IsRun(kind, r) && i <= j < |r.states|
    ensures AllEvolve(kind, r.states[i], r.states[j]) && ReceiptsStay(r.states[i], r.states[j])
    decreases j
  {
    hide Consistent, Step, Possible, AllEvolve;
    if i == j {
      SameViewsEvolve(kind, r.states[i], r.states[j]);
    } else {
      RunsEvolve(kind, r, i, j - 1);
      RunsStayConsistent(kind, r, j - 1);
      StepOf(kind, r, j - 1);
      EvolvingChains(kind, r.states[i], r.states[j - 1], r.states[j]);
    }
  }

  // ---------- At most one charge ----------

  /** Step `i` makes the provider open an account for the order: it charges, or books a shipment. */
  predicate Opens(r: Run, i: nat, o: Uuid)
    requires |r.states| == |r.events| + 1 && i < |r.events|
  {
    o !in r.states[i].provider.accounts && o in r.states[i + 1].provider.accounts
  }

  lemma AccountsStay(kind: Kind, s: State, s': State, o: Uuid)
    requires AllEvolve(kind, s, s') && o in s.provider.accounts
    ensures o in s'.provider.accounts
    ensures s'.provider.accounts[o] == s.provider.accounts[o].(status := s'.provider.accounts[o].status)
  {
    assert Evolves(ViewAt(kind, s, o), ViewAt(kind, s', o));
  }

  /** The provider charges an order at most once, and whatever it ever reports about that charge
      concerns the same saga, the same details and the same reference. */
  lemma ChargedAtMostOnce(kind: Kind, r: Run, o: Uuid, i: nat, j: nat)
    requires |r.states| == |r.events| + 1 && IsRun(kind, r) && i <= j < |r.events| && Opens(r, i, o)
    ensures Opens(r, j, o) ==> i == j
    ensures o in r.states[j + 1].provider.accounts
    ensures r.states[j + 1].provider.accounts[o] ==
      r.states[i + 1].provider.accounts[o].(status := r.states[j + 1].provider.accounts[o].status)
  {
    hide IsRun, AllEvolve, ReceiptsStay;
    RunsEvolve(kind, r, i + 1, j + 1);
    AccountsStay(kind, r.states[i + 1], r.states[j + 1], o);
    if i < j {
      RunsEvolve(kind, r, i + 1, j);
      AccountsStay(kind, r.states[i + 1], r.states[j], o);
    }
  }

  lemma CallsAreKnown(kind: Kind, s: State, c: Command)
    requires Consistent(kind, s) && c in s.issued
    ensures CallOk(kind, c, ViewAt(kind, s, c.orderId))
  {
    hide OrderOk, ReceiptOk, CallOk, AnswersOk, ExecutionAtOk;
  }

  lemma SameCall(kind: Kind, c: Command, v: View, d: Command, v': View)
    requires CallOk(kind, c, v) && CallOk(kind, d, v') && Evolves(v, v')
    requires c.orderId == d.orderId && c.operation == d.operation
    ensures c == d && c.key == SagaKey(c.sagaId, c.operation) && c.operation in {ForwardOp(kind), ReverseOp(kind)}
  {
  }

  /** Whatever commands under whatever keys arrive, before, between and after crashes and late
      calls: all calls the service ever makes for one order and one operation are one and the same
      command under one and the same provider key. */
  lemma OneCallEver(kind: Kind, r: Run, i: nat, j: nat, c: Command, d: Command)
    requires IsRun(kind, r) && i <= j < |r.states| && c in r.states[i].issued && d in r.states[j].issued
    requires c.orderId == d.orderId && c.operation == d.operation
    ensures c == d && c.key == SagaKey(c.sagaId, c.operation) && c.operation in {ForwardOp(kind), ReverseOp(kind)}
  {
    RunsStayConsistent(kind, r, i);
    RunsStayConsistent(kind, r, j);
    RunsEvolve(kind, r, i, j);
    hide IsRun, Consistent, CallOk, Evolves;
    CallsAreKnown(kind, r.states[i], c);
    CallsAreKnown(kind, r.states[j], d);
    SameCall(kind, c, ViewAt(kind, r.states[i], c.orderId), d, ViewAt(kind, r.states[j], c.orderId));
  }

  /** The provider's charge is the one the calls asked for, and once it is undone it is never live
      again, not even by a late call. */
  lemma UndoneForGood(kind: Kind, r: Run, i: nat, j: nat, o: Uuid)
    requires IsRun(kind, r) && i <= j < |r.states| && o in r.states[i].provider.accounts
    ensures o in r.states[j].provider.accounts && o in r.states[j].effects
    ensures r.states[j].provider.accounts[o].content == Some(Fingerprint(ForwardCall(kind, o, r.states[j].effects[o])))
    ensures r.states[i].provider.accounts[o].status == UndoneAccount ==>
      r.states[j].provider.accounts[o].status == UndoneAccount
  {
    RunsStayConsistent(kind, r, j);
    RunsEvolve(kind, r, i, j);
    hide IsRun;
    assert Evolves(ViewAt(kind, r.states[i], o), ViewAt(kind, r.states[j], o));
    assert OrderOk(kind, o, ViewAt(kind, r.states[j], o));
  }

  /** The local row is never ahead of the provider: CHARGED or PAY_ON_DELIVERY is recorded only
      for an order that was charged, FAILED only for one that was not, REFUNDED only when the
      provider has refunded. */
  lemma RowsTellTheTruth(kind: Kind, r: Run, o: Uuid, i: nat)
    requires IsRun(kind, r) && i < |r.states| && o in r.states[i].effects
    ensures
      var s := r.states[i];
      match s.effects[o].status
      case PendingEffect => true
      case Done | OnDelivery => o in s.provider.accounts && s.effects[o].reference == s.provider.accounts[o].reference
      case UndoneEffect => o in s.provider.accounts && s.provider.accounts[o].status == UndoneAccount
      case FailedEffect => o !in s.provider.accounts
  {
    RunsStayConsistent(kind, r, i);
    assert OrderOk(kind, o, ViewAt(kind, r.states[i], o));
  }

  // ---------- Answers are stable ----------

  /** A key once completed is answered the same way for ever: by the receipt, to a repetition, or
      by a conflict, to a different command. */
  lemma CompletedKeysAnswerAlike(kind: Kind, r: Run, i: nat, j: nat, message: Uuid, c: Command)
    requires IsRun(kind, r) && i <= j < |r.states|
    requires c.key in r.states[i].receipts && r.states[i].receipts[c.key].result.Some?
    ensures
      var first, s := r.states[i].receipts[c.key], r.states[j];
      Begin(s, Some(message), c) == s.(answers := s.answers + {Return(message, c,
        if c.orderId in s.executions then Unknown
        else if first.content == Fingerprint(c) then first.result.value
        else Failed(IdempotencyConflict))})
  {
    RunsEvolve(kind, r, i, j);
  }

  /** Every message has one answer, and a definite answer other than a conflict is a completed
      receipt's, then and for ever after. */
  lemma AnswersAreBacked(kind: Kind, r: Run, i: nat, j: nat, k: nat)
    requires IsRun(kind, r) && i <= j < |r.states| && k < |r.states[i].mail.outbox|
    ensures Coupled(r.states[i].mail)
    ensures
      var env := r.states[i].mail.outbox[k];
      !env.result.outcome.Unknown? && env.result.outcome != Failed(IdempotencyConflict) ==>
        env.result.key in r.states[j].receipts && r.states[j].receipts[env.result.key].result
          == Some(env.result.outcome)
  {
    RunsStayConsistent(kind, r, i);
    RunsEvolve(kind, r, i, j);
    var s := r.states[i];
    assert Backed(s.receipts, s.mail.inbox[s.mail.outbox[k].causationId], s.mail.outbox[k].result.outcome);
  }

  // ---------- Compensation is final ----------

  /** Once a refund is REFUNDED or NOOP the payment is never PENDING or CHARGED again; a refund
      that came before any charge keeps the order without a row for ever, and the provider is
      never asked. */
  lemma CompensationIsFinal(kind: Kind, r: Run, o: Uuid, i: nat, j: nat)
    requires IsRun(kind, r) && i <= j < |r.states| && o in r.states[i].undos
    ensures o in r.states[j].undos
    ensures r.states[i].undos[o].status == UndoneUndo ==>
      && o in r.states[j].effects && r.states[j].effects[o].status == UndoneEffect
      && o in r.states[j].provider.accounts && r.states[j].provider.accounts[o].status == UndoneAccount
    ensures r.states[i].undos[o].status == NoopUndo && o in r.states[j].effects ==>
      r.states[j].effects[o].status in {FailedEffect, OnDelivery}
    ensures o !in r.states[i].effects ==> o !in r.states[j].effects && o !in r.states[j].provider.accounts
  {
    RunsEvolve(kind, r, i, j);
    RunsStayConsistent(kind, r, i);
    RunsStayConsistent(kind, r, j);
    var v, v' := ViewAt(kind, r.states[i], o), ViewAt(kind, r.states[j], o);
    assert Evolves(v, v');
    assert OrderOk(kind, o, v) && OrderOk(kind, o, v');
  }

  // ---------- Refusals ----------

  /** The rows are not the command's own. */
  predicate Foreign(effects: map<Uuid, Effect>, undos: map<Uuid, Undo>, c: Content) {
    || (c.orderId in effects && (effects[c.orderId].sagaId != c.sagaId || effects[c.orderId].details != c.payload))
    || (c.orderId in undos && undos[c.orderId].sagaId != c.sagaId)
  }

  lemma JustlyRefused(kind: Kind, c: Content, result: Outcome, v: View)
    requires OrderOk(kind, c.orderId, v) && ReceiptOk(kind, Receipt(c, Some(result)), v)
    requires c.operation == ForwardOp(kind)
    ensures Clashes(c, v) ==> result == Failed(IdempotencyConflict)
    ensures result == Failed(IdempotencyConflict) ==>
      Clashes(c, v) || (v.effect.Some? && v.effect.value.result == Some(Failed(IdempotencyConflict)))
    ensures result == Failed(AlreadyCompensated) ==> v.undo.Some? && v.undo.value.sagaId == c.sagaId
    ensures result.Failed? && result.code !in {IdempotencyConflict, AlreadyCompensated} ==>
      && result.code == (if kind == Payments then PaymentDeclined else ShippingRejected)
      && v.effect.Some? && v.effect.value.status == FailedEffect && v.account.None?
  {
  }

  /** Why a forward command was refused, whatever came before and after. It is answered
      IDEMPOTENCY_CONFLICT exactly when the order's rows are another saga's or of other details, or
      the provider itself found the key in use; ALREADY_COMPENSATED only for a saga whose own
      compensation was asked for; and by the provider's rejection only if nothing was ever done. */
  lemma RefusalsAreJust(kind: Kind, r: Run, i: nat, k: Key)
    requires IsRun(kind, r) && i < |r.states| && k in r.states[i].receipts
    requires r.states[i].receipts[k].content.operation == ForwardOp(kind) && r.states[i].receipts[k].result.Some?
    ensures
      var s, c, result := r.states[i], r.states[i].receipts[k].content, r.states[i].receipts[k].result.value;
      var o := c.orderId;
      var inUse := o in s.effects && s.effects[o].result == Some(Failed(IdempotencyConflict));
      && (Foreign(s.effects, s.undos, c) ==> result == Failed(IdempotencyConflict))
      && (result == Failed(IdempotencyConflict) ==> Foreign(s.effects, s.undos, c) || inUse)
      && (result == Failed(AlreadyCompensated) ==> o in s.undos && s.undos[o].sagaId == c.sagaId)
      && (result.Failed? && result.code !in {IdempotencyConflict, AlreadyCompensated} ==>
            && result.code == (if kind == Payments then PaymentDeclined else ShippingRejected)
            && o in s.effects && s.effects[o].status == FailedEffect && o !in s.provider.accounts)
  {
    RunsStayConsistent(kind, r, i);
    hide IsRun, AnswersOk, ExecutionAtOk, CallOk, OrderOk, ReceiptOk;
    var s := r.states[i];
    var c := s.receipts[k].content;
    JustlyRefused(kind, c, s.receipts[k].result.value, ViewAt(kind, s, c.orderId));
  }

  /** A compensation by another saga undoes nothing and asks nobody: it is answered with a conflict,
      whatever it finds, and its key stays open. */
  lemma StrangersUndoNothing(kind: Kind, s: State, message: Uuid, c: Command, mode: Mode, timely: bool)
    requires c.operation == ReverseOp(kind) && c.orderId !in s.executions
    requires c.key in s.receipts ==> s.receipts[c.key] == Receipt(Fingerprint(c), None)
    requires
      || (c.orderId in s.effects && s.effects[c.orderId].sagaId != c.sagaId)
      || (c.orderId in s.undos && s.undos[c.orderId].sagaId != c.sagaId)
    ensures c.orderId in Begin(s, Some(message), c).executions
    ensures Begin(s, Some(message), c).executions[c.orderId].command.orderId == c.orderId
    ensures
      Advance(kind, Begin(s, Some(message), c), c.orderId, mode, timely) ==
        s.(receipts := s.receipts[c.key := Receipt(Fingerprint(c), None)],
           answers := s.answers + {Return(message, c, Failed(IdempotencyConflict))})
  {
    var x := Begin(s, Some(message), c).executions[c.orderId];
    assert s.executions[c.orderId := x] - {c.orderId} == s.executions;
  }

  // ---------- References ----------

  lemma OwnReference(kind: Kind, o: Uuid, v: View)
    requires OrderOk(kind, o, v)
    ensures v.account.Some? ==> v.account.value.reference == Some(ReferenceOf(o))
    ensures v.effect.Some? && v.effect.value.reference.Some? ==>
      v.account.Some? && v.effect.value.reference == v.account.value.reference
  {
  }

  lemma AnsweredReference(kind: Kind, r: Receipt, v: View)
    requires OrderOk(kind, r.content.orderId, v) && ReceiptOk(kind, r, v)
    ensures r.result.Some? && r.result.value.Succeeded? && r.result.value.data.Applied? ==>
      v.account.Some? && v.account.value.reference == Some(r.result.value.data.reference)
  {
  }

  /** Over every run a transaction id belongs to one order: accounts with equal references are the
      same order's; a row's reference is its own account's; and so is the reference a completed
      receipt answers, which is therefore no other order's. */
  lemma ReferencesTellOrders(kind: Kind, r: Run, i: nat, o: Uuid, p: Uuid, k: Key)
    requires IsRun(kind, r) && i < |r.states|
    ensures
      var s := r.states[i];
      && ((&& o in s.provider.accounts && p in s.provider.accounts
           && s.provider.accounts[o].reference == s.provider.accounts[p].reference) ==> o == p)
      && (o in s.provider.accounts ==> s.provider.accounts[o].reference.Some?)
      && (o in s.effects && s.effects[o].reference.Some? ==>
            o in s.provider.accounts && s.effects[o].reference == s.provider.accounts[o].reference)
    ensures
      var s := r.states[i];
      (&& k in s.receipts && s.receipts[k].result.Some? && s.receipts[k].result.value.Succeeded?
       && s.receipts[k].result.value.data.Applied?) ==>
        var id := s.receipts[k].content.orderId;
        && id in s.provider.accounts
        && s.provider.accounts[id].reference == Some(s.receipts[k].result.value.data.reference)
  {
    RunsStayConsistent(kind, r, i);
    hide IsRun, AnswersOk, ExecutionAtOk, CallOk, OrderOk, ReceiptOk;
    var s := r.states[i];
    OwnReference(kind, o, ViewAt(kind, s, o));
    OwnReference(kind, p, ViewAt(kind, s, p));
    if k in s.receipts {
      var id := s.receipts[k].content.orderId;
      OwnReference(kind, id, ViewAt(kind, s, id));
      AnsweredReference(kind, s.receipts[k], ViewAt(kind, s, id));
    }
  }
}
