/** Cash on delivery: an order that paid nothing yet should never be refunded at the provider. For
    arbitrary commands the code breaks this in one situation only, and here it is
    (services/payment-service/src/payments/service.ts:58-64). */
module ServiceCash {
  import opened Contracts
  import opened Provider
  import opened Mailbox
  import opened Service
  import opened ServiceInvariant
  import opened ServiceTheorems

  predicate IsCash(e: Effect) { SettledStatus(e.details) == OnDelivery }

  predicate CashOrder(s: State, o: Uuid) { o in s.effects && IsCash(s.effects[o]) }

  /** This event opens a refund of the order on a charge that is still PENDING. */
  predicate OpensOnPending(r: Run, j: nat, o: Uuid) {
    && j < |r.events| && |r.states| == |r.events| + 1
    && r.events[j].Start? && r.events[j].command.orderId == o && r.events[j].command.operation == RefundPayment
    && o in r.states[j].effects && r.states[j].effects[o].status == PendingEffect
    && o !in r.states[j].executions && o in r.states[j + 1].executions
  }

  predicate OpenedBefore(r: Run, i: nat, o: Uuid) {
    exists j :: 0 <= j < i && OpensOnPending(r, j, o)
  }

  /** Work on a refund that read a PENDING charge, or that asks the provider although the order
      pays on delivery. */
  predicate Suspicious(s: State, o: Uuid) {
    && o in s.executions && s.executions[o].command.operation == RefundPayment
    && (|| (s.executions[o].effect.Some? && s.executions[o].effect.value.status == PendingEffect)
        || (CashOrder(s, o) && s.executions[o].position in {Undoing, AwaitingReverse}))
  }

  predicate RefundIssued(s: State, o: Uuid) {
    exists c :: c in s.issued && c.orderId == o && c.operation == RefundPayment
  }

  /** This event opens the order's refund on a pending charge. */
  predicate OpensHere(s: State, e: Event, o: Uuid) {
    && e.Start? && e.command.orderId == o && e.command.operation == RefundPayment
    && o in s.effects && s.effects[o].status == PendingEffect
    && o !in s.executions
  }

  /** What one step may add to the suspicion. */
  predicate Explained(s: State, e: Event, s': State, o: Uuid) {
    && (Suspicious(s', o) ==> Suspicious(s, o) || (OpensHere(s, e, o) && o in s'.executions))
    && (CashOrder(s', o) && RefundIssued(s', o) ==> (CashOrder(s, o) && RefundIssued(s, o)) || Suspicious(s, o))
  }

  /** Nothing that concerns the order changes but that its execution may be gone. */
  lemma NothingNew(s: State, e: Event, s': State, o: Uuid)
    requires Get(s'.effects, o) == Get(s.effects, o)
    requires o in s'.executions ==> o in s.executions && s'.executions[o] == s.executions[o]
    requires forall c | c in s'.issued && c.orderId == o :: c in s.issued
    ensures Explained(s, e, s', o)
  {
    assert o in s'.effects <==> o in s.effects;
  }

  lemma StartExplains(s: State, message: Option<Uuid>, c: Command, o: Uuid)
    requires WellFormed(Payments, c)
    ensures Explained(s, Start(message, c), Step(Payments, s, Start(message, c)), o)
  {
    var s' := Step(Payments, s, Start(message, c));
    if c.orderId != o || s'.executions == s.executions {
      NothingNew(s, Start(message, c), s', o);
    } else {
      assert s'.executions[o].effect == Get(s.effects, o);
    }
  }

  /** What one execution's steps leave alone: other orders, and all calls but its own. */
  ghost predicate Touches(s: State, s': State, o: Uuid) {
    && (forall p :: p != o ==> Get(s'.effects, p) == Get(s.effects, p) && Get(s'.executions, p) == Get(s.executions, p))
    && (forall c | c in s'.issued :: c in s.issued || c.orderId == o)
  }

  lemma MoveTouches(s: State, s1: State, x: Execution, position: Position)
    requires Touches(s, s1, x.command.orderId)
    ensures Touches(s, MoveTo(s1, x, position), x.command.orderId)
  {
  }

  lemma LeaveTouches(s: State, s1: State, x: Execution, outcome: Outcome)
    requires Touches(s, s1, x.command.orderId)
    ensures Touches(s, Leave(s1, x, outcome), x.command.orderId)
  {
  }

  lemma AfterTouches(s: State, s1: State, x: Execution, outcome: Outcome)
    requires Touches(s, s1, x.command.orderId)
    ensures Touches(s, AfterForward(Payments, s1, x, outcome), x.command.orderId)
  {
    hide Touches, MoveTo, Leave;
    LeaveTouches(s, s1, x, Unknown);
    MoveTouches(s, s1, x, Afterwards(Payments, x.command, outcome));
  }

  lemma CompensateTouches(s: State, x: Execution, data: Data)
    ensures Touches(s, Compensate(Payments, s, x, data), x.command.orderId)
  {
    hide UndoneRow;
  }

  lemma SameTablesTouch(s: State, s1: State, s2: State, o: Uuid)
    requires Touches(s, s1, o) && s2 == s1.(receipts := s2.receipts, mail := s2.mail)
    ensures Touches(s, s2, o)
  {
  }

  lemma FinalizeTouches(s: State, x: Execution, outcome: Outcome)
    ensures Touches(s, Finalize(Payments, s, x, outcome), x.command.orderId)
  {
    var o := x.command.orderId;
    assert Touches(s, s, o) && Touches(s, s.(executions := s.executions - {o}), o);
    hide Touches, Compensate, Leave, Altered, Commit;
    var written := if x.command.operation == RefundPayment && outcome.Succeeded?
      then Compensate(Payments, s, x, outcome.data) else s;
    if outcome.Succeeded? { CompensateTouches(s, x, outcome.data); }
    forall receipts, mail ensures Touches(s, Leave(written.(receipts := receipts, mail := mail), x, outcome), o) {
      SameTablesTouch(s, written, written.(receipts := receipts, mail := mail), o);
      LeaveTouches(s, written.(receipts := receipts, mail := mail), x, outcome);
    }
  }

  lemma OpenTouches(s: State, x: Execution)
    ensures Touches(s, Open(Payments, s, x), x.command.orderId)
  {
    hide ReverseStart, OtherSaga;
  }

  lemma AdvanceTouches(s: State, o: Uuid, mode: Mode, timely: bool)
    requires o in s.executions && s.executions[o].command.orderId == o
    ensures Touches(s, Advance(Payments, s, o, mode, timely), o)
  {
    hide Touches, MoveTo, Leave, AfterForward, Finalize, Open, Execute, Settled;
    var x := s.executions[o];
    match x.position {
      case Opened => OpenTouches(s, x);
      case Resolving =>
        SameTouches(s, s, o);
        if o in s.effects && s.effects[o].result.Some? {
          AfterTouches(s, s, x, s.effects[o].result.value);
        } else if o in s.effects {
          var s1 := s.(issued := s.issued + {ForwardCall(Payments, o, s.effects[o])});
          SameTouches(s, s1, o);
          MoveTouches(s, s1, x, AwaitingForward);
        }
      case AwaitingForward =>
        SameTouches(s, s, o);
        AfterTouches(s, s, x, Unknown);
        if o in s.effects {
          var (tables, outcome) := Execute(Payments, s.provider, ForwardCall(Payments, o, s.effects[o]), mode);
          var s1 := s.(provider := tables);
          SameTouches(s, s1, o);
          AfterTouches(s, s1, x, Unknown);
          MoveTouches(s, s1, x, GotForward(outcome));
        }
      case GotForward(outcome) =>
        SameTouches(s, s, o);
        if o in s.effects {
          var s1 := s.(effects := s.effects[o := Settled(s.effects[o], outcome)]);
          SameTouches(s, s1, o);
          AfterTouches(s, s1, x, outcome);
        }
      case Undoing =>
        var s1 := s.(issued := s.issued + {ReverseCall(Payments, o, x.command.sagaId)});
        SameTouches(s, s1, o);
        MoveTouches(s, s1, x, AwaitingReverse);
      case AwaitingReverse =>
        SameTouches(s, s, o);
        LeaveTouches(s, s, x, Unknown);
        var (tables, outcome) := Execute(Payments, s.provider, ReverseCall(Payments, o, x.command.sagaId), mode);
        var s1 := s.(provider := tables);
        SameTouches(s, s1, o);
        MoveTouches(s, s1, x, Committing(outcome));
        LeaveTouches(s, s1, x, outcome);
      case Committing(outcome) => FinalizeTouches(s, x, outcome);
    }
  }

  lemma SameTouches(s: State, s1: State, o: Uuid)
    requires s1.executions == s.executions
    requires forall p :: p != o ==> Get(s1.effects, p) == Get(s.effects, p)
    requires forall c | c in s1.issued :: c in s.issued || c.orderId == o
    ensures Touches(s, s1, o)
  {
  }

  /** Steps of another order's execution. */
  lemma OthersExplain(s: State, e: Event, o: Uuid)
    requires e.Continue? && Possible(Payments, s, e) && e.orderId != o
    ensures Explained(s, e, Step(Payments, s, e), o)
  {
    hide Explained, Advance;
    AdvanceTouches(s, e.orderId, e.mode, e.timely);
    NothingNew(s, e, Step(Payments, s, e), o);
  }

  /** From the rows, a cash-on-delivery refund goes to the provider only by way of a pending charge. */
  lemma CashStart(x: Execution, v: View, o: Uuid)
    requires OrderOk(Payments, o, v) && x.effect == v.effect && x.undo == v.undo
    requires v.effect.Some? && IsCash(v.effect.value)
    ensures ReverseStart(x) !in {Undoing, AwaitingReverse}
    ensures v.effect.value.status != PendingEffect ==>
      ReverseStart(x) in {Committing(Succeeded(Undone)), Committing(Succeeded(Noop))}
  {
  }

  predicate SameDetails(e: Option<Effect>, e': Option<Effect>) {
    (e.Some? <==> e'.Some?) && (e.Some? ==> e'.value.details == e.value.details)
  }

  /** The order's own execution goes on or ends, keeping the details of its row. */
  lemma OwnExplains(s: State, e: Event, s': State, o: Uuid)
    requires o in s.executions && SameDetails(Get(s.effects, o), Get(s'.effects, o))
    requires o in s'.executions ==>
      && s'.executions[o] == s.executions[o].(position := s'.executions[o].position)
      && (s'.executions[o].position in {Undoing, AwaitingReverse} ==>
            CashOrder(s, o) && s.executions[o].command.operation == RefundPayment ==> Suspicious(s, o))
    requires forall c | c in s'.issued && c.orderId == o && c.operation == RefundPayment ::
      c in s.issued || (CashOrder(s, o) ==> Suspicious(s, o))
    ensures Explained(s, e, s', o)
  {
    assert CashOrder(s', o) <==> CashOrder(s, o);
  }

  /** What the first step of an execution leaves: calls, and the row unless it inserts one. */
  lemma OpenShape(s: State, x: Execution)
    requires Get(s.executions, x.command.orderId) == Some(x)
    requires x.effect == Get(s.effects, x.command.orderId)
    ensures
      var o, s' := x.command.orderId, Open(Payments, s, x);
      && s'.issued == s.issued
      && (o in s'.executions ==> s'.executions[o] == x.(position := s'.executions[o].position))
      && (o in s'.executions && x.command.operation == RefundPayment ==>
            && s'.executions[o].position == ReverseStart(x) && s'.effects == s.effects
            && (|| x.effect.None? || x.effect.value.sagaId == x.command.sagaId))
      && s'.provider == s.provider
      && (s'.effects == s.effects
          || (o !in s.effects && o in s'.executions && s'.executions[o].position == Resolving))
  {
    hide ReverseStart;
  }

  lemma OpenExplains(s: State, e: Event, o: Uuid)
    requires Consistent(Payments, s) && e.Continue? && Possible(Payments, s, e) && e.orderId == o
    requires s.executions[o].position == Opened
    ensures Explained(s, e, Step(Payments, s, e), o)
  {
    var x, v := s.executions[o], ViewAt(Payments, s, o);
    OpenedAt(s, o);
    if o !in s.effects { NoRowNoCalls(s, o); }
    var s' := Step(Payments, s, e);
    assert s' == Open(Payments, s, x);
    hide Consistent, OrderOk, ReverseStart, Explained, Open, Advance, RefundIssued, Suspicious, IsCash;
    OpenShape(s, x);
    if s'.effects == s.effects {
      if CashOrder(s, o) { CashStart(x, v, o); }
      OwnExplains(s, e, s', o);
    } else {
      NotSuspicious(s, e, s', o);
    }
  }

  lemma OpenedAt(s: State, o: Uuid)
    requires Consistent(Payments, s) && o in s.executions && s.executions[o].position == Opened
    ensures OrderOk(Payments, o, ViewAt(Payments, s, o)) && s.executions[o].command.orderId == o
    ensures s.executions[o].effect == Get(s.effects, o) && s.executions[o].undo == Get(s.undos, o)
    ensures WellFormed(Payments, s.executions[o].command)
  {
    hide OrderOk, CallOk, ReceiptOk, AnswersOk;
    assert ExecutionAtOk(Payments, s, o);
  }

  lemma NoRowNoCalls(s: State, o: Uuid)
    requires Consistent(Payments, s) && o !in s.effects
    ensures !RefundIssued(s, o)
  {
    hide OrderOk, ReceiptOk, AnswersOk, ExecutionAtOk;
  }

  lemma NotSuspicious(s: State, e: Event, s': State, o: Uuid)
    requires !RefundIssued(s, o) && s'.issued == s.issued
    requires o in s'.executions && s'.executions[o].effect == None && s'.executions[o].position == Resolving
    ensures Explained(s, e, s', o)
  {
    assert RefundIssued(s', o) ==> RefundIssued(s, o);
  }

  /** What a later step of an execution leaves. */
  predicate Works(s: State, s': State, x: Execution) {
    var o := x.command.orderId;
    && SameDetails(Get(s.effects, o), Get(s'.effects, o))
    && (o in s'.executions ==>
          && s'.executions[o] == x.(position := s'.executions[o].position)
          && (s'.executions[o].position == Undoing ==> x.position.Resolving? || x.position.GotForward?)
          && (s'.executions[o].position == AwaitingReverse ==> x.position.Undoing?))
    && (forall c | c in s'.issued && c.orderId == o && c.operation == RefundPayment ::
          c in s.issued || x.position.Undoing?)
  }

  lemma MoveWorks(s: State, s1: State, x: Execution, position: Position)
    requires Works(s, s1.(executions := map[]), x)
    requires position == Undoing ==> x.position.Resolving? || x.position.GotForward?
    requires position == AwaitingReverse ==> x.position.Undoing?
    ensures Works(s, MoveTo(s1, x, position), x)
  {
  }

  lemma LeaveWorks(s: State, s1: State, x: Execution, outcome: Outcome)
    requires Works(s, s1.(executions := map[]), x)
    ensures Works(s, Leave(s1, x, outcome), x)
  {
  }

  lemma AfterWorks(s: State, s1: State, x: Execution, outcome: Outcome)
    requires Works(s, s1.(executions := map[]), x)
    requires !outcome.Unknown? ==> x.position.Resolving? || x.position.GotForward?
    ensures Works(s, AfterForward(Payments, s1, x, outcome), x)
  {
    hide Works, MoveTo, Leave;
    LeaveWorks(s, s1, x, Unknown);
    if !outcome.Unknown? { MoveWorks(s, s1, x, Afterwards(Payments, x.command, outcome)); }
  }

  lemma FinalizeWorks(s: State, x: Execution, outcome: Outcome)
    requires x.position == Committing(outcome)
    ensures Works(s, Finalize(Payments, s, x, outcome), x)
  {
    hide Altered, Commit;
  }

  lemma TablesWork(s: State, s1: State, x: Execution)
    requires SameDetails(Get(s.effects, x.command.orderId), Get(s1.effects, x.command.orderId))
    requires forall c | c in s1.issued && c.orderId == x.command.orderId && c.operation == RefundPayment ::
      c in s.issued || x.position.Undoing?
    ensures Works(s, s1.(executions := map[]), x)
  {
  }

  lemma AdvanceWorks(s: State, x: Execution, mode: Mode, timely: bool)
    requires Get(s.executions, x.command.orderId) == Some(x) && x.position != Opened
    requires HasRow(s, x)
    ensures Works(s, Advance(Payments, s, x.command.orderId, mode, timely), x)
  {
    hide Works, MoveTo, Leave, AfterForward, Finalize, Execute;
    var o := x.command.orderId;
    TablesWork(s, s, x);
    match x.position {
      case Resolving =>
        if s.effects[o].result.Some? {
          AfterWorks(s, s, x, s.effects[o].result.value);
        } else {
          var s1 := s.(issued := s.issued + {ForwardCall(Payments, o, s.effects[o])});
          TablesWork(s, s1, x);
          MoveWorks(s, s1, x, AwaitingForward);
        }
      case AwaitingForward =>
        AfterWorks(s, s, x, Unknown);
        var (tables, outcome) := Execute(Payments, s.provider, ForwardCall(Payments, o, s.effects[o]), mode);
        var s1 := s.(provider := tables);
        TablesWork(s, s1, x);
        AfterWorks(s, s1, x, Unknown);
        MoveWorks(s, s1, x, GotForward(outcome));
      case GotForward(outcome) =>
        var s1 := s.(effects := s.effects[o := Settled(s.effects[o], outcome)]);
        TablesWork(s, s1, x);
        AfterWorks(s, s1, x, outcome);
      case Undoing =>
        var s1 := s.(issued := s.issued + {ReverseCall(Payments, o, x.command.sagaId)});
        TablesWork(s, s1, x);
        MoveWorks(s, s1, x, AwaitingReverse);
      case AwaitingReverse =>
        LeaveWorks(s, s, x, Unknown);
        var (tables, outcome) := Execute(Payments, s.provider, ReverseCall(Payments, o, x.command.sagaId), mode);
        var s1 := s.(provider := tables);
        TablesWork(s, s1, x);
        LeaveWorks(s, s1, x, outcome);
        MoveWorks(s, s1, x, Committing(outcome));
      case Committing(outcome) => FinalizeWorks(s, x, outcome);
    }
  }

  /** An execution that settles the charge works on its row. */
  predicate HasRow(s: State, x: Execution) {
    x.position in {Resolving, AwaitingForward} || x.position.GotForward? ==> x.command.orderId in s.effects
  }

  lemma WorkingAt(s: State, o: Uuid)
    requires Consistent(Payments, s) && o in s.executions && s.executions[o].position != Opened
    ensures s.executions[o].command.orderId == o && HasRow(s, s.executions[o])
    ensures s.executions[o].command.operation == RefundPayment ==>
      s.executions[o].position == Resolving || s.executions[o].position.GotForward? ==> Suspicious(s, o)
    ensures s.executions[o].position == Undoing && CashOrder(s, o) ==> Suspicious(s, o)
  {
    hide OrderOk, CallOk, ReceiptOk, AnswersOk;
    assert ExecutionAtOk(Payments, s, o);
  }

  /** Once underway, only the step that makes the call adds to what was issued, and it is suspect. */
  lemma WorkExplains(s: State, e: Event, o: Uuid)
    requires Consistent(Payments, s) && e.Continue? && Possible(Payments, s, e) && e.orderId == o
    requires s.executions[o].position != Opened
    ensures Explained(s, e, Step(Payments, s, e), o)
  {
    hide Consistent, Explained, Advance, Suspicious, HasRow;
    WorkingAt(s, o);
    AdvanceWorks(s, s.executions[o], e.mode, e.timely);
    OwnExplains(s, e, Step(Payments, s, e), o);
  }

  lemma StepExplains(s: State, e: Event, o: Uuid)
    requires Consistent(Payments, s) && Possible(Payments, s, e)
    ensures Explained(s, e, Step(Payments, s, e), o)
  {
    hide Consistent, Explained, Begin, Advance, Execute, Commit, Altered;
    match e {
      case Start(message, c) => StartExplains(s, message, c, o);
      case Continue(p, _, _) =>
        if p != o { OthersExplain(s, e, o); }
        else if s.executions[o].position == Opened { OpenExplains(s, e, o); }
        else { WorkExplains(s, e, o); }
      case _ => NothingNew(s, e, Step(Payments, s, e), o);
    }
  }

  // ---------- Over every run ----------

  lemma {:induction false} SuspicionHasCause(r: Run, i: nat, o: Uuid)
    requires IsRun(Payments, r) && i < |r.states|
    ensures Suspicious(r.states[i], o) ==> OpenedBefore(r, i, o)
    ensures CashOrder(r.states[i], o) && RefundIssued(r.states[i], o) ==> OpenedBefore(r, i, o)
  {
    if i == 0 {
      assert r.states[0] == EMPTY;
    } else {
      SuspicionHasCause(r, i - 1, o);
      RunsStayConsistent(Payments, r, i - 1);
      hide Consistent, Step, Suspicious, RefundIssued, IsCash;
      StepExplains(r.states[i - 1], r.events[i - 1], o);
      if OpensHere(r.states[i - 1], r.events[i - 1], o) && o in r.states[i].executions {
        assert OpensOnPending(r, i - 1, o);
      }
      if OpenedBefore(r, i - 1, o) {
        var j :| 0 <= j < i - 1 && OpensOnPending(r, j, o);
        assert OpensOnPending(r, j, o);
      }
    }
  }

  /** In every run, whatever commands arrive under whatever keys: the provider is asked to refund a
      cash-on-delivery order only after some refund was opened while its charge was PENDING. */
  lemma CashCallsHaveCause(r: Run, i: nat, o: Uuid, c: Command)
    requires IsRun(Payments, r) && i < |r.states| && CashOrder(r.states[i], o)
    requires c in r.states[i].issued && c.orderId == o && c.operation == RefundPayment
    ensures OpenedBefore(r, i, o)
  {
    assert RefundIssued(r.states[i], o);
    SuspicionHasCause(r, i, o);
  }

  lemma UndoneWasCalled(s: State, o: Uuid)
    requires Consistent(Payments, s) && CashOrder(s, o)
    requires o in s.provider.accounts && s.provider.accounts[o].status == UndoneAccount
    ensures RefundIssued(s, o)
  {
    hide CallOk, ReceiptOk, AnswersOk, ExecutionAtOk, EffectOk, IsCash;
    assert OrderOk(Payments, o, ViewAt(Payments, s, o));
    var key := SagaKey(s.effects[o].sagaId, RefundPayment);
    assert CommandOf(key, s.provider.requests[key].content) in s.issued;
  }

  /** So whenever the provider has given such an order's money back, that is why. */
  lemma RefundedCashHasCause(r: Run, i: nat, o: Uuid)
    requires IsRun(Payments, r) && i < |r.states| && CashOrder(r.states[i], o)
    requires o in r.states[i].provider.accounts && r.states[i].provider.accounts[o].status == UndoneAccount
    ensures OpenedBefore(r, i, o)
  {
    RunsStayConsistent(Payments, r, i);
    UndoneWasCalled(r.states[i], o);
    SuspicionHasCause(r, i, o);
  }

  // ---------- From every state ----------

  /** `Begin` opens an execution: the order is not locked, and the key is new or still open. */
  predicate Admitted(s: State, c: Command) {
    && c.orderId !in s.executions
    && (c.key in s.receipts ==> s.receipts[c.key] == Receipt(Fingerprint(c), None))
  }

  /** The provider answers the charge with a refusal, whatever its mode: it has answered the
      saga's charge key before, and holds no account. */
  predicate Refusing(s: State, o: Uuid)
    requires o in s.effects
  {
    SagaKey(s.effects[o].sagaId, ChargePayment) in s.provider.requests && o !in s.provider.accounts
  }

  /** The saga's own charge is PENDING, and the provider has not refused it. */
  predicate Exposed(s: State, c: Command) {
    var o := c.orderId;
    && o in s.effects && s.effects[o].status == PendingEffect && s.effects[o].sagaId == c.sagaId
    && !Refusing(s, o)
  }

  /** A trace of one undisturbed execution of the command from this state. */
  predicate OneExecution(r: Run, s: State, message: Option<Uuid>, c: Command) {
    && IsTrace(Payments, r) && |r.events| > 0 && r.states[0] == s && r.events[0] == Start(message, c)
    && forall k :: 0 < k < |r.events| ==> r.events[k].Continue? && r.events[k].orderId == c.orderId
  }

  /** The execution has asked the provider for the refund. */
  predicate CalledBack(s: State, o: Uuid) {
    o in s.executions && s.executions[o].position == AwaitingReverse
  }

  ghost predicate MayCallBack(s: State, message: Option<Uuid>, c: Command) {
    exists r: Run, k: nat :: OneExecution(r, s, message, c) && k < |r.states| && CalledBack(r.states[k], c.orderId)
  }

  /** Whether the row's own forward call is refused. */
  predicate Doomed(s: State, o: Uuid) {
    o in s.effects && s.effects[o].result.None? && Refusing(s, o)
  }

  /** Where an execution that will not call the provider back may be. */
  predicate Spared(s: State, c: Command) {
    && (c.orderId in s.effects ==> IsCash(s.effects[c.orderId]))
    && (c.orderId in s.executions ==>
          && s.executions[c.orderId].command == c
          && match s.executions[c.orderId].position
             case Opened => !Exposed(s, c)
             case Resolving => Doomed(s, c.orderId)
             case AwaitingForward => Doomed(s, c.orderId)
             case GotForward(outcome) => outcome.Failed?
             case Committing(_) => true
             case _ => false)
  }

  lemma RefusedReply(s: State, o: Uuid, mode: Mode)
    requires Consistent(Payments, s) && Doomed(s, o)
    ensures Execute(Payments, s.provider, ForwardCall(Payments, o, s.effects[o]), mode).0 == s.provider
    ensures Execute(Payments, s.provider, ForwardCall(Payments, o, s.effects[o]), mode).1.Failed?
  {
    hide CallOk, ReceiptOk, AnswersOk, ExecutionAtOk, EffectOk;
    assert OrderOk(Payments, o, ViewAt(Payments, s, o));
  }

  lemma StartSpares(x: Execution, v: View, o: Uuid)
    requires OrderOk(Payments, o, v) && x.effect == v.effect && x.undo == v.undo
    requires v.effect.Some? ==> IsCash(v.effect.value)
    ensures ReverseStart(x).Committing? || ReverseStart(x) == Resolving
    ensures ReverseStart(x) == Resolving ==>
      v.effect.Some? && v.effect.value.status == PendingEffect && v.effect.value.result.None?
  {
  }

  lemma OpenSpares(s: State, c: Command, o: Uuid)
    requires Consistent(Payments, s) && Spared(s, c) && c.operation == RefundPayment && o == c.orderId
    requires o in s.executions && s.executions[o].position == Opened
    ensures Spared(Open(Payments, s, s.executions[o]), c)
  {
    hide Consistent, OrderOk, ReverseStart, Open, IsCash, OtherSaga;
    OpenedAt(s, o);
    var x, v := s.executions[o], ViewAt(Payments, s, o);
    OpenShape(s, x);
    StartSpares(x, v, o);
  }

  lemma CommitSpares(s: State, c: Command, outcome: Outcome)
    requires Spared(s, c) && c.orderId in s.executions && s.executions[c.orderId].position == Committing(outcome)
    ensures Spared(Finalize(Payments, s, s.executions[c.orderId], outcome), c)
  {
    hide Altered, Commit, Exposed, Doomed;
    FinalizeWorks(s, s.executions[c.orderId], outcome);
  }

  /** A refund that is not exposed stays away from the provider's reverse operation. */
  lemma AdvanceSpares(s: State, c: Command, mode: Mode, timely: bool)
    requires Consistent(Payments, s) && Spared(s, c) && c.operation == RefundPayment && c.orderId in s.executions
    ensures Spared(Advance(Payments, s, c.orderId, mode, timely), c)
  {
    hide Consistent, Exposed, Finalize, Open, Execute, ReverseCall;
    match s.executions[c.orderId].position {
      case Opened => OpenSpares(s, c, c.orderId);
      case AwaitingForward => RefusedReply(s, c.orderId, mode);
      case Committing(outcome) => CommitSpares(s, c, outcome);
      case _ =>
    }
  }

  lemma BeginSpares(s: State, message: Option<Uuid>, c: Command)
    requires Admitted(s, c) && !Exposed(s, c) && (c.orderId in s.effects ==> IsCash(s.effects[c.orderId]))
    ensures Spared(Begin(s, message, c), c)
  {
  }

  lemma {:induction false} ExecutionSpares(r: Run, s: State, message: Option<Uuid>, c: Command, k: nat)
    requires OneExecution(r, s, message, c) && k < |r.states| && Consistent(Payments, s)
    requires Admitted(s, c) && !Exposed(s, c) && (c.orderId in s.effects ==> IsCash(s.effects[c.orderId]))
    requires c.operation == RefundPayment
    ensures Consistent(Payments, r.states[k]) && (k > 0 ==> Spared(r.states[k], c))
  {
    if k > 0 {
      ExecutionSpares(r, s, message, c, k - 1);
      hide Consistent, Spared, Admitted, Exposed, IsCash, Begin, Advance, Execute;
      StepKeepsConsistent(Payments, r.states[k - 1], r.events[k - 1]);
      if k == 1 {
        BeginSpares(s, message, c);
      } else {
        AdvanceSpares(r.states[k - 1], c, r.events[k - 1].mode, r.events[k - 1].timely);
      }
    }
  }

  /** The provider grants a charge it has not refused. */
  lemma WillingReply(s: State, o: Uuid)
    requires Consistent(Payments, s) && o in s.effects && s.effects[o].status == PendingEffect && !Refusing(s, o)
    ensures Execute(Payments, s.provider, ForwardCall(Payments, o, s.effects[o]), SuccessMode).1.Succeeded?
    ensures s.effects[o].result.None?
    ensures o in s.undos ==> s.undos[o].status == PendingUndo && s.undos[o].sagaId == s.effects[o].sagaId
  {
    hide CallOk, ReceiptOk, AnswersOk, ExecutionAtOk;
    assert OrderOk(Payments, o, ViewAt(Payments, s, o));
  }

  /** One more step of the execution, in time and in success mode. */
  lemma Onward(r: Run, s: State, message: Option<Uuid>, c: Command) returns (longer: Run)
    requires OneExecution(r, s, message, c) && c.orderId in r.states[|r.states| - 1].executions
    requires r.states[|r.states| - 1].executions[c.orderId].command == c
    ensures OneExecution(longer, s, message, c)
    ensures longer.states[|longer.states| - 1] ==
      Advance(Payments, r.states[|r.states| - 1], c.orderId, SuccessMode, true)
  {
    hide Advance;
    var e := Continue(c.orderId, SuccessMode, true);
    longer := Run(r.states + [Step(Payments, r.states[|r.states| - 1], e)], r.events + [e]);
  }

  /** The execution is at this position, over the rows and the provider it began with. */
  predicate Reaches(s: State, r: Run, message: Option<Uuid>, c: Command, position: Position) {
    && OneExecution(r, s, message, c)
    && var s', o := r.states[|r.states| - 1], c.orderId;
       && Get(s'.executions, o) == Some(Execution(message, c, Get(s.effects, o), Get(s.undos, o), position))
       && (!position.GotForward? && !position.Undoing? ==> s'.provider == s.provider && s'.effects == s.effects)
       && (position.GotForward? ==> s'.effects == s.effects)
  }

  lemma Opens(s: State, message: Option<Uuid>, c: Command) returns (r: Run)
    requires Admitted(s, c) && WellFormed(Payments, c)
    ensures Reaches(s, r, message, c, Opened)
  {
    r := Run([s, Begin(s, message, c)], [Start(message, c)]);
  }

  lemma Resolves(s: State, r: Run, message: Option<Uuid>, c: Command) returns (longer: Run)
    requires Reaches(s, r, message, c, Opened) && c.operation == RefundPayment && Consistent(Payments, s)
    requires Exposed(s, c)
    ensures Reaches(s, longer, message, c, Resolving)
  {
    WillingReply(s, c.orderId);
    hide Consistent, Refusing, OneExecution;
    longer := Onward(r, s, message, c);
  }

  lemma Asks(s: State, r: Run, message: Option<Uuid>, c: Command) returns (longer: Run)
    requires Reaches(s, r, message, c, Resolving) && c.operation == RefundPayment && Consistent(Payments, s)
    requires Exposed(s, c)
    ensures Reaches(s, longer, message, c, AwaitingForward)
  {
    WillingReply(s, c.orderId);
    hide Consistent, Refusing, OneExecution, Execute;
    longer := Onward(r, s, message, c);
  }

  lemma Hears(s: State, r: Run, message: Option<Uuid>, c: Command) returns (longer: Run, outcome: Outcome)
    requires Reaches(s, r, message, c, AwaitingForward) && c.operation == RefundPayment && Consistent(Payments, s)
    requires Exposed(s, c)
    ensures Reaches(s, longer, message, c, GotForward(outcome)) && outcome.Succeeded?
  {
    WillingReply(s, c.orderId);
    hide Consistent, Refusing, OneExecution, Execute;
    longer := Onward(r, s, message, c);
    outcome := Execute(Payments, s.provider, ForwardCall(Payments, c.orderId, s.effects[c.orderId]), SuccessMode).1;
  }

  lemma TurnsBack(s: State, r: Run, message: Option<Uuid>, c: Command, outcome: Outcome) returns (longer: Run)
    requires Reaches(s, r, message, c, GotForward(outcome)) && c.operation == RefundPayment && outcome.Succeeded?
    requires c.orderId in s.effects
    ensures Reaches(s, longer, message, c, Undoing)
  {
    hide OneExecution;
    longer := Onward(r, s, message, c);
  }

  lemma CallsBack(s: State, r: Run, message: Option<Uuid>, c: Command)
    requires Reaches(s, r, message, c, Undoing)
    ensures MayCallBack(s, message, c)
  {
    hide OneExecution;
    var longer := Onward(r, s, message, c);
    NotNothing(longer, s, message, c);
    assert CalledBack(longer.states[|longer.states| - 1], c.orderId);
  }

  lemma NotNothing(r: Run, s: State, message: Option<Uuid>, c: Command)
    requires OneExecution(r, s, message, c)
    ensures |r.states| > 0
  {
  }

  /** From every consistent state, under any keys: a refund of an order that pays on delivery, once
      admitted, can ask the provider for the money back exactly when it finds the saga's charge
      PENDING and the provider has not refused that charge. */
  lemma CashRefundExactly(s: State, message: Option<Uuid>, c: Command)
    requires Consistent(Payments, s) && WellFormed(Payments, c) && c.operation == RefundPayment && Admitted(s, c)
    requires c.orderId in s.effects ==> IsCash(s.effects[c.orderId])
    ensures MayCallBack(s, message, c) <==> Exposed(s, c)
  {
    hide Consistent, Admitted, Reaches, IsCash;
    if Exposed(s, c) {
      var r := Opens(s, message, c);
      r := Resolves(s, r, message, c);
      r := Asks(s, r, message, c);
      var outcome;
      r, outcome := Hears(s, r, message, c);
      r := TurnsBack(s, r, message, c, outcome);
      CallsBack(s, r, message, c);
    } else {
      hide Exposed, OneExecution, CalledBack, Spared;
      forall r: Run, k: nat | OneExecution(r, s, message, c) && k < |r.states|
        ensures !CalledBack(r.states[k], c.orderId)
      {
        ExecutionSpares(r, s, message, c, k);
        SparedIsQuiet(r, s, message, c, k);
      }
    }
  }

  lemma SparedIsQuiet(r: Run, s: State, message: Option<Uuid>, c: Command, k: nat)
    requires OneExecution(r, s, message, c) && k < |r.states| && Admitted(s, c)
    requires k > 0 ==> Spared(r.states[k], c)
    ensures !CalledBack(r.states[k], c.orderId)
  {
  }

  // ---------- Afterwards ----------

  /** What such an order's row and refund can be once the provider has given the money back: both
      REFUNDED, or the row PAY_ON_DELIVERY with a refund that is pending or NOOP. */
  lemma RefundedCashOutcomes(r: Run, i: nat, o: Uuid)
    requires IsRun(Payments, r) && i < |r.states| && CashOrder(r.states[i], o)
    requires o in r.states[i].provider.accounts && r.states[i].provider.accounts[o].status == UndoneAccount
    ensures o in r.states[i].undos
    ensures
      var row, refund := r.states[i].effects[o].status, r.states[i].undos[o].status;
      if refund == UndoneUndo then row == UndoneEffect else row == OnDelivery
  {
    RunsStayConsistent(Payments, r, i);
    hide IsRun;
    assert OrderOk(Payments, o, ViewAt(Payments, r.states[i], o));
  }

  /** The provider gave the money back, and the refund is recorded as NOOP. */
  predicate NoopYetRefunded(s: State, o: Uuid) {
    && o in s.undos && s.undos[o].status == NoopUndo && CashOrder(s, o)
    && o in s.provider.accounts && s.provider.accounts[o].status == UndoneAccount
  }

  /** Such a disagreement is for good: no later command, retry or late call ever mends it. */
  lemma DisagreementStays(r: Run, i: nat, j: nat, o: Uuid)
    requires IsRun(Payments, r) && i <= j < |r.states| && NoopYetRefunded(r.states[i], o)
    ensures NoopYetRefunded(r.states[j], o) && r.states[j].effects[o].status == OnDelivery
  {
    RunsEvolve(Payments, r, i, j);
    RunsStayConsistent(Payments, r, j);
    hide IsRun;
    assert Evolves(ViewAt(Payments, r.states[i], o), ViewAt(Payments, r.states[j], o));
    assert OrderOk(Payments, o, ViewAt(Payments, r.states[j], o));
  }
}
