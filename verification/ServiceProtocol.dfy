/** A payment or shipping service under the orchestrator's protocol: it is sent only commands
    from a growing set in which keys name the saga and the operation, an order has one saga and
    one payload, and an undo is asked for only after the forward operation answered success. */
module ServiceProtocol {
  import opened Contracts
  import opened Provider
  import opened Mailbox
  import opened Service
  import opened ServiceInvariant

  /** The commands an orchestrator ever sends to this service. */
  predicate Protocol(kind: Kind, sent: set<Command>) {
    Disciplined(sent) && forall c | c in sent :: WellFormed(kind, c)
  }

  /** The completed answer stored under a key. */
  function AnswerAt(s: State, key: Key): Option<Outcome> {
    if key in s.receipts then s.receipts[key].result else None
  }

  predicate Done(s: State, key: Key) {
    AnswerAt(s, key).Some? && AnswerAt(s, key).value.Succeeded?
  }

  predicate Rely(kind: Kind, s: State, sent: set<Command>) {
    && Protocol(kind, sent)
    && (forall c | c in sent && c.operation == ReverseOp(kind) :: Done(s, SagaKey(c.sagaId, ForwardOp(kind))))
  }

  /** Everything the service holds was caused by a sent command. */
  predicate SentOnly(kind: Kind, s: State, sent: set<Command>) {
    && (forall k | k in s.receipts :: CommandOf(k, s.receipts[k].content) in sent)
    && (forall o | o in s.executions :: s.executions[o].command in sent)
    && (forall a | a in s.answers :: a.command in sent)
    && (forall m | m in s.mail.inbox :: s.mail.inbox[m] in sent)
    && (forall o | o in s.effects :: ForwardCall(kind, o, s.effects[o]) in sent)
    && (forall o | o in s.undos :: ReverseCall(kind, o, s.undos[o].sagaId) in sent)
  }

  /** No IDEMPOTENCY_CONFLICT, ALREADY_COMPENSATED or INVALID_STATE, and no refused undo. */
  predicate Benign(kind: Kind, op: Operation, outcome: Outcome) {
    match outcome
    case Unknown => true
    case Succeeded(_) => true
    case Failed(code) => op == ForwardOp(kind) && code == Rejection(kind)
  }

  /** A definite answer is the completed receipt's answer. */
  predicate Told(receipts: map<Key, Receipt>, c: Command, outcome: Outcome) {
    !outcome.Unknown? ==> c.key in receipts && receipts[c.key] == Receipt(Fingerprint(c), Some(outcome))
  }

  /** Work in progress that cannot end badly; only charges that are really collected are undone. */
  predicate Harmless(kind: Kind, x: Execution, e: Option<Effect>) {
    match x.position
    case GotForward(outcome) => x.command.operation == ForwardOp(kind) && Benign(kind, x.command.operation, outcome)
    case Committing(outcome) =>
      && Benign(kind, x.command.operation, outcome)
      && (outcome == Succeeded(Undone) ==> e.Some? && SettledStatus(e.value.details) == Service.Done)
    case Resolving => x.command.operation == ForwardOp(kind)
    case AwaitingForward => x.command.operation == ForwardOp(kind)
    case Undoing => e.Some? && SettledStatus(e.value.details) == Service.Done
    case AwaitingReverse => e.Some? && SettledStatus(e.value.details) == Service.Done
    case Opened => true
  }

  /** Only a charge that is really collected is ever asked back. */
  predicate Collected(kind: Kind, c: Command, e: Option<Effect>) {
    c.operation == ReverseOp(kind) ==> e.Some? && SettledStatus(e.value.details) == Service.Done
  }

  predicate AllBenign(kind: Kind, s: State) {
    && (forall c | c in s.issued :: Collected(kind, c, Get(s.effects, c.orderId)))
    && (forall k | k in s.receipts && s.receipts[k].result.Some? ::
        Benign(kind, s.receipts[k].content.operation, s.receipts[k].result.value))
    && (forall o | o in s.effects && s.effects[o].result.Some? ::
        Benign(kind, ForwardOp(kind), s.effects[o].result.value))
    && (forall o | o in s.executions :: Harmless(kind, s.executions[o], Get(s.effects, o)))
    && (forall a | a in s.answers ::
        Benign(kind, a.command.operation, a.outcome) && Told(s.receipts, a.command, a.outcome))
    && (forall i | 0 <= i < |s.mail.outbox| ::
          && Benign(kind, s.mail.outbox[i].result.operation, s.mail.outbox[i].result.outcome)
          && s.mail.outbox[i].causationId in s.mail.inbox
          && Told(s.receipts, s.mail.inbox[s.mail.outbox[i].causationId], s.mail.outbox[i].result.outcome))
    && (forall o | o in s.effects && s.effects[o].status == UndoneEffect ::
        SettledStatus(s.effects[o].details) == Service.Done)
  }

  ghost predicate InProtocol(kind: Kind, s: State, sent: set<Command>) {
    Rely(kind, s, sent) && Consistent(kind, s) && SentOnly(kind, s, sent) && AllBenign(kind, s)
  }

  // ---------- Consequences of the protocol ----------

  /** One saga, one command per operation: keys and orders determine the command. */
  lemma KeyDetermines(kind: Kind, s: State, sent: set<Command>, c: Command)
    requires Rely(kind, s, sent) && SentOnly(kind, s, sent) && c in sent && c.key in s.receipts
    ensures s.receipts[c.key].content == Fingerprint(c)
  {
    var d := CommandOf(c.key, s.receipts[c.key].content);
    assert d in sent;
    assert d.sagaId == c.sagaId && d.operation == c.operation;
    assert c == d;
  }

  lemma RowsAreOwn(kind: Kind, s: State, sent: set<Command>, c: Command)
    requires Rely(kind, s, sent) && SentOnly(kind, s, sent) && c in sent
    ensures c.orderId in s.effects ==> s.effects[c.orderId].sagaId == c.sagaId
    ensures c.orderId in s.effects && c.operation == ForwardOp(kind) ==> s.effects[c.orderId].details == c.payload
    ensures c.orderId in s.undos ==> s.undos[c.orderId].sagaId == c.sagaId
    ensures c.orderId in s.undos ==> Done(s, SagaKey(c.sagaId, ForwardOp(kind)))
  {
    if c.orderId in s.effects {
      var d := ForwardCall(kind, c.orderId, s.effects[c.orderId]);
      assert d in sent && d.orderId == c.orderId;
    }
    if c.orderId in s.undos {
      var d := ReverseCall(kind, c.orderId, s.undos[c.orderId].sagaId);
      assert d in sent && d.orderId == c.orderId;
    }
  }

  /** A forward answer is what the row says. */
  lemma DoneRow(kind: Kind, s: State, sent: set<Command>, c: Command)
    requires Rely(kind, s, sent) && SentOnly(kind, s, sent) && DataOk(kind, s)
    requires c in sent && Done(s, SagaKey(c.sagaId, ForwardOp(kind)))
    ensures c.orderId in s.effects && s.effects[c.orderId].result == AnswerAt(s, SagaKey(c.sagaId, ForwardOp(kind)))
    ensures s.effects[c.orderId].sagaId == c.sagaId
  {
    var k := SagaKey(c.sagaId, ForwardOp(kind));
    var d := CommandOf(k, s.receipts[k].content);
    assert d in sent && d.sagaId == c.sagaId;
    assert ReceiptOk(kind, s.receipts[k], ViewAt(kind, s, d.orderId));
  }

  /** The provider answers this order's own key with this order's own call. */
  lemma OwnKey(kind: Kind, s: State, sent: set<Command>, c: Command)
    requires Rely(kind, s, sent) && SentOnly(kind, s, sent) && DataOk(kind, s)
    requires c in s.issued && c.key in s.provider.requests
    ensures s.provider.requests[c.key].content == Fingerprint(c)
  {
    var d := CommandOf(c.key, s.provider.requests[c.key].content);
    assert CallOk(kind, c, ViewAt(kind, s, c.orderId));
    assert CallOk(kind, d, ViewAt(kind, s, d.orderId));
    var ec, ed := s.effects[c.orderId], s.effects[d.orderId];
    assert ForwardCall(kind, c.orderId, ec) in sent && ForwardCall(kind, d.orderId, ed) in sent;
    assert ec.sagaId == ed.sagaId;
  }

  lemma FreshRepliesAreBenign(kind: Kind, c: Command, v: View, mode: Mode)
    requires OrderOk(kind, c.orderId, v) && CallOk(kind, c, v)
    requires if c.operation == ForwardOp(kind) then v.forward.None? else v.reverse.None?
    ensures var outcome := Decide(kind, v.account, c, mode).1;
      Benign(kind, c.operation, outcome) && (c.operation == ReverseOp(kind) ==> outcome == Succeeded(Undone))
  {
  }

  lemma CachedRepliesAreBenign(kind: Kind, c: Command, v: View)
    requires OrderOk(kind, c.orderId, v) && CallOk(kind, c, v)
    ensures c.operation == ForwardOp(kind) && v.forward.Some? && v.forward.value.content == Fingerprint(c) ==>
              Benign(kind, c.operation, v.forward.value.outcome)
    ensures c.operation == ReverseOp(kind) && v.reverse.Some? && v.reverse.value.content == Fingerprint(c) ==>
              v.reverse.value.outcome == Succeeded(Undone)
    ensures c.operation in {ForwardOp(kind), ReverseOp(kind)} && v.effect.Some?
      && c.key == SagaKey(v.effect.value.sagaId, c.operation)
  {
  }

  lemma RepliesAreBenign(kind: Kind, s: State, sent: set<Command>, c: Command, mode: Mode)
    requires Rely(kind, s, sent) && SentOnly(kind, s, sent) && DataOk(kind, s) && c in s.issued
    ensures Benign(kind, c.operation, Execute(kind, s.provider, c, mode).1)
    ensures c.operation == ReverseOp(kind) && Execute(kind, s.provider, c, mode).1.Succeeded? ==>
              Execute(kind, s.provider, c, mode).1 == Succeeded(Undone)
  {
    hide OrderOk, CallOk, Decide, ReceiptOk;
    var v := ViewAt(kind, s, c.orderId);
    assert OrderOk(kind, c.orderId, v);
    assert CallOk(kind, c, v);
    CachedRepliesAreBenign(kind, c, v);
    if c.key in s.provider.requests {
      OwnKey(kind, s, sent, c);
    } else {
      FreshRepliesAreBenign(kind, c, v, mode);
    }
  }

  // ---------- Steps ----------

  /** What each kind of step may change, for the clauses that do not mention it. */
  lemma RelyStays(kind: Kind, s: State, s': State, sent: set<Command>)
    requires Rely(kind, s, sent) && ReceiptsStay(s, s')
    ensures Rely(kind, s', sent)
  {
  }

  predicate Clean(kind: Kind, s: State, sent: set<Command>) {
    SentOnly(kind, s, sent) && AllBenign(kind, s)
  }

  lemma AnswerClean(kind: Kind, s: State, sent: set<Command>, message: Option<Uuid>, c: Command, outcome: Outcome)
    requires Clean(kind, s, sent) && c in sent && Benign(kind, c.operation, outcome) && Told(s.receipts, c, outcome)
    ensures Clean(kind, Answer(s, message, c, outcome), sent)
  {
    hide Harmless, Benign, Told;
  }

  lemma MoveClean(kind: Kind, s: State, sent: set<Command>, x: Execution, position: Position)
    requires Clean(kind, s, sent) && x.command in sent
    requires Harmless(kind, x.(position := position), Get(s.effects, x.command.orderId))
    ensures Clean(kind, MoveTo(s, x, position), sent)
  {
    hide Harmless, Benign, Told;
  }

  lemma LeaveClean(kind: Kind, s: State, sent: set<Command>, x: Execution, outcome: Outcome)
    requires Clean(kind, s, sent) && x.command in sent
    requires Benign(kind, x.command.operation, outcome) && Told(s.receipts, x.command, outcome)
    ensures Clean(kind, Leave(s, x, outcome), sent)
  {
    hide Harmless, Benign, Told;
    var s1 := s.(executions := s.executions - {x.command.orderId});
    assert Clean(kind, s1, sent);
    AnswerClean(kind, s1, sent, x.message, x.command, outcome);
  }

  /** Receipts: opening one, or completing one with a benign outcome. */
  lemma ReceiptKeepsTold(receipts: map<Key, Receipt>, c: Command, result: Option<Outcome>, d: Command, outcome: Outcome)
    requires c.key in receipts ==> receipts[c.key] == Receipt(Fingerprint(c), None)
    requires Told(receipts, d, outcome)
    ensures Told(receipts[c.key := Receipt(Fingerprint(c), result)], d, outcome)
  {
  }

  lemma ReceiptClean(kind: Kind, s: State, sent: set<Command>, c: Command, result: Option<Outcome>)
    requires Clean(kind, s, sent) && c in sent
    requires result.Some? ==> Benign(kind, c.operation, result.value)
    requires c.key in s.receipts ==> s.receipts[c.key] == Receipt(Fingerprint(c), None)
    ensures Clean(kind, s.(receipts := s.receipts[c.key := Receipt(Fingerprint(c), result)]), sent)
  {
    hide Harmless, Benign, Told;
    assert CommandOf(c.key, Fingerprint(c)) == c;
    forall a | a in s.answers ensures Told(s.receipts[c.key := Receipt(Fingerprint(c), result)], a.command, a.outcome) {
      ReceiptKeepsTold(s.receipts, c, result, a.command, a.outcome);
    }
    forall i | 0 <= i < |s.mail.outbox|
      ensures s.mail.outbox[i].causationId in s.mail.inbox
           && Told(s.receipts[c.key := Receipt(Fingerprint(c), result)], s.mail.inbox[s.mail.outbox[i].causationId],
                   s.mail.outbox[i].result.outcome)
    {
      ReceiptKeepsTold(s.receipts, c, result, s.mail.inbox[s.mail.outbox[i].causationId],
                       s.mail.outbox[i].result.outcome);
    }
  }

  lemma BeginClean(kind: Kind, s: State, sent: set<Command>, message: Option<Uuid>, c: Command)
    requires InProtocol(kind, s, sent) && c in sent
    ensures Clean(kind, Begin(s, message, c), sent)
  {
    hide Consistent, OrderOk, CallOk, ReceiptOk, ExecutionOk, Coupled;
    if c.key in s.receipts {
      KeyDetermines(kind, s, sent, c);
    }
    if c.orderId in s.executions {
      AnswerClean(kind, s, sent, message, c, Unknown);
    } else if c.key in s.receipts && s.receipts[c.key].result.Some? {
      AnswerClean(kind, s, sent, message, c, s.receipts[c.key].result.value);
    } else {
      ReceiptClean(kind, s, sent, c, None);
      var x := Execution(message, c, Get(s.effects, c.orderId), Get(s.undos, c.orderId), Opened);
      MoveClean(kind, s.(receipts := s.receipts[c.key := Receipt(Fingerprint(c), None)]), sent, x, Opened);
    }
  }

  /** What an execution at hand tells about its order. */
  lemma AtHand(kind: Kind, s: State, sent: set<Command>, x: Execution)
    requires InProtocol(kind, s, sent) && At(kind, s, x)
    ensures x.command in sent && WellFormed(kind, x.command) && Harmless(kind, x, Get(s.effects, x.command.orderId))
    ensures Clean(kind, s, sent) && Coupled(s.mail)
    ensures x.command.operation == ReverseOp(kind) ==>
      ReverseCall(kind, x.command.orderId, x.command.sagaId) == x.command
    ensures var o := x.command.orderId;
      && OrderOk(kind, o, ViewAt(kind, s, o))
      && ExecutionOk(kind, o, x, ViewAt(kind, s, o), Get(s.receipts, x.command.key), s.issued)
  {
    hide OrderOk, CallOk, ReceiptOk, ExecutionOk, Coupled, Told;
    Unpack(kind, s, x);
    WorkingFacts(kind, x.command.orderId, x, ViewAt(kind, s, x.command.orderId), Get(s.receipts, x.command.key),
                 s.issued);
  }

  lemma RowsWereSent(kind: Kind, s: State, sent: set<Command>, o: Uuid)
    requires Clean(kind, s, sent)
    ensures o in s.effects ==> ForwardCall(kind, o, s.effects[o]) in sent
    ensures o in s.undos ==> ReverseCall(kind, o, s.undos[o].sagaId) in sent
  {
  }

  /** A charge is never refused for an earlier refund, another saga or other details. */
  lemma ForwardOpensClean(kind: Kind, s: State, sent: set<Command>, x: Execution)
    requires InProtocol(kind, s, sent) && At(kind, s, x) && x.position == Opened
      && x.command.operation == ForwardOp(kind)
    ensures !OtherSaga(x) && x.undo.None?
    ensures x.effect.Some? ==> x.effect.value.details == x.command.payload && x.effect.value.status != UndoneEffect
  {
    AtHand(kind, s, sent, x);
    RowsAreOwn(kind, s, sent, x.command);
  }

  lemma DoneStart(kind: Kind, o: Uuid, x: Execution, v: View)
    requires OrderOk(kind, o, v) && x.effect == v.effect && x.undo == v.undo && v.effect.Some?
    requires v.effect.value.result.Some? && v.effect.value.result.value.Succeeded?
    ensures ReverseStart(x) in {Committing(Succeeded(Undone)), Committing(Succeeded(Noop)), Undoing}
    ensures ReverseStart(x) == Undoing ==> SettledStatus(x.effect.value.details) == Service.Done
    ensures ReverseStart(x) == Committing(Succeeded(Undone)) ==> v.effect.value.status == UndoneEffect
  {
  }

  /** An undo finds its forward effect done, and either nothing to collect back or a live account. */
  lemma ReverseOpensClean(kind: Kind, s: State, sent: set<Command>, x: Execution)
    requires InProtocol(kind, s, sent) && At(kind, s, x) && x.position == Opened
      && x.command.operation == ReverseOp(kind)
    ensures !OtherSaga(x) && x.effect.Some?
    ensures ReverseStart(x) in {Committing(Succeeded(Undone)), Committing(Succeeded(Noop)), Undoing}
    ensures ReverseStart(x) in {Committing(Succeeded(Undone)), Undoing} ==>
      SettledStatus(x.effect.value.details) == Service.Done
    ensures x.effect == Get(s.effects, x.command.orderId)
  {
    hide OrderOk, CallOk, ReceiptOk, ExecutionOk, Coupled, Harmless, Benign, Told, ReverseStart;
    var o := x.command.orderId;
    AtHand(kind, s, sent, x);
    WorkingFacts(kind, o, x, ViewAt(kind, s, o), Get(s.receipts, x.command.key), s.issued);
    RowsAreOwn(kind, s, sent, x.command);
    DoneRow(kind, s, sent, x.command);
    DoneStart(kind, o, x, ViewAt(kind, s, o));
  }

  /** Rewriting one row with the same saga and details. */
  lemma RowClean(kind: Kind, s: State, sent: set<Command>, o: Uuid, e: Effect)
    requires Clean(kind, s, sent)
    requires ForwardCall(kind, o, e) in sent
    requires o in s.effects ==> e.details == s.effects[o].details
    requires o !in s.effects ==> o !in s.executions || s.executions[o].position == Opened
    requires e.result.Some? ==> Benign(kind, ForwardOp(kind), e.result.value)
    requires e.status == UndoneEffect ==> SettledStatus(e.details) == Service.Done
    ensures Clean(kind, s.(effects := s.effects[o := e]), sent)
  {
    hide Benign, Told, Collected, Harmless;
    var s' := s.(effects := s.effects[o := e]);
    forall c | c in s.issued ensures Collected(kind, c, Get(s'.effects, c.orderId)) {
      RowKeepsCollected(kind, c, Get(s.effects, c.orderId), Get(s'.effects, c.orderId));
    }
    forall p | p in s.executions ensures Harmless(kind, s.executions[p], Get(s'.effects, p)) {
      if p == o { RowKeepsHarmless(kind, s.executions[o], Get(s.effects, o), e); }
    }
  }

  lemma RowKeepsCollected(kind: Kind, c: Command, e: Option<Effect>, e': Option<Effect>)
    requires Collected(kind, c, e) && (e.Some? ==> e'.Some? && e'.value.details == e.value.details)
    ensures Collected(kind, c, e')
  {
  }

  lemma RowKeepsHarmless(kind: Kind, x: Execution, e: Option<Effect>, e': Effect)
    requires Harmless(kind, x, e) && (e.Some? ==> e'.details == e.value.details)
    requires e.None? ==> x.position == Opened
    ensures Harmless(kind, x, Some(e'))
  {
  }

  lemma OpenForwardClean(kind: Kind, s: State, sent: set<Command>, x: Execution)
    requires InProtocol(kind, s, sent) && At(kind, s, x) && x.position == Opened
      && x.command.operation == ForwardOp(kind)
    ensures Clean(kind, Open(kind, s, x), sent)
  {
    hide Consistent, OrderOk, CallOk, ReceiptOk, ExecutionOk, Coupled, Told, Benign;
    var c := x.command;
    AtHand(kind, s, sent, x);
    ForwardOpensClean(kind, s, sent, x);
    if x.effect.Some? {
      MoveClean(kind, s, sent, x, Resolving);
    } else {
      var row := Effect(c.sagaId, c.payload, PendingEffect, None, None);
      assert ForwardCall(kind, c.orderId, row) == c;
      WorkingFacts(kind, c.orderId, x, ViewAt(kind, s, c.orderId), Get(s.receipts, c.key), s.issued);
      RowClean(kind, s, sent, c.orderId, row);
      MoveClean(kind, s.(effects := s.effects[c.orderId := row]), sent, x, Resolving);
    }
  }

  lemma UndoRecordedClean(kind: Kind, s: State, sent: set<Command>, c: Command, u: Undo)
    requires Clean(kind, s, sent) && ReverseCall(kind, c.orderId, u.sagaId) in sent
    ensures Clean(kind, s.(undos := s.undos[c.orderId := u]), sent)
  {
    hide Harmless, Benign, Told;
  }

  lemma OpenReverseClean(kind: Kind, s: State, sent: set<Command>, x: Execution)
    requires InProtocol(kind, s, sent) && At(kind, s, x) && x.position == Opened
      && x.command.operation == ReverseOp(kind)
    ensures Clean(kind, Open(kind, s, x), sent)
  {
    hide Consistent, Rely, SentOnly, AllBenign, Clean, OrderOk, CallOk;
    hide ReceiptOk, ExecutionOk, Coupled, Execute, Told, ReverseStart;
    var c := x.command;
    AtHand(kind, s, sent, x);
    ReverseOpensClean(kind, s, sent, x);
    var u := Undo(c.sagaId, x.effect.Some?, PendingUndo);
    UndoRecordedClean(kind, s, sent, c, u);
    MoveClean(kind, if c.orderId in s.undos then s else s.(undos := s.undos[c.orderId := u]), sent, x, ReverseStart(x));
  }

  lemma SettleClean(kind: Kind, s: State, sent: set<Command>, x: Execution)
    requires InProtocol(kind, s, sent) && At(kind, s, x) && x.position.GotForward?
    ensures Clean(kind, Advance(kind, s, x.command.orderId, SuccessMode, true), sent)
  {
    hide Consistent, Rely, SentOnly, AllBenign, Clean, OrderOk, CallOk;
    hide ReceiptOk, ExecutionOk, Coupled, Execute, Told, Benign;
    var o, outcome := x.command.orderId, x.position.outcome;
    AtHand(kind, s, sent, x);
    WorkingFacts(kind, o, x, ViewAt(kind, s, o), Get(s.receipts, x.command.key), s.issued);
    SettledOrder(kind, o, x, ViewAt(kind, s, o), Get(s.receipts, x.command.key), s.issued);
    RowsWereSent(kind, s, sent, o);
    var e := Settled(s.effects[o], outcome);
    RowClean(kind, s, sent, o, e);
    MoveClean(kind, s.(effects := s.effects[o := e]), sent, x, Committing(outcome));
  }

  /** Calls made and provider tables are not mentioned by the clauses. */
  lemma CallsAreClean(kind: Kind, s: State, sent: set<Command>, issued: set<Command>, provider: Tables)
    requires Clean(kind, s, sent)
    requires forall c | c in issued :: c in s.issued || Collected(kind, c, Get(s.effects, c.orderId))
    ensures Clean(kind, s.(issued := issued), sent) && Clean(kind, s.(provider := provider), sent)
  {
    hide Harmless, Benign, Told;
  }

  lemma ResultIsBenign(kind: Kind, s: State, sent: set<Command>, o: Uuid)
    requires Clean(kind, s, sent) && o in s.effects && s.effects[o].result.Some?
    ensures Benign(kind, ForwardOp(kind), s.effects[o].result.value)
  {
  }

  lemma ResolvingClean(kind: Kind, s: State, sent: set<Command>, x: Execution)
    requires InProtocol(kind, s, sent) && At(kind, s, x) && x.position == Resolving
    ensures Clean(kind, Advance(kind, s, x.command.orderId, SuccessMode, true), sent)
  {
    hide Consistent, OrderOk, CallOk, ReceiptOk, ExecutionOk, Coupled, Execute, Told, SentOnly, AllBenign, Benign, Rely;
    var o := x.command.orderId;
    AtHand(kind, s, sent, x);
    WorkingFacts(kind, o, x, ViewAt(kind, s, o), Get(s.receipts, x.command.key), s.issued);
    if s.effects[o].result.Some? {
      ResultsAreDefinite(kind, o, ViewAt(kind, s, o));
      ResultIsBenign(kind, s, sent, o);
      MoveClean(kind, s, sent, x, Committing(s.effects[o].result.value));
    } else {
      CallsAreClean(kind, s, sent, s.issued + {ForwardCall(kind, o, s.effects[o])}, s.provider);
      MoveClean(kind, s.(issued := s.issued + {ForwardCall(kind, o, s.effects[o])}), sent, x, AwaitingForward);
    }
  }

  lemma UndoingClean(kind: Kind, s: State, sent: set<Command>, x: Execution)
    requires InProtocol(kind, s, sent) && At(kind, s, x) && x.position == Undoing
    ensures Clean(kind, Advance(kind, s, x.command.orderId, SuccessMode, true), sent)
  {
    hide Consistent, Rely, SentOnly, AllBenign, Clean, OrderOk, CallOk;
    hide ReceiptOk, ExecutionOk, Coupled, Execute, Told, Benign;
    var o := x.command.orderId;
    AtHand(kind, s, sent, x);
    CallsAreClean(kind, s, sent, s.issued + {ReverseCall(kind, o, x.command.sagaId)}, s.provider);
    MoveClean(kind, s.(issued := s.issued + {ReverseCall(kind, o, x.command.sagaId)}), sent, x, AwaitingReverse);
  }

  lemma AwaitingClean(kind: Kind, s: State, sent: set<Command>, x: Execution, mode: Mode, timely: bool)
    requires InProtocol(kind, s, sent) && At(kind, s, x)
    requires x.position in {AwaitingForward, AwaitingReverse}
    ensures Clean(kind, Advance(kind, s, x.command.orderId, mode, timely), sent)
  {
    hide Consistent, Rely, SentOnly, AllBenign, OrderOk, CallOk, ReceiptOk;
    hide ExecutionOk, Coupled, Execute, Told, Benign, Harmless, Clean;
    var o := x.command.orderId;
    AtHand(kind, s, sent, x);
    WorkingFacts(kind, o, x, ViewAt(kind, s, o), Get(s.receipts, x.command.key), s.issued);
    var c := if x.position == AwaitingForward then ForwardCall(kind, o, s.effects[o])
      else ReverseCall(kind, o, x.command.sagaId);
    RepliesClean(kind, s, sent, x, c, mode);
    if x.position == AwaitingForward {
      CollectsForward(kind, s, x);
    }
  }

  lemma CollectsForward(kind: Kind, s: State, x: Execution)
    requires Harmless(kind, x, Get(s.effects, x.command.orderId)) && x.position in {AwaitingForward, Resolving}
    ensures x.command.operation == ForwardOp(kind)
  {
  }

  lemma RepliesInProtocol(kind: Kind, s: State, sent: set<Command>, c: Command, mode: Mode)
    requires InProtocol(kind, s, sent) && c in s.issued
    ensures Benign(kind, c.operation, Execute(kind, s.provider, c, mode).1)
    ensures c.operation == ReverseOp(kind) && Execute(kind, s.provider, c, mode).1.Succeeded? ==>
              Execute(kind, s.provider, c, mode).1 == Succeeded(Undone)
  {
    hide Rely, SentOnly, AllBenign, DataOk, Execute;
    RepliesAreBenign(kind, s, sent, c, mode);
  }

  lemma TablesAreClean(kind: Kind, s: State, sent: set<Command>, tables: Tables)
    requires Clean(kind, s, sent)
    ensures Clean(kind, s.(provider := tables), sent)
  {
    hide Clean;
    CallsAreClean(kind, s, sent, s.issued, tables);
  }

  lemma LeavingClean(kind: Kind, s: State, sent: set<Command>, x: Execution, tables: Tables)
    requires Clean(kind, s, sent) && Clean(kind, s.(provider := tables), sent) && x.command in sent
    ensures Clean(kind, Leave(s, x, Unknown), sent) && Clean(kind, Leave(s.(provider := tables), x, Unknown), sent)
  {
    hide Clean;
    LeaveClean(kind, s, sent, x, Unknown);
    LeaveClean(kind, s.(provider := tables), sent, x, Unknown);
  }

  lemma RepliesClean(kind: Kind, s: State, sent: set<Command>, x: Execution, c: Command, mode: Mode)
    requires InProtocol(kind, s, sent) && x.command in sent && c in s.issued
    requires Get(s.executions, x.command.orderId) == Some(x)
    ensures
      var (tables, outcome) := Execute(kind, s.provider, c, mode);
      var s1 := s.(provider := tables);
      && Clean(kind, Leave(s, x, Unknown), sent)
      && Clean(kind, Leave(s1, x, Unknown), sent)
      && (x.position == AwaitingForward && c.operation == ForwardOp(kind) ==>
          Clean(kind, MoveTo(s1, x, GotForward(outcome)), sent))
      && (x.position == AwaitingReverse && c.operation == ReverseOp(kind) ==>
            !outcome.Failed? && (outcome.Succeeded? ==> Clean(kind, MoveTo(s1, x, Committing(outcome)), sent)))
  {
    hide InProtocol, Execute, Clean, Leave, MoveTo, Told;
    RepliesInProtocol(kind, s, sent, c, mode);
    var (tables, outcome) := Execute(kind, s.provider, c, mode);
    var s1 := s.(provider := tables);
    CleanInProtocol(kind, s, sent);
    TablesAreClean(kind, s, sent, tables);
    HarmlessInProtocol(kind, s, sent, x);
    LeavingClean(kind, s, sent, x, tables);
    if x.position == AwaitingForward && c.operation == ForwardOp(kind) {
      MoveClean(kind, s1, sent, x, GotForward(outcome));
    }
    if x.position == AwaitingReverse && c.operation == ReverseOp(kind) && outcome.Succeeded? {
      MoveClean(kind, s1, sent, x, Committing(outcome));
    }
  }

  lemma HarmlessInProtocol(kind: Kind, s: State, sent: set<Command>, x: Execution)
    requires InProtocol(kind, s, sent) && Get(s.executions, x.command.orderId) == Some(x)
    ensures Harmless(kind, x, Get(s.effects, x.command.orderId))
  {
    hide Consistent, Rely, SentOnly, Benign, Told;
  }

  lemma CleanInProtocol(kind: Kind, s: State, sent: set<Command>)
    requires InProtocol(kind, s, sent)
    ensures Clean(kind, s, sent)
  {
  }

  // ---------- The final transaction and the rest ----------

  lemma CompensateClean(kind: Kind, s: State, sent: set<Command>, x: Execution)
    requires InProtocol(kind, s, sent) && At(kind, s, x) && x.command.operation == ReverseOp(kind)
    requires x.position.Committing? && x.position.outcome.Succeeded?
    ensures Clean(kind, Compensate(kind, s, x, x.position.outcome.data), sent)
  {
    hide Consistent, Rely, SentOnly, AllBenign, Clean, OrderOk, CallOk;
    hide ReceiptOk, ExecutionOk, Coupled, Execute, Told, Benign;
    var o, data := x.command.orderId, x.position.outcome.data;
    AtHand(kind, s, sent, x);
    RowsWereSent(kind, s, sent, o);
    CompensationFacts(kind, o, x, ViewAt(kind, s, o), Get(s.receipts, x.command.key), s.issued);
    var u := s.undos[o].(status := if data == Undone then UndoneUndo else NoopUndo);
    UndoRecordedClean(kind, s, sent, x.command, u);
    var s1 := s.(undos := s.undos[o := u]);
    if x.effect.Some? && o in s.effects {
      if s.effects[o].result.Some? { ResultIsBenign(kind, s, sent, o); }
      RowClean(kind, s1, sent, o, UndoneRow(kind, s.effects[o], data));
    }
  }

  lemma CompensationFacts(kind: Kind, o: Uuid, x: Execution, v: View, r: Option<Receipt>, issued: set<Command>)
    requires OrderOk(kind, o, v) && ExecutionOk(kind, o, x, v, r, issued)
    requires x.command.operation == ReverseOp(kind) && x.position.Committing?
    ensures v.undo.Some? && x.position.outcome in {Succeeded(Undone), Succeeded(Noop)}
    ensures v.effect.Some? && UndoneRow(kind, v.effect.value, x.position.outcome.data).status == UndoneEffect ==>
              x.position.outcome == Succeeded(Undone)
  {
  }

  lemma MailClean(kind: Kind, s: State, sent: set<Command>, message: Uuid, c: Command, outcome: Outcome)
    requires Clean(kind, s, sent) && Coupled(s.mail) && c in sent
    requires Benign(kind, c.operation, outcome) && Told(s.receipts, c, outcome)
    ensures Clean(kind, s.(mail := Commit(s.mail, message, c, outcome)), sent)
  {
    hide Harmless, Benign, Told, Collected, Coupled, SettledStatus;
    var mail := Commit(s.mail, message, c, outcome);
    forall i | 0 <= i < |mail.outbox|
      ensures Benign(kind, mail.outbox[i].result.operation, mail.outbox[i].result.outcome)
           && mail.outbox[i].causationId in mail.inbox
           && Told(s.receipts, mail.inbox[mail.outbox[i].causationId], mail.outbox[i].result.outcome)
    {
      if i < |s.mail.outbox| {
        assert mail.outbox[i] == s.mail.outbox[i];
      }
    }
  }

  lemma CommitClean(kind: Kind, s: State, sent: set<Command>, x: Execution, outcome: Outcome)
    requires Clean(kind, s, sent) && Coupled(s.mail) && x.command in sent
    requires x.command.key in s.receipts && s.receipts[x.command.key] == Receipt(Fingerprint(x.command), None)
    requires Benign(kind, x.command.operation, outcome)
    ensures
      var done := s.(
        receipts := s.receipts[x.command.key := Receipt(Fingerprint(x.command), Some(outcome))],
        mail := if x.message.Some? then Commit(s.mail, x.message.value, x.command, outcome) else s.mail);
      Clean(kind, Leave(done, x, outcome), sent)
  {
    hide Clean, Coupled, Benign;
    var s1 := s.(receipts := s.receipts[x.command.key := Receipt(Fingerprint(x.command), Some(outcome))]);
    ReceiptClean(kind, s, sent, x.command, Some(outcome));
    var s2 := s1.(mail := if x.message.Some? then Commit(s.mail, x.message.value, x.command, outcome) else s.mail);
    if x.message.Some? {
      MailClean(kind, s1, sent, x.message.value, x.command, outcome);
    }
    LeaveClean(kind, s2, sent, x, outcome);
  }

  lemma DropClean(kind: Kind, s: State, sent: set<Command>, o: Uuid)
    requires Clean(kind, s, sent)
    ensures Clean(kind, s.(executions := s.executions - {o}), sent)
  {
    hide Harmless, Benign, Told;
  }

  lemma FinalizeClean(kind: Kind, s: State, sent: set<Command>, x: Execution)
    requires InProtocol(kind, s, sent) && At(kind, s, x) && x.position.Committing?
    ensures Clean(kind, Finalize(kind, s, x, x.position.outcome), sent)
  {
    hide Consistent, Rely, SentOnly, AllBenign, Clean, OrderOk, CallOk;
    hide ReceiptOk, ExecutionOk, Coupled, Execute, Told, Benign;
    AtHand(kind, s, sent, x);
    var o, outcome := x.command.orderId, x.position.outcome;
    WorkingFacts(kind, o, x, ViewAt(kind, s, o), Get(s.receipts, x.command.key), s.issued);
    if x.message.Some? && Altered(s.mail, x.message.value, x.command) {
      DropClean(kind, s, sent, o);
    } else if x.command.operation == ReverseOp(kind) && outcome.Succeeded? {
      CompensateClean(kind, s, sent, x);
      CommitClean(kind, Compensate(kind, s, x, outcome.data), sent, x, outcome);
    } else {
      CommitClean(kind, s, sent, x, outcome);
    }
  }

  lemma AdvanceClean(kind: Kind, s: State, sent: set<Command>, o: Uuid, mode: Mode, timely: bool)
    requires InProtocol(kind, s, sent) && Possible(kind, s, Continue(o, mode, timely))
    ensures Clean(kind, Advance(kind, s, o, mode, timely), sent)
  {
    hide Clean, Rely, Consistent, SentOnly, AllBenign;
    var x := s.executions[o];
    assert At(kind, s, x);
    match x.position
    case Opened =>
      if x.command.operation == ForwardOp(kind) {
        OpenForwardClean(kind, s, sent, x);
      } else {
        AtHand(kind, s, sent, x);
        OpenReverseClean(kind, s, sent, x);
      }
    case Resolving => ResolvingClean(kind, s, sent, x);
    case AwaitingForward => AwaitingClean(kind, s, sent, x, mode, timely);
    case GotForward(_) => SettleClean(kind, s, sent, x);
    case Undoing => UndoingClean(kind, s, sent, x);
    case AwaitingReverse => AwaitingClean(kind, s, sent, x, mode, timely);
    case Committing(_) => FinalizeClean(kind, s, sent, x);
  }

  lemma LoseClean(kind: Kind, s: State, sent: set<Command>, a: Return)
    requires Clean(kind, s, sent)
    ensures Clean(kind, s.(answers := s.answers - {a}), sent)
  {
    hide Harmless, Benign, Told;
  }

  lemma AcknowledgeClean(kind: Kind, s: State, sent: set<Command>, a: Return)
    requires InProtocol(kind, s, sent) && a in s.answers
    ensures Clean(kind, Step(kind, s, Acknowledge(a)), sent)
  {
    hide OrderOk, CallOk, ReceiptOk, ExecutionOk, Coupled, Told, Benign, Harmless, Clean;
    var s1 := s.(answers := s.answers - {a});
    CleanInProtocol(kind, s, sent);
    LoseClean(kind, s, sent, a);
    MailClean(kind, s1, sent, a.message, a.command, a.outcome);
  }

  /** Protocol compatibility: no step makes the service answer with a conflict, and whatever it
      answers definitely is the completed receipt. */
  lemma StepStaysInProtocol(kind: Kind, s: State, sent: set<Command>, e: Event)
    requires InProtocol(kind, s, sent) && Possible(kind, s, e)
    requires e.Start? ==> e.command in sent
    ensures InProtocol(kind, Step(kind, s, e), sent) && Progresses(kind, s, Step(kind, s, e))
  {
    hide Clean, Rely, Consistent, AllEvolve;
    StepKeepsConsistent(kind, s, e);
    RelyStays(kind, s, Step(kind, s, e), sent);
    CleanInProtocol(kind, s, sent);
    match e {
      case Start(message, c) => BeginClean(kind, s, sent, message, c);
      case Continue(o, mode, timely) => AdvanceClean(kind, s, sent, o, mode, timely);
      case Crash(o) => DropClean(kind, s, sent, o);
      case LateCall(c, mode) => CallsAreClean(kind, s, sent, s.issued, Execute(kind, s.provider, c, mode).0);
      case Acknowledge(a) => if a in s.answers { AcknowledgeClean(kind, s, sent, a); }
      case Lose(a) => LoseClean(kind, s, sent, a);
    }
    CleanUnpacks(kind, Step(kind, s, e), sent);
  }

  lemma CleanUnpacks(kind: Kind, s: State, sent: set<Command>)
    requires Clean(kind, s, sent)
    ensures SentOnly(kind, s, sent) && AllBenign(kind, s)
  {
  }

  // ---------- More commands are sent ----------

  /** Sending one more command, if it fits the protocol. */
  lemma SendingKeepsProtocol(kind: Kind, s: State, sent: set<Command>, sent': set<Command>)
    requires InProtocol(kind, s, sent) && sent <= sent' && Rely(kind, s, sent')
    ensures InProtocol(kind, s, sent')
  {
    hide OrderOk, CallOk, ReceiptOk, ExecutionOk, Coupled, Told, Benign, Harmless;
  }

  // ---------- What the answers mean ----------

  /** A rejected forward operation left nothing behind. */
  lemma RejectedMeansFailed(kind: Kind, s: State, sent: set<Command>, c: Command)
    requires InProtocol(kind, s, sent) && c in sent && c.operation == ForwardOp(kind)
    requires AnswerAt(s, c.key).Some? && AnswerAt(s, c.key).value.Failed?
    ensures c.orderId in s.effects && s.effects[c.orderId].status == FailedEffect
    ensures c.orderId !in s.provider.accounts
  {
    KeyDetermines(kind, s, sent, c);
    var v := ViewAt(kind, s, c.orderId);
    assert ReceiptOk(kind, s.receipts[c.key], v);
    assert OrderOk(kind, c.orderId, v);
    assert Benign(kind, c.operation, AnswerAt(s, c.key).value);
  }

  /** A completed undo: collected money was given back at the provider; a cash-on-delivery charge
      was never collected and is left as it was. */
  lemma UndoneMeansUndone(kind: Kind, s: State, sent: set<Command>, c: Command)
    requires InProtocol(kind, s, sent) && c in sent && c.operation == ReverseOp(kind) && Done(s, c.key)
    ensures c.orderId in s.effects && c.orderId in s.undos && c.orderId in s.provider.accounts
    ensures SettledStatus(s.effects[c.orderId].details) == Service.Done ==>
      && s.effects[c.orderId].status == UndoneEffect && s.undos[c.orderId].status == UndoneUndo
      && s.provider.accounts[c.orderId].status == UndoneAccount
    ensures SettledStatus(s.effects[c.orderId].details) == OnDelivery ==>
      s.effects[c.orderId].status == OnDelivery && s.undos[c.orderId].status == NoopUndo
  {
    KeyDetermines(kind, s, sent, c);
    DoneRow(kind, s, sent, c);
    var v := ViewAt(kind, s, c.orderId);
    assert ReceiptOk(kind, s.receipts[c.key], v);
    assert OrderOk(kind, c.orderId, v);
  }

  /** Under the protocol no cash-on-delivery charge is ever refunded at the provider's expense: a
      refund works on settled charges only, and never asks the provider about an uncollected one. */
  lemma CashIsNotRefunded(kind: Kind, s: State, sent: set<Command>, o: Uuid)
    requires InProtocol(kind, s, sent) && o in s.effects && SettledStatus(s.effects[o].details) == OnDelivery
    ensures s.effects[o].status in {PendingEffect, OnDelivery, FailedEffect}
    ensures o in s.undos ==> s.undos[o].status != UndoneUndo
    ensures o in s.provider.accounts ==> s.provider.accounts[o].status == LiveAccount
    ensures o in s.executions && s.executions[o].command.operation == ReverseOp(kind) ==>
      s.executions[o].position == Opened || s.executions[o].position.Committing?
  {
    hide CallOk, ReceiptOk, Coupled, Told, Benign, Rely, SentOnly;
    var v := ViewAt(kind, s, o);
    assert OrderOk(kind, o, v);
    var key := SagaKey(s.effects[o].sagaId, ReverseOp(kind));
    assert key in s.provider.requests ==> CommandOf(key, s.provider.requests[key].content) in s.issued;
    assert Collected(kind, ReverseCall(kind, o, s.effects[o].sagaId), Get(s.effects, o)) ==> false;
    if o in s.executions {
      assert ExecutionAtOk(kind, s, o);
      assert Harmless(kind, s.executions[o], Get(s.effects, o));
    }
  }

  /** A completed forward operation that nobody asked to undo stands, here and at the provider. */
  lemma DoneMeansDone(kind: Kind, s: State, sent: set<Command>, c: Command)
    requires InProtocol(kind, s, sent) && c in sent && c.operation == ForwardOp(kind) && Done(s, c.key)
    requires forall d | d in sent && d.orderId == c.orderId :: d.operation != ReverseOp(kind)
    ensures c.orderId in s.effects && s.effects[c.orderId].status == SettledStatus(c.payload)
    ensures c.orderId in s.provider.accounts && s.provider.accounts[c.orderId].status == LiveAccount
  {
    KeyDetermines(kind, s, sent, c);
    DoneRow(kind, s, sent, c);
    RowsAreOwn(kind, s, sent, c);
    var v := ViewAt(kind, s, c.orderId);
    assert OrderOk(kind, c.orderId, v);
    assert forall o | o in s.undos :: ReverseCall(kind, o, s.undos[o].sagaId).operation == ReverseOp(kind);
  }

  /** An order none of whose commands were sent has no rows and no account. */
  lemma UnsentMeansAbsent(kind: Kind, s: State, sent: set<Command>, o: Uuid)
    requires InProtocol(kind, s, sent)
    requires forall d | d in sent :: d.orderId != o
    ensures o !in s.effects && o !in s.undos && o !in s.provider.accounts
  {
    assert OrderOk(kind, o, ViewAt(kind, s, o));
    assert forall p | p in s.effects :: ForwardCall(kind, p, s.effects[p]).orderId == p;
    assert forall p | p in s.undos :: ReverseCall(kind, p, s.undos[p].sagaId).orderId == p;
  }

  lemma EmptyInProtocol(kind: Kind)
    ensures InProtocol(kind, EMPTY, {})
  {
    EmptyIsConsistent(kind);
  }
}
