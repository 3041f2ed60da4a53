/** The in-memory provider of the tests (shared/src/testing/providers.ts), and its relation to the
    durable one. */
module Simulator {
  import opened Contracts
  import opened Provider
  import Service

  /** An entry of `orders`; the generated id stands for the order, as in the durable provider. */
  datatype SimOrder = SimOrder(content: Content, reference: Uuid, compensated: bool)

  datatype SimTables = SimTables(results: map<Key, Cached>, orders: map<Uuid, SimOrder>, tombstones: set<Uuid>)

  /** A command whose key is new: the new tables, the result, and whether this applied it. */
  function SimDecide(kind: Kind, s: SimTables, c: Command, mode: Mode): (SimTables, Outcome, bool) {
    var order := Get(s.orders, c.orderId);
    if c.operation == ReverseOp(kind) then
      var changed := order.Some? && !order.value.compensated;
      (s.(tombstones := s.tombstones + {c.orderId},
          orders := if order.Some? then s.orders[c.orderId := order.value.(compensated := true)] else s.orders),
       Succeeded(if changed then Undone else Noop), false)
    else if c.orderId in s.tombstones then (s, Failed(AlreadyCompensated), false)
    else if order.Some? && order.value.content != Fingerprint(c) then (s, Failed(IdempotencyConflict), false)
    else if mode == RejectMode then (s, Failed(Rejection(kind)), false)
    else if order.Some? then (s, Succeeded(Applied(order.value.reference)), false)
    else
      (s.(orders := s.orders[c.orderId := SimOrder(Fingerprint(c), ReferenceOf(c.orderId), false)]),
       Succeeded(Applied(ReferenceOf(c.orderId))), true)
  }

  function SimExecute(kind: Kind, s: SimTables, c: Command, mode: Mode): (SimTables, Outcome) {
    if c.key in s.results then
      (s, if s.results[c.key].content == Fingerprint(c) then s.results[c.key].outcome else Failed(IdempotencyConflict))
    else
      var (s', outcome, applied) := SimDecide(kind, s, c, mode);
      (s'.(results := s.results[c.key := Cached(Fingerprint(c), outcome)]),
       if applied && mode == TimeoutAfterSuccess then Unknown else outcome)
  }

  // ---------- The relation ----------

  /** A tombstone and an order entry together are the durable account's status. */
  predicate SameOrder(o: Uuid, account: Option<Account>, order: Option<SimOrder>, buried: bool) {
    match account
    case None => order.None? && !buried
    case Some(a) =>
      match a.status
      case NoopAccount => order.None? && buried && a.content.None?
      case LiveAccount =>
        order.Some? && order.value == SimOrder(order.value.content, ReferenceOf(o), false) && !buried
        && a.content == Some(order.value.content) && a.reference == Some(ReferenceOf(o))
        && order.value.content.sagaId == a.sagaId
      case UndoneAccount =>
        order.Some? && order.value == SimOrder(order.value.content, ReferenceOf(o), true) && buried
        && a.content == Some(order.value.content) && a.reference == Some(ReferenceOf(o))
        && order.value.content.sagaId == a.sagaId
  }

  ghost predicate Related(t: Tables, s: SimTables) {
    && t.requests == s.results
    && (forall o: Uuid :: SameOrder(o, Get(t.accounts, o), Get(s.orders, o), o in s.tombstones))
  }

  /** The order is new to the durable provider or belongs to the command's saga. */
  predicate OwnSaga(t: Tables, c: Command) {
    c.orderId in t.accounts ==> t.accounts[c.orderId].sagaId == c.sagaId
  }

  /** The reply of this call is lost although it applied nothing new. */
  predicate LostRepeat(kind: Kind, t: Tables, c: Command, mode: Mode) {
    && mode == TimeoutAfterSuccess
    && (|| c.operation == ReverseOp(kind)
        || (&& c.orderId in t.accounts && t.accounts[c.orderId].status == LiveAccount
            && t.accounts[c.orderId].content == Some(Fingerprint(c))))
  }

  /** Another saga's command that the two providers refuse differently, or only one refuses. */
  predicate ForeignClash(kind: Kind, t: Tables, c: Command) {
    !OwnSaga(t, c) && (c.operation == ReverseOp(kind) || t.accounts[c.orderId].status != LiveAccount)
  }

  /** From related tables, the two providers give the same answer exactly when the key is known,
      or the call neither clashes with a foreign saga nor repeats a success whose reply is lost. */
  lemma AnswersAgree(kind: Kind, t: Tables, s: SimTables, c: Command, mode: Mode)
    requires Related(t, s)
    ensures Execute(kind, t, c, mode).1 == SimExecute(kind, s, c, mode).1
        <==> c.key in t.requests || (!ForeignClash(kind, t, c) && (LostRepeat(kind, t, c, mode) ==> !OwnSaga(t, c)))
  {
    var o := c.orderId;
    assert SameOrder(o, Get(t.accounts, o), Get(s.orders, o), o in s.tombstones);
  }

  /** Only the command's own order changes. */
  lemma OthersUntouched(kind: Kind, t: Tables, s: SimTables, c: Command, mode: Mode, o: Uuid)
    requires o != c.orderId
    ensures Get(Execute(kind, t, c, mode).0.accounts, o) == Get(t.accounts, o)
    ensures var s' := SimExecute(kind, s, c, mode).0;
      Get(s'.orders, o) == Get(s.orders, o) && (o in s'.tombstones <==> o in s.tombstones)
  {
  }

  lemma OwnOrderStaysRelated(kind: Kind, t: Tables, s: SimTables, c: Command, mode: Mode)
    requires SameOrder(c.orderId, Get(t.accounts, c.orderId), Get(s.orders, c.orderId), c.orderId in s.tombstones)
    requires t.requests == s.results && OwnSaga(t, c)
    ensures var t', s' := Execute(kind, t, c, mode).0, SimExecute(kind, s, c, mode).0;
      && t'.requests == s'.results
      && SameOrder(c.orderId, Get(t'.accounts, c.orderId), Get(s'.orders, c.orderId), c.orderId in s'.tombstones)
  {
    if c.key in t.requests {
      assert Execute(kind, t, c, mode).0 == t && SimExecute(kind, s, c, mode).0 == s;
    } else if c.operation == ReverseOp(kind) {
      OwnUndoStaysRelated(kind, t, s, c, mode);
    }
  }

  lemma OwnUndoStaysRelated(kind: Kind, t: Tables, s: SimTables, c: Command, mode: Mode)
    requires SameOrder(c.orderId, Get(t.accounts, c.orderId), Get(s.orders, c.orderId), c.orderId in s.tombstones)
    requires t.requests == s.results && OwnSaga(t, c) && c.key !in t.requests && c.operation == ReverseOp(kind)
    ensures var t', s' := Execute(kind, t, c, mode).0, SimExecute(kind, s, c, mode).0;
      && t'.requests == s'.results
      && SameOrder(c.orderId, Get(t'.accounts, c.orderId), Get(s'.orders, c.orderId), c.orderId in s'.tombstones)
  {
  }

  /** With one saga per order the tables stay related, in every mode. */
  lemma CallsStayRelated(kind: Kind, t: Tables, s: SimTables, c: Command, mode: Mode)
    requires Related(t, s) && OwnSaga(t, c)
    ensures Related(Execute(kind, t, c, mode).0, SimExecute(kind, s, c, mode).0)
  {
    hide Execute, SimExecute, SameOrder, OwnSaga;
    var t', s' := Execute(kind, t, c, mode).0, SimExecute(kind, s, c, mode).0;
    OwnOrderStaysRelated(kind, t, s, c, mode);
    forall o: Uuid ensures SameOrder(o, Get(t'.accounts, o), Get(s'.orders, o), o in s'.tombstones) {
      assert SameOrder(o, Get(t.accounts, o), Get(s.orders, o), o in s.tombstones);
      if o != c.orderId { OthersUntouched(kind, t, s, c, mode, o); }
    }
  }

  // ---------- Any command sequence ----------

  function Replies(kind: Kind, t: Tables, commands: seq<Command>, mode: Mode): (r: seq<Outcome>)
    ensures |r| == |commands|
    decreases |commands|
  {
    if commands == [] then []
    else
      var (t', outcome) := Execute(kind, t, commands[0], mode);
      [outcome] + Replies(kind, t', commands[1..], mode)
  }

  function SimReplies(kind: Kind, s: SimTables, commands: seq<Command>, mode: Mode): (r: seq<Outcome>)
    ensures |r| == |commands|
    decreases |commands|
  {
    if commands == [] then []
    else
      var (s', outcome) := SimExecute(kind, s, commands[0], mode);
      [outcome] + SimReplies(kind, s', commands[1..], mode)
  }

  predicate OneSagaPerOrder(sagaOf: map<Uuid, Uuid>, commands: seq<Command>) {
    forall c | c in commands :: c.orderId in sagaOf && sagaOf[c.orderId] == c.sagaId
  }

  predicate AccountsOf(sagaOf: map<Uuid, Uuid>, t: Tables) {
    forall o | o in t.accounts :: o in sagaOf && sagaOf[o] == t.accounts[o].sagaId
  }

  /** Bisimilarity: from related tables the two providers cannot be told apart by any sequence of
      commands in success and reject modes, if each order belongs to one saga. */
  lemma {:induction false} Bisimilar(kind: Kind, t: Tables, s: SimTables, commands: seq<Command>, mode: Mode,
                                     sagaOf: map<Uuid, Uuid>)
    requires Related(t, s) && mode != TimeoutAfterSuccess
    requires OneSagaPerOrder(sagaOf, commands) && AccountsOf(sagaOf, t)
    ensures Replies(kind, t, commands, mode) == SimReplies(kind, s, commands, mode)
    decreases |commands|
  {
    if commands != [] {
      hide Related, SameOrder, Execute, SimExecute;
      var c := commands[0];
      assert c in commands;
      AnswersAgree(kind, t, s, c, mode);
      CallsStayRelated(kind, t, s, c, mode);
      AccountsStay(kind, t, c, mode, sagaOf);
      Bisimilar(kind, Execute(kind, t, c, mode).0, SimExecute(kind, s, c, mode).0, commands[1..], mode, sagaOf);
    }
  }

  lemma AccountsStay(kind: Kind, t: Tables, c: Command, mode: Mode, sagaOf: map<Uuid, Uuid>)
    requires AccountsOf(sagaOf, t) && c.orderId in sagaOf && sagaOf[c.orderId] == c.sagaId
    ensures AccountsOf(sagaOf, Execute(kind, t, c, mode).0)
  {
  }

  const CHARGE := Command(1, 1, SagaKey(1, ChargePayment), ChargePayment, ChargePayload(1, 100, USD, BankTransfer))
  const FOREIGN_REFUND := Command(1, 2, SagaKey(2, RefundPayment), RefundPayment, EmptyPayload)

  /** Why the sagas must be kept apart: a charge and another saga's refund of it, both as the
      schemas demand them. The durable provider refuses the refund, the in-memory one carries it
      out. */
  lemma ForeignRefundsDiffer()
    ensures Service.WellFormed(Payments, CHARGE) && Service.WellFormed(Payments, FOREIGN_REFUND)
    ensures
      Replies(Payments, Tables(map[], map[]), [CHARGE, FOREIGN_REFUND], SuccessMode)
        == [Succeeded(Applied(1)), Failed(IdempotencyConflict)]
    ensures
      SimReplies(Payments, SimTables(map[], map[], {}), [CHARGE, FOREIGN_REFUND], SuccessMode)
        == [Succeeded(Applied(1)), Succeeded(Undone)]
  {
    assert [CHARGE, FOREIGN_REFUND][1..] == [FOREIGN_REFUND] && [FOREIGN_REFUND][1..] == [];
    var t := Execute(Payments, Tables(map[], map[]), CHARGE, SuccessMode).0;
    assert Replies(Payments, t, [FOREIGN_REFUND], SuccessMode) == [Failed(IdempotencyConflict)];
    var s := SimExecute(Payments, SimTables(map[], map[], {}), CHARGE, SuccessMode).0;
    assert SimReplies(Payments, s, [FOREIGN_REFUND], SuccessMode) == [Succeeded(Undone)];
  }
}
