/** The promises of the saga, over every run of the whole system: an order ends either fully done
    or fully undone, and nothing that happens later changes that. */
module SystemTheorems {
  import opened Contracts
  import opened StateMachine
  import opened Broker
  import opened BrokerInvariant
  import opened BrokerLinks
  import opened Provider
  import opened System
  import opened SystemInvariant
  import Service
  import SI = ServiceInvariant
  import SP = ServiceProtocol
  import Inventory
  import II = InventoryInvariant
  import IP = InventoryProtocol

  // ---------- Which answers belong to an order ----------

  lemma Protocols(initial: map<Uuid, nat>, w: World)
    requires WorldOk(initial, w)
    ensures SP.InProtocol(Payments, w.payments, Sent(w.network, PaymentParticipant))
    ensures SP.InProtocol(Shipments, w.shipments, Sent(w.network, ShippingParticipant))
    ensures IP.InProtocol(initial, w.inventory, Sent(w.network, InventoryParticipant))
  {
    hide OrdersOk, NetworkOk, AllEarned, CausesOk, SP.InProtocol, IP.InProtocol, Sent;
  }

  lemma OrdersAndNetwork(initial: map<Uuid, nat>, w: World)
    requires WorldOk(initial, w)
    ensures OrdersOk(w.orders) && NetworkOk(w.orders, w.network)
  {
    hide OrdersOk, NetworkOk, AllEarned, CausesOk, ProtocolOk;
  }

  lemma DoneMeans(w: World, sagaId: Uuid, op: Operation)
    requires op in DoneFor(w, sagaId)
    ensures AnswerOf(w, sagaId, op).Some?
    ensures Owner(op) == PaymentParticipant ==> SP.Done(w.payments, SagaKey(sagaId, op))
    ensures Owner(op) == ShippingParticipant ==> SP.Done(w.shipments, SagaKey(sagaId, op))
    ensures Owner(op) == InventoryParticipant ==> IP.Done(w.inventory, SagaKey(sagaId, op))
  {
  }

  predicate Refused(answer: Option<Outcome>) { answer.Some? && answer.value.Failed? }

  lemma RejectedMeans(w: World, sagaId: Uuid, op: Operation)
    requires op in RejectedFor(w, sagaId)
    ensures AnswerOf(w, sagaId, op).Some?
    ensures Owner(op) == PaymentParticipant ==> Refused(SP.AnswerAt(w.payments, SagaKey(sagaId, op)))
    ensures Owner(op) == ShippingParticipant ==> Refused(SP.AnswerAt(w.shipments, SagaKey(sagaId, op)))
    ensures Owner(op) == InventoryParticipant ==> Refused(IP.AnswerAt(w.inventory, SagaKey(sagaId, op)))
  {
  }

  /** A completed answer under one of the saga's keys answers the saga's own command. */
  lemma ServiceAnswerWasSent(kind: Kind, s: Service.State, sent: set<Command>, key: Key)
    requires SP.InProtocol(kind, s, sent) && SP.AnswerAt(s, key).Some?
    ensures key in s.receipts && SI.CommandOf(key, s.receipts[key].content) in sent
  {
    hide SI.Consistent, SP.AllBenign;
  }

  lemma InventoryAnswerWasSent(initial: map<Uuid, nat>, s: Inventory.State, sent: set<Command>, key: Key)
    requires IP.InProtocol(initial, s, sent) && IP.AnswerAt(s, key).Some?
    ensures key in s.stock.receipts && IP.Cause(key, s.stock.receipts[key].content) in sent
  {
    hide II.BooksOk, II.Conserved, IP.MailOk, IP.AllBenign, IP.Rely;
  }

  lemma AnswerWasSent(initial: map<Uuid, nat>, w: World, o: Uuid, op: Operation)
    requires WorldOk(initial, w) && o in w.orders && AnswerOf(w, w.orders[o].row.id, op).Some?
    ensures CommandFor(w.orders[o].row, op) in Sent(w.network, Owner(op))
    ensures CommandFor(w.orders[o].row, op).orderId == o
  {
    var key := SagaKey(w.orders[o].row.id, op);
    assert exists c: Command :: c.key == key && c in Sent(w.network, Owner(op)) by {
      hide OrdersOk, NetworkOk, AllEarned, CausesOk, SP.InProtocol, IP.InProtocol, Sent;
      match Owner(op) {
        case PaymentParticipant =>
          ServiceAnswerWasSent(Payments, w.payments, Sent(w.network, PaymentParticipant), key);
          assert SI.CommandOf(key, w.payments.receipts[key].content).key == key;
        case ShippingParticipant =>
          ServiceAnswerWasSent(Shipments, w.shipments, Sent(w.network, ShippingParticipant), key);
          assert SI.CommandOf(key, w.shipments.receipts[key].content).key == key;
        case InventoryParticipant =>
          InventoryAnswerWasSent(initial, w.inventory, Sent(w.network, InventoryParticipant), key);
          assert IP.Cause(key, w.inventory.stock.receipts[key].content).key == key;
      }
    }
    var c: Command :| c.key == key && c in Sent(w.network, Owner(op));
    OrderOfSaga(w.orders, w.network, o, op, c);
  }

  lemma OrderOfSaga(orders: map<Uuid, Slice>, network: map<Uuid, Command>, o: Uuid, op: Operation, c: Command)
    requires OrdersOk(orders) && NetworkOk(orders, network) && o in orders
    requires c in Sent(network, Owner(op)) && c.key == SagaKey(orders[o].row.id, op)
    ensures c == CommandFor(orders[o].row, op) && c.orderId == o
  {
    hide SliceOk, NetworkOk, MayExist, Sent;
    SentHome(orders, network, Owner(op), c);
  }

  /** A command that may not exist was not sent. */
  lemma NotSent(initial: map<Uuid, nat>, w: World, o: Uuid, op: Operation)
    requires WorldOk(initial, w) && o in w.orders && IsForward(w.orders[o].row.progress.operation)
    requires !MayExist(w.orders[o].row.progress, op)
    ensures forall c: Command, participant: Participant | c in Sent(w.network, participant)
      && c.orderId == o :: c.operation != op
  {
    hide OrdersOk, NetworkOk, AllEarned, CausesOk, ProtocolOk, Sent, MayExist;
    forall c: Command, participant: Participant | c in Sent(w.network, participant) && c.orderId == o
      ensures c.operation != op {
      SentHome(w.orders, w.network, participant, c);
    }
  }

  // ---------- What the answers amount to ----------

  /** The charge was refused: nothing was collected. */
  predicate PaymentFailed(w: World, o: Uuid) {
    o in w.payments.effects && w.payments.effects[o].status == Service.FailedEffect
      && o !in w.payments.provider.accounts
  }

  /** The charge was given back, here and at the provider; a cash-on-delivery order, which paid
      nothing yet, keeps its PAY_ON_DELIVERY row with a NOOP refund. */
  predicate PaymentUndone(w: World, o: Uuid, paidBy: PaymentMethod) {
    && o in w.payments.effects && o in w.payments.undos && o in w.payments.provider.accounts
    && if paidBy == BankTransfer
       then w.payments.effects[o].status == Service.UndoneEffect && w.payments.undos[o].status == Service.UndoneUndo
            && w.payments.provider.accounts[o].status == UndoneAccount
       else w.payments.effects[o].status == Service.OnDelivery && w.payments.undos[o].status == Service.NoopUndo
  }

  predicate PaymentStands(w: World, o: Uuid, paidBy: PaymentMethod) {
    && o in w.payments.effects
    && w.payments.effects[o].status == (if paidBy == BankTransfer then Service.Done else Service.OnDelivery)
    && o in w.payments.provider.accounts && w.payments.provider.accounts[o].status == LiveAccount
  }

  lemma ChargeRejected(initial: map<Uuid, nat>, w: World, o: Uuid)
    requires WorldOk(initial, w) && o in w.orders && ChargePayment in RejectedFor(w, w.orders[o].row.id)
    ensures PaymentFailed(w, o)
  {
    hide WorldOk, Sent, DoneFor, RejectedFor, AnswerOf, SP.InProtocol, IP.InProtocol;
    hide SP.Done, IP.Done, SP.AnswerAt, IP.AnswerAt, MayExist;
    Protocols(initial, w);
    RejectedMeans(w, w.orders[o].row.id, ChargePayment);
    var c := CommandFor(w.orders[o].row, ChargePayment);
    AnswerWasSent(initial, w, o, ChargePayment);
    SP.RejectedMeansFailed(Payments, w.payments, Sent(w.network, PaymentParticipant), c);
  }

  lemma OwnDetails(kind: Kind, s: Service.State, sent: set<Command>, c: Command)
    requires SP.InProtocol(kind, s, sent) && c in sent && c.operation == ForwardOp(kind) && c.orderId in s.effects
    ensures s.effects[c.orderId].details == c.payload
  {
    hide SI.Consistent, SP.AllBenign;
    SP.RowsAreOwn(kind, s, sent, c);
  }

  lemma RefundDone(initial: map<Uuid, nat>, w: World, o: Uuid)
    requires WorldOk(initial, w) && o in w.orders
    requires {ChargePayment, RefundPayment} <= DoneFor(w, w.orders[o].row.id)
    ensures PaymentUndone(w, o, w.orders[o].row.payload.paymentMethod)
  {
    hide WorldOk, Sent, DoneFor, RejectedFor, AnswerOf, SP.InProtocol, IP.InProtocol;
    hide SP.Done, IP.Done, SP.AnswerAt, IP.AnswerAt, MayExist;
    Protocols(initial, w);
    assert ChargePayment in DoneFor(w, w.orders[o].row.id) && RefundPayment in DoneFor(w, w.orders[o].row.id);
    DoneMeans(w, w.orders[o].row.id, ChargePayment);
    DoneMeans(w, w.orders[o].row.id, RefundPayment);
    var row := w.orders[o].row;
    AnswerWasSent(initial, w, o, ChargePayment);
    AnswerWasSent(initial, w, o, RefundPayment);
    var sent := Sent(w.network, PaymentParticipant);
    SP.UndoneMeansUndone(Payments, w.payments, sent, CommandFor(row, RefundPayment));
    OwnDetails(Payments, w.payments, sent, CommandFor(row, ChargePayment));
  }

  lemma ChargeStands(initial: map<Uuid, nat>, w: World, o: Uuid)
    requires WorldOk(initial, w) && o in w.orders && ChargePayment in DoneFor(w, w.orders[o].row.id)
    requires forall c | c in Sent(w.network, PaymentParticipant) && c.orderId == o :: c.operation != RefundPayment
    ensures PaymentStands(w, o, w.orders[o].row.payload.paymentMethod)
  {
    hide WorldOk, Sent, DoneFor, RejectedFor, AnswerOf, SP.InProtocol, IP.InProtocol;
    hide SP.Done, IP.Done, SP.AnswerAt, IP.AnswerAt, MayExist;
    Protocols(initial, w);
    DoneMeans(w, w.orders[o].row.id, ChargePayment);
    AnswerWasSent(initial, w, o, ChargePayment);
    SP.DoneMeansDone(Payments, w.payments, Sent(w.network, PaymentParticipant),
                     CommandFor(w.orders[o].row, ChargePayment));
  }

  // Shipments

  /** Nothing was shipped: no account at the provider, and no row but a failed one. */
  predicate ShipmentAbsent(w: World, o: Uuid) {
    && o !in w.shipments.provider.accounts
    && (o in w.shipments.effects ==> w.shipments.effects[o].status == Service.FailedEffect)
  }

  predicate ShipmentStands(w: World, o: Uuid) {
    && o in w.shipments.effects && w.shipments.effects[o].status == Service.Done
    && o in w.shipments.provider.accounts && w.shipments.provider.accounts[o].status == LiveAccount
  }

  lemma CreateRejected(initial: map<Uuid, nat>, w: World, o: Uuid)
    requires WorldOk(initial, w) && o in w.orders && CreateShipment in RejectedFor(w, w.orders[o].row.id)
    ensures ShipmentAbsent(w, o)
  {
    hide WorldOk, Sent, DoneFor, RejectedFor, AnswerOf, SP.InProtocol, IP.InProtocol;
    hide SP.Done, IP.Done, SP.AnswerAt, IP.AnswerAt, MayExist;
    Protocols(initial, w);
    RejectedMeans(w, w.orders[o].row.id, CreateShipment);
    AnswerWasSent(initial, w, o, CreateShipment);
    SP.RejectedMeansFailed(Shipments, w.shipments, Sent(w.network, ShippingParticipant),
                           CommandFor(w.orders[o].row, CreateShipment));
  }

  lemma NeverShipped(initial: map<Uuid, nat>, w: World, o: Uuid)
    requires WorldOk(initial, w) && o in w.orders
    requires IsForward(w.orders[o].row.progress.operation) && ForwardIndex(w.orders[o].row.progress.operation) < 2
    ensures ShipmentAbsent(w, o)
  {
    hide WorldOk, Sent, SP.InProtocol, IP.InProtocol;
    Protocols(initial, w);
    NotSent(initial, w, o, CreateShipment);
    NotSent(initial, w, o, CancelShipment);
    SentToOwner(w.network, ShippingParticipant);
    SP.UnsentMeansAbsent(Shipments, w.shipments, Sent(w.network, ShippingParticipant), o);
  }

  lemma SentToOwner(network: map<Uuid, Command>, participant: Participant)
    ensures forall c | c in Sent(network, participant) :: Owner(c.operation) == participant
  {
  }

  lemma CreateStands(initial: map<Uuid, nat>, w: World, o: Uuid)
    requires WorldOk(initial, w) && o in w.orders && CreateShipment in DoneFor(w, w.orders[o].row.id)
    requires forall c | c in Sent(w.network, ShippingParticipant) && c.orderId == o :: c.operation != CancelShipment
    ensures ShipmentStands(w, o)
  {
    hide WorldOk, Sent, DoneFor, RejectedFor, AnswerOf, SP.InProtocol, IP.InProtocol;
    hide SP.Done, IP.Done, SP.AnswerAt, IP.AnswerAt, MayExist;
    Protocols(initial, w);
    DoneMeans(w, w.orders[o].row.id, CreateShipment);
    AnswerWasSent(initial, w, o, CreateShipment);
    SP.DoneMeansDone(Shipments, w.shipments, Sent(w.network, ShippingParticipant),
                     CommandFor(w.orders[o].row, CreateShipment));
  }

  // Stock

  /** The order holds no stock: its reservation is absent, FAILED or RELEASED. */
  predicate StockFree(w: World, o: Uuid) {
    o in w.inventory.stock.reservations ==>
      w.inventory.stock.reservations[o].status in {Inventory.FailedReservation, Inventory.Released}
  }

  predicate StockTaken(w: World, o: Uuid) {
    o in w.inventory.stock.reservations && w.inventory.stock.reservations[o].status == Inventory.Finalized
  }

  lemma ReserveRejected(initial: map<Uuid, nat>, w: World, o: Uuid)
    requires WorldOk(initial, w) && o in w.orders && ReserveInventory in RejectedFor(w, w.orders[o].row.id)
    ensures StockFree(w, o)
  {
    hide WorldOk, Sent, DoneFor, RejectedFor, AnswerOf, SP.InProtocol, IP.InProtocol;
    hide SP.Done, IP.Done, SP.AnswerAt, IP.AnswerAt, MayExist;
    Protocols(initial, w);
    RejectedMeans(w, w.orders[o].row.id, ReserveInventory);
    AnswerWasSent(initial, w, o, ReserveInventory);
    IP.RejectedMeansFailed(initial, w.inventory, Sent(w.network, InventoryParticipant),
                           CommandFor(w.orders[o].row, ReserveInventory));
  }

  lemma ReserveReleased(initial: map<Uuid, nat>, w: World, o: Uuid)
    requires WorldOk(initial, w) && o in w.orders && ReleaseInventory in DoneFor(w, w.orders[o].row.id)
    ensures StockFree(w, o)
  {
    hide WorldOk, Sent, DoneFor, RejectedFor, AnswerOf, SP.InProtocol, IP.InProtocol;
    hide SP.Done, IP.Done, SP.AnswerAt, IP.AnswerAt, MayExist;
    Protocols(initial, w);
    DoneMeans(w, w.orders[o].row.id, ReleaseInventory);
    AnswerWasSent(initial, w, o, ReleaseInventory);
    IP.ClosedMeansClosed(initial, w.inventory, Sent(w.network, InventoryParticipant),
                         CommandFor(w.orders[o].row, ReleaseInventory));
  }

  lemma ReserveFinalized(initial: map<Uuid, nat>, w: World, o: Uuid)
    requires WorldOk(initial, w) && o in w.orders && FinalizeInventory in DoneFor(w, w.orders[o].row.id)
    ensures StockTaken(w, o)
  {
    hide WorldOk, Sent, DoneFor, RejectedFor, AnswerOf, SP.InProtocol, IP.InProtocol;
    hide SP.Done, IP.Done, SP.AnswerAt, IP.AnswerAt, MayExist;
    Protocols(initial, w);
    DoneMeans(w, w.orders[o].row.id, FinalizeInventory);
    AnswerWasSent(initial, w, o, FinalizeInventory);
    IP.ClosedMeansClosed(initial, w.inventory, Sent(w.network, InventoryParticipant),
                         CommandFor(w.orders[o].row, FinalizeInventory));
  }

  lemma NeverReserved(initial: map<Uuid, nat>, w: World, o: Uuid)
    requires WorldOk(initial, w) && o in w.orders && w.orders[o].row.progress.operation == ChargePayment
    ensures StockFree(w, o)
  {
    hide WorldOk, Sent, SP.InProtocol, IP.InProtocol;
    Protocols(initial, w);
    NotSent(initial, w, o, ReserveInventory);
    IP.UnsentMeansAbsent(initial, w.inventory, Sent(w.network, InventoryParticipant), o);
  }

  // ---------- Fully done, or fully undone ----------

  predicate CleanlyFailed(w: World, o: Uuid, paidBy: PaymentMethod) {
    StockFree(w, o) && ShipmentAbsent(w, o) && (PaymentFailed(w, o) || PaymentUndone(w, o, paidBy))
  }

  predicate CleanlyCompleted(w: World, o: Uuid, paidBy: PaymentMethod) {
    StockTaken(w, o) && ShipmentStands(w, o) && PaymentStands(w, o, paidBy)
  }

  /** No release, refund or cancellation was ever enqueued for the order. */
  predicate NothingUndone(d: Slice) {
    forall m | m in d.outbox && d.outbox[m].body.CommandBody? ::
      d.outbox[m].body.command.operation !in {ReleaseInventory, RefundPayment, CancelShipment}
  }

  /** What a finished saga's progress says about its answers. */
  lemma FailedAnswers(p: Progress, done: set<Operation>, rejected: set<Operation>)
    requires Coherent(p) && p.status == FailedOrder && Earned(p, done, rejected)
    ensures p.operation in {ChargePayment, ReserveInventory, CreateShipment} && p.operation in rejected
    ensures p.operation != ChargePayment ==> {ChargePayment, RefundPayment} <= done
    ensures p.operation == CreateShipment ==> ReleaseInventory in done
  {
    assert p.compensated == Reversed(p.completed);
    if p.operation != ChargePayment {
      assert p.completed[0] == PaymentStep && p.compensated[|p.compensated| - 1] == PaymentStep;
      assert PaymentStep in p.compensated && ReverseOf(PaymentStep) in done;
      assert ForwardIndex(ChargePayment) < ForwardIndex(p.operation);
    }
    if p.operation == CreateShipment {
      assert p.completed[1] == InventoryStep && p.compensated[0] == InventoryStep;
      assert InventoryStep in p.compensated;
    }
  }

  lemma CompletedAnswers(p: Progress, done: set<Operation>, rejected: set<Operation>)
    requires Coherent(p) && p.status == CompletedOrder && Earned(p, done, rejected)
    ensures {ChargePayment, ReserveInventory, CreateShipment, FinalizeInventory} <= done
    ensures !MayExist(p, ReleaseInventory) && !MayExist(p, RefundPayment) && !MayExist(p, CancelShipment)
  {
    assert ForwardIndex(CreateShipment) < ForwardIndex(p.operation);
    assert ForwardIndex(ReserveInventory) < ForwardIndex(p.operation);
    assert ForwardIndex(ChargePayment) < ForwardIndex(p.operation);
  }

  lemma ProgressAt(initial: map<Uuid, nat>, w: World, o: Uuid)
    requires WorldOk(initial, w) && o in w.orders
    ensures var row := w.orders[o].row;
      CommandsOk(w.orders[o]) && Coherent(row.progress)
        && Earned(row.progress, DoneFor(w, row.id), RejectedFor(w, row.id))
  {
    hide NetworkOk, CausesOk, ProtocolOk, FaithfulLog, PendingOk, RelayOk;
    hide BudgetOk, CommandsOk, Coherent, Earned, DoneFor, RejectedFor;
    assert SliceOk(o, w.orders[o]);
    assert EarnedAt(w, o);
  }

  lemma FailureIsClean(initial: map<Uuid, nat>, w: World, o: Uuid)
    requires WorldOk(initial, w) && o in w.orders && w.orders[o].row.progress.status == FailedOrder
    ensures CleanlyFailed(w, o, w.orders[o].row.payload.paymentMethod)
  {
    hide WorldOk, CommandsOk, Earned, DoneFor, RejectedFor, StockFree, ShipmentAbsent, PaymentFailed, PaymentUndone;
    var row := w.orders[o].row;
    ProgressAt(initial, w, o);
    FailedAnswers(row.progress, DoneFor(w, row.id), RejectedFor(w, row.id));
    match row.progress.operation {
      case ChargePayment =>
        ChargeRejected(initial, w, o);
        NeverReserved(initial, w, o);
        NeverShipped(initial, w, o);
      case ReserveInventory =>
        RefundDone(initial, w, o);
        ReserveRejected(initial, w, o);
        NeverShipped(initial, w, o);
      case CreateShipment =>
        RefundDone(initial, w, o);
        ReserveReleased(initial, w, o);
        CreateRejected(initial, w, o);
      case _ => assert false;
    }
  }

  lemma SuccessIsFinal(p: Progress, d: Slice)
    requires CommandsOk(d) && d.row.progress == p
    requires !MayExist(p, ReleaseInventory) && !MayExist(p, RefundPayment) && !MayExist(p, CancelShipment)
    ensures NothingUndone(d)
  {
    hide MayExist;
  }

  lemma SuccessIsClean(initial: map<Uuid, nat>, w: World, o: Uuid)
    requires WorldOk(initial, w) && o in w.orders && w.orders[o].row.progress.status == CompletedOrder
    ensures CleanlyCompleted(w, o, w.orders[o].row.payload.paymentMethod)
    ensures NothingUndone(w.orders[o])
  {
    hide WorldOk, Earned, DoneFor, RejectedFor, MayExist, StockTaken, ShipmentStands;
    hide PaymentStands, Sent, CommandsOk, NothingUndone;
    var row := w.orders[o].row;
    ProgressAt(initial, w, o);
    CompletedAnswers(row.progress, DoneFor(w, row.id), RejectedFor(w, row.id));
    SuccessIsFinal(row.progress, w.orders[o]);
    NotSent(initial, w, o, RefundPayment);
    NotSent(initial, w, o, CancelShipment);
    assert ChargePayment in DoneFor(w, row.id) && CreateShipment in DoneFor(w, row.id)
      && FinalizeInventory in DoneFor(w, row.id);
    ChargeStands(initial, w, o);
    ReserveFinalized(initial, w, o);
    CreateStands(initial, w, o);
  }
}
