/** What every reachable world satisfies: the orchestrator's progress is earned by the answers of
    the participants, and the participants are asked only what the protocol allows. */
module SystemInvariant {
  import opened Contracts
  import opened StateMachine
  import opened Broker
  import opened BrokerInvariant
  import opened BrokerLinks
  import opened Basket
  import opened Mailbox
  import opened Provider
  import opened System
  import Service
  import SP = ServiceProtocol
  import Inventory
  import IP = InventoryProtocol

  // ---------- Answers ----------

  /** The completed answer of the participant that owns the operation. */
  function AnswerOf(w: World, sagaId: Uuid, op: Operation): Option<Outcome> {
    match Owner(op)
    case PaymentParticipant => SP.AnswerAt(w.payments, SagaKey(sagaId, op))
    case ShippingParticipant => SP.AnswerAt(w.shipments, SagaKey(sagaId, op))
    case InventoryParticipant => IP.AnswerAt(w.inventory, SagaKey(sagaId, op))
  }

  function DoneFor(w: World, sagaId: Uuid): set<Operation> {
    set op: Operation | AnswerOf(w, sagaId, op).Some? && AnswerOf(w, sagaId, op).value.Succeeded?
  }

  function RejectedFor(w: World, sagaId: Uuid): set<Operation> {
    set op: Operation | AnswerOf(w, sagaId, op).Some? && AnswerOf(w, sagaId, op).value.Failed?
  }

  function Sent(network: map<Uuid, Command>, participant: Participant): set<Command> {
    set m | m in network && Owner(network[m].operation) == participant :: network[m]
  }

  // ---------- The invariant ----------

  predicate SliceOk(o: Uuid, d: Slice) {
    Ok(d) && d.row.orderId == o && Normalized(d.row.payload)
  }

  predicate OrdersOk(orders: map<Uuid, Slice>) {
    && (forall o | o in orders :: SliceOk(o, orders[o]))
    && (forall o, p | o in orders && p in orders && orders[o].row.id == orders[p].row.id :: o == p)
    && (forall o, p, m | o in orders && p in orders && m in CommandIds(orders[o])
        && m in CommandIds(orders[p]) :: o == p)
  }

  /** Every command on the network is in its order's outbox, handed over. */
  predicate AtHome(orders: map<Uuid, Slice>, m: Uuid, c: Command) {
    && c.orderId in orders
    && m in orders[c.orderId].outbox
    && orders[c.orderId].outbox[m].handed
    && orders[c.orderId].outbox[m].body == CommandBody(c)
  }

  predicate NetworkOk(orders: map<Uuid, Slice>, network: map<Uuid, Command>) {
    forall m | m in network :: AtHome(orders, m, network[m])
  }

  predicate EarnedAt(w: World, o: Uuid)
    requires o in w.orders
  {
    var row := w.orders[o].row;
    IsForward(row.progress.operation) && Earned(row.progress, DoneFor(w, row.id), RejectedFor(w, row.id))
  }

  predicate AllEarned(w: World) {
    forall o | o in w.orders :: EarnedAt(w, o)
  }

  predicate MailFrom(network: map<Uuid, Command>, mail: Mail) {
    forall m | m in mail.inbox :: m in network && network[m] == mail.inbox[m]
  }

  predicate AnswersFrom(network: map<Uuid, Command>, answers: set<Return>) {
    forall a | a in answers :: a.message in network && network[a.message] == a.command
  }

  predicate MessageFrom(network: map<Uuid, Command>, x: Service.Execution) {
    x.message.Some? ==> x.message.value in network && network[x.message.value] == x.command
  }

  predicate ServiceFrom(network: map<Uuid, Command>, s: Service.State) {
    && MailFrom(network, s.mail) && AnswersFrom(network, s.answers)
    && (forall o | o in s.executions :: MessageFrom(network, s.executions[o]))
  }

  /** Participants know only messages that were on the network. */
  predicate CausesOk(w: World) {
    && ServiceFrom(w.network, w.payments) && ServiceFrom(w.network, w.shipments)
    && MailFrom(w.network, w.inventory.mail) && AnswersFrom(w.network, w.inventory.answers)
  }

  ghost predicate ProtocolOk(initial: map<Uuid, nat>, w: World) {
    && SP.InProtocol(Payments, w.payments, Sent(w.network, PaymentParticipant))
    && SP.InProtocol(Shipments, w.shipments, Sent(w.network, ShippingParticipant))
    && IP.InProtocol(initial, w.inventory, Sent(w.network, InventoryParticipant))
  }

  ghost predicate WorldOk(initial: map<Uuid, nat>, w: World) {
    OrdersOk(w.orders) && NetworkOk(w.orders, w.network) && AllEarned(w) && CausesOk(w) && ProtocolOk(initial, w)
  }

  // ---------- The protocol is kept ----------

  lemma HomeCommand(orders: map<Uuid, Slice>, network: map<Uuid, Command>, m: Uuid)
    requires OrdersOk(orders) && NetworkOk(orders, network) && m in network
    ensures var c := network[m];
      && c.orderId in orders && orders[c.orderId].row.orderId == c.orderId && Normalized(orders[c.orderId].row.payload)
      && IsForward(orders[c.orderId].row.progress.operation)
      && c == CommandFor(orders[c.orderId].row, c.operation)
      && MayExist(orders[c.orderId].row.progress, c.operation)
  {
    hide FaithfulLog, ProgressOk, PendingOk, RelayOk, BudgetOk, MayExist;
    var c := network[m];
    assert AtHome(orders, m, c);
    assert SliceOk(c.orderId, orders[c.orderId]);
  }

  lemma SentHome(orders: map<Uuid, Slice>, network: map<Uuid, Command>, participant: Participant, c: Command)
    requires OrdersOk(orders) && NetworkOk(orders, network) && c in Sent(network, participant)
    ensures Owner(c.operation) == participant
    ensures c.orderId in orders && orders[c.orderId].row.orderId == c.orderId
      && Normalized(orders[c.orderId].row.payload)
    ensures IsForward(orders[c.orderId].row.progress.operation)
    ensures c == CommandFor(orders[c.orderId].row, c.operation)
    ensures MayExist(orders[c.orderId].row.progress, c.operation)
  {
    hide OrdersOk, NetworkOk, MayExist;
    var m :| m in network && network[m] == c && Owner(network[m].operation) == participant;
    HomeCommand(orders, network, m);
  }

  lemma SentIsDisciplined(orders: map<Uuid, Slice>, network: map<Uuid, Command>, participant: Participant)
    requires OrdersOk(orders) && NetworkOk(orders, network)
    ensures Disciplined(Sent(network, participant))
  {
    hide SliceOk, NetworkOk, MayExist, Sent;
    var sent := Sent(network, participant);
    forall c | c in sent
      ensures c.orderId in orders && c == CommandFor(orders[c.orderId].row, c.operation)
        && orders[c.orderId].row.orderId == c.orderId
    {
      SentHome(orders, network, participant, c);
    }
  }

  /** A saga that turned back had its completed operations answered. */
  lemma UndoneWasDone(p: Progress, op: Operation, done: set<Operation>, rejected: set<Operation>)
    requires Coherent(p) && Earned(p, done, rejected) && MayExist(p, op)
    ensures op == RefundPayment ==> ChargePayment in done
    ensures op == ReleaseInventory ==> ReserveInventory in done
    ensures op == FinalizeInventory ==> ReserveInventory in done
    ensures op == FinalizeInventory ==> p.operation == FinalizeInventory && p.status in {InProgress, CompletedOrder}
    ensures op == ReleaseInventory ==> p.status in {Compensating, FailedOrder}
    ensures op != CancelShipment
  {
    assert InventoryStep in ExpectedSteps(p.operation) ==> ForwardIndex(p.operation) >= 2;
    assert PaymentStep in ExpectedSteps(p.operation) ==> ForwardIndex(p.operation) >= 1;
  }

  lemma SentWasEarned(w: World, participant: Participant, c: Command)
    requires OrdersOk(w.orders) && NetworkOk(w.orders, w.network) && AllEarned(w) && c in Sent(w.network, participant)
    ensures c.orderId in w.orders && c.sagaId == w.orders[c.orderId].row.id && c.key == SagaKey(c.sagaId, c.operation)
    ensures c.operation == RefundPayment ==> ChargePayment in DoneFor(w, c.sagaId)
    ensures c.operation in {ReleaseInventory, FinalizeInventory} ==> ReserveInventory in DoneFor(w, c.sagaId)
    ensures c.operation == FinalizeInventory ==> w.orders[c.orderId].row.progress.status in {InProgress, CompletedOrder}
    ensures c.operation == ReleaseInventory ==> w.orders[c.orderId].row.progress.status in {Compensating, FailedOrder}
    ensures c.operation != CancelShipment
  {
    SentHome(w.orders, w.network, participant, c);
    CoherentOrder(w.orders, c.orderId);
    hide OrdersOk, NetworkOk, MayExist, Sent, DoneFor, RejectedFor, Coherent, Earned;
    assert EarnedAt(w, c.orderId);
    var row := w.orders[c.orderId].row;
    UndoneWasDone(row.progress, c.operation, DoneFor(w, row.id), RejectedFor(w, row.id));
  }

  lemma CoherentOrder(orders: map<Uuid, Slice>, o: Uuid)
    requires OrdersOk(orders) && o in orders
    ensures Ok(orders[o]) && Coherent(orders[o].row.progress)
  {
    hide FaithfulLog, PendingOk, RelayOk, BudgetOk, CommandsOk;
    assert SliceOk(o, orders[o]);
  }

  lemma ShapeOfCommand(c: Command, row: Row)
    requires c == CommandFor(row, c.operation) && Normalized(row.payload)
    ensures Owner(c.operation) == PaymentParticipant ==> Service.WellFormed(Payments, c)
    ensures Owner(c.operation) == ShippingParticipant ==> Service.WellFormed(Shipments, c)
    ensures Owner(c.operation) == InventoryParticipant ==> Inventory.WellFormed(c) && Inventory.Normalize(c) == c
  {
    SortedIsNormal(row.payload.items);
  }

  lemma SentIsWellFormed(orders: map<Uuid, Slice>, network: map<Uuid, Command>, participant: Participant, c: Command)
    requires OrdersOk(orders) && NetworkOk(orders, network) && c in Sent(network, participant)
    ensures participant == PaymentParticipant ==> Service.WellFormed(Payments, c)
    ensures participant == ShippingParticipant ==> Service.WellFormed(Shipments, c)
    ensures participant == InventoryParticipant ==> Inventory.WellFormed(c) && Inventory.Normalize(c) == c
  {
    hide OrdersOk, NetworkOk, MayExist, Sent, Normalized;
    SentHome(orders, network, participant, c);
    ShapeOfCommand(c, orders[c.orderId].row);
  }

  /** The orchestrator keeps its side of the protocol towards every participant. */
  lemma OrchestratorIsReliable(w: World)
    requires OrdersOk(w.orders) && NetworkOk(w.orders, w.network) && AllEarned(w)
    ensures SP.Rely(Payments, w.payments, Sent(w.network, PaymentParticipant))
    ensures SP.Rely(Shipments, w.shipments, Sent(w.network, ShippingParticipant))
    ensures IP.Rely(w.inventory, Sent(w.network, InventoryParticipant))
  {
    hide OrdersOk, NetworkOk, AllEarned, Sent, Disciplined, Service.WellFormed;
    hide Inventory.WellFormed, Inventory.Normalize;
    forall participant: Participant ensures Disciplined(Sent(w.network, participant)) {
      SentIsDisciplined(w.orders, w.network, participant);
    }
    forall participant: Participant, c | c in Sent(w.network, participant)
      ensures participant == PaymentParticipant ==> Service.WellFormed(Payments, c)
      ensures participant == ShippingParticipant ==> Service.WellFormed(Shipments, c)
      ensures participant == InventoryParticipant ==> Inventory.WellFormed(c) && Inventory.Normalize(c) == c
    {
      SentIsWellFormed(w.orders, w.network, participant, c);
    }
    forall participant: Participant, c | c in Sent(w.network, participant)
      ensures c.orderId in w.orders
      ensures c.operation == RefundPayment ==> SP.Done(w.payments, SagaKey(c.sagaId, ChargePayment))
      ensures c.operation in {ReleaseInventory, FinalizeInventory} ==>
        IP.Done(w.inventory, SagaKey(c.sagaId, ReserveInventory))
      ensures c.operation == FinalizeInventory ==>
        w.orders[c.orderId].row.progress.status in {InProgress, CompletedOrder}
      ensures c.operation == ReleaseInventory ==> w.orders[c.orderId].row.progress.status in {Compensating, FailedOrder}
      ensures c.operation != CancelShipment
    {
      SentWasEarned(w, participant, c);
    }
  }
}
