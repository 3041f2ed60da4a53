/** What the orchestrator asks for, and what the participants and providers hold, is what the
    customer ordered: the amount, the goods and the address are never anyone else's. */
module SystemContents {
  import opened Contracts
  import opened StateMachine
  import opened Broker
  import opened BrokerInvariant
  import opened Provider
  import opened System
  import opened SystemInvariant
  import opened SystemTheorems
  import Service
  import SI = ServiceInvariant
  import SP = ServiceProtocol
  import Inventory
  import II = InventoryInvariant
  import IP = InventoryProtocol

  /** A command that belongs to an order in circulation: the order's own ids, key and contents. */
  predicate OrdersCommand(w: World, c: Command) {
    && c.orderId in w.orders
    && var row := w.orders[c.orderId].row;
       c.sagaId == row.id && c.key == SagaKey(row.id, c.operation) && Carries(c, row.payload)
  }

  lemma CommandCarries(initial: map<Uuid, nat>, w: World, m: Uuid)
    requires WorldOk(initial, w) && m in w.network
    ensures OrdersCommand(w, w.network[m])
  {
    hide WorldOk, OrdersOk, NetworkOk, MayExist, Carries;
    OrdersAndNetwork(initial, w);
    HomeCommand(w.orders, w.network, m);
    var c := w.network[m];
    var row := w.orders[c.orderId].row;
    BuiltCarries(c.operation, row.orderId, row.id, row.payload);
  }

  lemma SentCarries(initial: map<Uuid, nat>, w: World, participant: Participant, c: Command)
    requires WorldOk(initial, w) && c in Sent(w.network, participant)
    ensures OrdersCommand(w, c) && Owner(c.operation) == participant
  {
    hide WorldOk, OrdersCommand;
    var m :| m in w.network && Owner(w.network[m].operation) == participant && w.network[m] == c;
    CommandCarries(initial, w, m);
  }

  // ---------- Rows and accounts ----------

  lemma RowWasSent(kind: Kind, s: Service.State, sent: set<Command>, o: Uuid)
    requires SP.InProtocol(kind, s, sent) && (o in s.effects || o in s.provider.accounts)
    ensures o in s.effects && Service.ForwardCall(kind, o, s.effects[o]) in sent
    ensures o in s.provider.accounts ==>
      s.provider.accounts[o].content == Some(Fingerprint(Service.ForwardCall(kind, o, s.effects[o])))
  {
    hide SP.Rely, SP.AllBenign, SI.CallOk, SI.ReceiptOk, SI.AnswersOk, SI.ExecutionAtOk;
    assert SI.OrderOk(kind, o, SI.ViewAt(kind, s, o));
  }

  /** The account was opened for this saga's operation on this order, and no other. */
  predicate OpenedFor(account: Account, o: Uuid, sagaId: Uuid, op: Operation) {
    && account.sagaId == sagaId && account.content.Some?
    && account.content.value.orderId == o && account.content.value.sagaId == sagaId
    && account.content.value.operation == op
  }

  /** The payment service and its provider charge the order's customer the order's amount. */
  predicate ChargesTheOrder(w: World, o: Uuid) {
    && o in w.orders && o in w.payments.effects
    && Charges(w.payments.effects[o].details, w.orders[o].row.payload)
    && (o in w.payments.provider.accounts ==>
          && OpenedFor(w.payments.provider.accounts[o], o, w.orders[o].row.id, ChargePayment)
          && Charges(w.payments.provider.accounts[o].content.value.payload, w.orders[o].row.payload))
  }

  /** The shipping service and its provider send the order's goods to the order's address. */
  predicate ShipsTheOrder(w: World, o: Uuid) {
    && o in w.orders && o in w.shipments.effects
    && Ships(w.shipments.effects[o].details, w.orders[o].row.payload)
    && (o in w.shipments.provider.accounts ==>
          && OpenedFor(w.shipments.provider.accounts[o], o, w.orders[o].row.id, CreateShipment)
          && Ships(w.shipments.provider.accounts[o].content.value.payload, w.orders[o].row.payload))
  }

  /** The inventory was asked for the order's goods, and holds them if it holds anything. */
  predicate ReservesTheOrder(w: World, o: Uuid) {
    && o in w.orders && o in w.inventory.stock.reservations
    && var r, row := w.inventory.stock.reservations[o], w.orders[o].row;
       && r.sagaId == row.id && r.content.Some? && Reserves(r.content.value.payload, row.payload)
       && (r.status in {Inventory.Reserved, Inventory.Finalized} ==> r.items == row.payload.items)
  }

  lemma PaymentContents(initial: map<Uuid, nat>, w: World, o: Uuid)
    requires WorldOk(initial, w) && (o in w.payments.effects || o in w.payments.provider.accounts)
    ensures ChargesTheOrder(w, o)
  {
    hide WorldOk, SP.InProtocol, IP.InProtocol, Sent;
    Protocols(initial, w);
    RowWasSent(Payments, w.payments, Sent(w.network, PaymentParticipant), o);
    SentCarries(initial, w, PaymentParticipant, Service.ForwardCall(Payments, o, w.payments.effects[o]));
    AccountsAreOwn(Payments, w.payments, Sent(w.network, PaymentParticipant), o);
  }

  lemma ShipmentContents(initial: map<Uuid, nat>, w: World, o: Uuid)
    requires WorldOk(initial, w) && (o in w.shipments.effects || o in w.shipments.provider.accounts)
    ensures ShipsTheOrder(w, o)
  {
    hide WorldOk, SP.InProtocol, IP.InProtocol, Sent;
    Protocols(initial, w);
    RowWasSent(Shipments, w.shipments, Sent(w.network, ShippingParticipant), o);
    SentCarries(initial, w, ShippingParticipant, Service.ForwardCall(Shipments, o, w.shipments.effects[o]));
    AccountsAreOwn(Shipments, w.shipments, Sent(w.network, ShippingParticipant), o);
  }

  lemma AccountsAreOwn(kind: Kind, s: Service.State, sent: set<Command>, o: Uuid)
    requires SP.InProtocol(kind, s, sent) && o in s.effects
    ensures o in s.provider.accounts ==> s.provider.accounts[o].sagaId == s.effects[o].sagaId
  {
    hide SP.Rely, SP.AllBenign, SI.CallOk, SI.ReceiptOk, SI.AnswersOk, SI.ExecutionAtOk;
    assert SI.OrderOk(kind, o, SI.ViewAt(kind, s, o));
  }

  lemma ReservationWasSent(initial: map<Uuid, nat>, s: Inventory.State, sent: set<Command>, o: Uuid)
    returns (c: Command)
    requires IP.InProtocol(initial, s, sent) && o in s.stock.reservations
    ensures
      var r := s.stock.reservations[o];
      && c in sent && c.orderId == o && c.sagaId == r.sagaId && c.operation == ReserveInventory
      && r.content.Some? && r.content.value.payload == c.payload
      && (r.status in {Inventory.Reserved, Inventory.Finalized} ==> c.payload == ItemsPayload(r.items))
  {
    hide II.Conserved, IP.Rely, IP.MailOk, IP.AllBenign;
    var r := s.stock.reservations[o];
    assert II.ReservationOk(o, r) && IP.WasSent(o, r, sent);
    c := IP.ReserveOf(r);
  }

  lemma ReservationContents(initial: map<Uuid, nat>, w: World, o: Uuid)
    requires WorldOk(initial, w) && o in w.inventory.stock.reservations
    ensures ReservesTheOrder(w, o)
  {
    hide WorldOk, SP.InProtocol, IP.InProtocol, Sent;
    Protocols(initial, w);
    var c := ReservationWasSent(initial, w.inventory, Sent(w.network, InventoryParticipant), o);
    SentCarries(initial, w, InventoryParticipant, c);
  }

  /** Everything the three participants and the two providers hold for the order is the order's. */
  predicate HoldsTheOrder(w: World, o: Uuid) {
    ChargesTheOrder(w, o) && ShipsTheOrder(w, o) && ReservesTheOrder(w, o)
  }

  // ---------- Ids ----------

  /** The service's row of the order names a provider transaction, that of its own account. */
  predicate HasReference(s: Service.State, o: Uuid) {
    && o in s.effects && o in s.provider.accounts
    && s.effects[o].reference.Some? && s.effects[o].reference == s.provider.accounts[o].reference
  }

  lemma StandingHasReference(kind: Kind, s: Service.State, sent: set<Command>, o: Uuid)
    requires SP.InProtocol(kind, s, sent)
    requires o in s.effects && s.effects[o].status in {Service.Done, Service.OnDelivery}
    ensures HasReference(s, o)
    ensures s.effects[o].reference == Some(ReferenceOf(o))
  {
    hide SP.Rely, SP.AllBenign, SI.CallOk, SI.ReceiptOk, SI.AnswersOk, SI.ExecutionAtOk;
    assert SI.OrderOk(kind, o, SI.ViewAt(kind, s, o));
  }

  /** Two orders whose rows stand hold different transaction ids. */
  lemma ReferencesDiffer(kind: Kind, s: Service.State, sent: set<Command>, o: Uuid, p: Uuid)
    requires SP.InProtocol(kind, s, sent) && o != p
    requires o in s.effects && s.effects[o].status in {Service.Done, Service.OnDelivery}
    requires p in s.effects && s.effects[p].status in {Service.Done, Service.OnDelivery}
    ensures HasReference(s, o) && HasReference(s, p) && s.effects[o].reference != s.effects[p].reference
  {
    hide SP.InProtocol;
    StandingHasReference(kind, s, sent, o);
    StandingHasReference(kind, s, sent, p);
  }

  /** The id under which the order's stock is held. */
  predicate HasReservationId(s: Inventory.State, o: Uuid, id: Uuid) {
    o in s.stock.reservations && s.stock.reservations[o].result == Some(Succeeded(Applied(id)))
  }

  lemma ReservationIdsDiffer(initial: map<Uuid, nat>, s: Inventory.State, sent: set<Command>, o: Uuid, p: Uuid)
    requires IP.InProtocol(initial, s, sent) && o != p
    requires o in s.stock.reservations && s.stock.reservations[o].status == Inventory.Finalized
    requires p in s.stock.reservations && s.stock.reservations[p].status == Inventory.Finalized
    ensures exists a, b :: HasReservationId(s, o, a) && HasReservationId(s, p, b) && a != b
  {
    hide II.Conserved, IP.Rely, IP.MailOk, IP.AllBenign, IP.SentOnly;
    assert II.ReservationOk(o, s.stock.reservations[o]) && II.ReservationOk(p, s.stock.reservations[p]);
    assert HasReservationId(s, o, Inventory.ReservationId(o)) && HasReservationId(s, p, Inventory.ReservationId(p));
  }
}
