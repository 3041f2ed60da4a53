/** From the client's request to what is charged and sent: the order is placed as requested, its
    charge goes out at once unless a bank transfer has to be confirmed first, and a completed order
    was paid at the price list's price and sent as asked. */
module SystemCheckout {
  import opened Contracts
  import opened StateMachine
  import opened Broker
  import opened BrokerInvariant
  import opened BrokerTiming
  import Identifiers
  import Catalog
  import opened Acceptance
  import opened System
  import opened SystemInvariant
  import opened SystemRuns
  import Inventory
  import II = InventoryInvariant

  // ---------- Accepting ----------

  /** A charge of what the request costs, to its customer. */
  predicate ChargesTheRequest(details: CommandPayload, r: Request)
    requires Schema(r)
  {
    && details.ChargePayload?
    && details.customerId == Identifiers.Value(r.customer) && details.currency == r.currency
    && details.amountMinor == Catalog.AmountDue(r.items)
    && details.paymentMethod == if r.paymentMethod == Some(BankTransfer) then BankTransfer else COD
  }

  /** What was stored is what is charged. */
  lemma StoredIsCharged(p: OrderPayload, details: CommandPayload, r: Request)
    requires Schema(r) && Stores(p, r) && Charges(details, p)
    ensures ChargesTheRequest(details, r)
  {
    hide Schema, Catalog.AmountDue, Identifiers.Value;
  }

  /** The first message is the order's charge. */
  predicate ChargeIsOut(cfg: Config, d: Slice, r: Request, sagaId: Uuid, orderId: Uuid, now: nat, mid: Uuid)
    requires Schema(r)
  {
    && d.row.progress == Progress(InProgress, ChargePayment, PaymentStep, [], [], false)
    && SentFor(cfg, d, mid, now) && d.outbox.Keys == {mid}
    && var c := d.outbox[mid].body.command;
       && c.orderId == orderId && c.sagaId == sagaId && c.operation == ChargePayment
       && c.key == SagaKey(sagaId, ChargePayment) && ChargesTheRequest(c.payload, r)
  }

  /** A new order's charge goes out at once, by cash when the method was left out; for a bank
      transfer nothing goes out, and the confirmation then sends the charge at once. */
  lemma AcceptedStarts(cfg: Config, sagaId: Uuid, orderId: Uuid, r: Request, now: nat, mid: Uuid, later: nat)
    requires Acceptable(r)
    ensures Schema(r)
    ensures
      var d := Accept(cfg, sagaId, orderId, PayloadOf(r), now, mid);
      if r.paymentMethod == Some(BankTransfer) then
        && d.row.progress == Progress(PendingPayment, ChargePayment, PaymentStep, [], [], false)
        && d.outbox == map[] && d.row.pending.None?
        && ChargeIsOut(cfg, Perform(cfg, d, DoConfirm(mid), later), r, sagaId, orderId, later, mid)
      else ChargeIsOut(cfg, d, r, sagaId, orderId, now, mid)
  {
    AcceptableMeans(r);
    PayloadStores(PayloadOf(r), r);
    hide Acceptable, PayloadOf, Schema, Stores, ChargesTheRequest;
    StartOf(cfg, sagaId, orderId, PayloadOf(r), now, mid, later);
    forall details | Charges(details, PayloadOf(r)) ensures ChargesTheRequest(details, r) {
      StoredIsCharged(PayloadOf(r), details, r);
    }
  }

  /** The saga has just sent its order's charge. */
  predicate JustCharged(cfg: Config, d: Slice, p: OrderPayload, sagaId: Uuid, orderId: Uuid, now: nat, mid: Uuid) {
    && d.row.progress == Progress(InProgress, ChargePayment, PaymentStep, [], [], false)
    && SentFor(cfg, d, mid, now) && d.outbox.Keys == {mid}
    && var c := d.outbox[mid].body.command;
       && c.orderId == orderId && c.sagaId == sagaId && c.operation == ChargePayment
       && c.key == SagaKey(sagaId, ChargePayment) && Charges(c.payload, p)
  }

  lemma FirstDispatch(cfg: Config, d: Slice, now: nat, mid: Uuid)
    requires d.row.progress == Progress(InProgress, ChargePayment, PaymentStep, [], [], false)
    requires d.outbox == map[] && d.row.reason.None?
    ensures Dispatch(cfg, d, d.row, now, mid).Committed?
    ensures JustCharged(cfg, Dispatch(cfg, d, d.row, now, mid).slice, d.row.payload, d.row.id, d.row.orderId, now, mid)
  {
    CoherentCursor(d.row.progress);
    hide NextOperation, Dispatch, SentFor;
    DispatchSends(cfg, d, d.row, now, mid);
    DispatchShape(cfg, d, d.row, now, mid);
    BuiltCarries(ChargePayment, d.row.orderId, d.row.id, d.row.payload);
  }

  lemma StartOf(cfg: Config, sagaId: Uuid, orderId: Uuid, p: OrderPayload, now: nat, mid: Uuid, later: nat)
    ensures
      var d := Accept(cfg, sagaId, orderId, p, now, mid);
      if p.paymentMethod == BankTransfer then
        && d.row.progress == Progress(PendingPayment, ChargePayment, PaymentStep, [], [], false)
        && d.outbox == map[] && d.row.pending.None?
        && JustCharged(cfg, Perform(cfg, d, DoConfirm(mid), later), p, sagaId, orderId, later, mid)
      else JustCharged(cfg, d, p, sagaId, orderId, now, mid)
  {
    hide Dispatch, JustCharged;
    var start := Progress(InProgress, ChargePayment, PaymentStep, [], [], false);
    var d := Accept(cfg, sagaId, orderId, p, now, mid);
    if p.paymentMethod == BankTransfer {
      var saga := d.row;
      FirstDispatch(cfg, Save(d, saga, saga.(progress := start, nextAttemptAt := later), PaymentConfirmed, None,
                              ForwardDirection, PaymentStep), later, mid);
    } else {
      var row := Row(sagaId, orderId, p, start, None, None, now, 0, 0, 0, None, None, None, 1);
      FirstDispatch(cfg, Slice(row, [Entry(1, None, InProgress, PaymentStep, ForwardDirection, OrderAccepted, None,
                                           None, None)], map[], map[]), now, mid);
    }
  }

  // ---------- Over every run ----------

  /** The order was placed by this request, and is stored as it asks. */
  predicate PlacedBy(h: History, k: nat, o: Uuid, p: OrderPayload) {
    && k < |h.events| && h.events[k].Place? && h.events[k].orderId == o
    && Schema(h.events[k].request) && Payable(h.events[k].request) && p == PayloadOf(h.events[k].request)
  }

  lemma PlacesOnly(cfg: Config, initial: map<Uuid, nat>, w: World, e: Event, now: nat, o: Uuid)
    requires Possible(w, e) && WorldOk(initial, w) && o in Step(cfg, w, e, now).orders
    ensures
      var d := Step(cfg, w, e, now).orders[o];
      if o in w.orders then d.row.payload == w.orders[o].row.payload
      else
        && e.Place? && e.orderId == o && Schema(e.request) && Payable(e.request)
        && d.row.payload == PayloadOf(e.request)
  {
    hide WorldOk, Perform, Accept, Service.Step, Inventory.Step, Published, Fresh, NoReturn;
    hide Schema, Payable, PayloadOf, ActionPossible, Service.Possible, Inventory.Possible, Carried;
    StepMovesOn(cfg, initial, w, e, now);
    if o !in w.orders {
      AcceptedPayload(cfg, e.sagaId, o, PayloadOf(e.request), now, e.mid);
    }
  }

  lemma AcceptedPayload(cfg: Config, id: Uuid, o: Uuid, payload: OrderPayload, now: nat, mid: Uuid)
    ensures Accept(cfg, id, o, payload, now, mid).row.payload == payload
  {
    hide NextOperation;
  }

  /** Every order in every history was placed by some request, and is stored as that request asks. */
  lemma {:induction false} EveryOrderWasPlaced(cfg: Config, products: map<Uuid, Inventory.Product>, h: History,
                                               i: nat, o: Uuid) returns (k: nat)
    requires IsHistory(cfg, products, h) && i < |h.worlds| && o in h.worlds[i].orders
    ensures k < i && PlacedBy(h, k, o, h.worlds[i].orders[o].row.payload)
    decreases i
  {
    hide WorldOk, Possible, Step, Schema, Payable, PayloadOf;
    assert i > 0;
    var w := h.worlds[i - 1];
    HistoriesStayOk(cfg, products, h, i - 1);
    PlacesOnly(cfg, II.Initially(products), w, h.events[i - 1], h.times[i - 1], o);
    if o in w.orders {
      k := EveryOrderWasPlaced(cfg, products, h, i - 1, o);
    } else {
      k := i - 1;
    }
  }

  /** A shipment of the goods the request asks for, to its address. */
  predicate ShipsTheRequest(details: CommandPayload, r: Request)
    requires Schema(r)
  {
    && details.ShipmentPayload?
    && multiset(details.items) == multiset(Catalog.ItemsOf(r.items)) && details.address == r.address
  }

  /** The bargain: a COMPLETED order was placed by a request that the service may accept; its payment
      row charges the request's customer what its items cost by the price list, by the method the
      request says, and its shipping row sends those items to the request's address. */
  lemma CompletedAsRequested(cfg: Config, products: map<Uuid, Inventory.Product>, h: History, i: nat, o: Uuid)
    returns (r: Request, k: nat)
    requires IsHistory(cfg, products, h) && i < |h.worlds| && HasStatus(h.worlds[i], o, CompletedOrder)
    ensures k < i && h.events[k].Place? && h.events[k].orderId == o && h.events[k].request == r
    ensures Acceptable(r) && Schema(r)
    ensures o in h.worlds[i].payments.effects && o in h.worlds[i].shipments.effects
    ensures ChargesTheRequest(h.worlds[i].payments.effects[o].details, r)
    ensures ShipsTheRequest(h.worlds[i].shipments.effects[o].details, r)
  {
    k := EveryOrderWasPlaced(cfg, products, h, i, o);
    r := h.events[k].request;
    hide IsHistory, Acceptable, ChargesTheRequest, Schema, PayloadOf, HasStatus, WorldOk;
    HistoriesStayOk(cfg, products, h, i);
    CompletedHolds(II.Initially(products), h.worlds[i], o);
    AcceptableMeans(r);
    PayloadStores(h.worlds[i].orders[o].row.payload, r);
    StoredIsCharged(h.worlds[i].orders[o].row.payload, h.worlds[i].payments.effects[o].details, r);
  }
}
