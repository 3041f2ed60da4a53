/** The ends are real from the start: every payable order has a history of the whole system in which
    it fails, and, when its basket is in stock, one in which it completes and one in which all that
    was done for it is undone. */
module SystemWitness {
  import opened Contracts
  import opened StateMachine
  import opened Broker
  import opened BrokerEnds
  import opened BrokerInvariant
  import opened Provider
  import opened System
  import opened SystemDrive
  import opened SystemEnds
  import opened SystemInvariant
  import opened SystemPaths
  import opened SystemRuns
  import Acceptance
  import Inventory
  import II = InventoryInvariant

  /** The witness has one order; its saga carries the same number. */
  const ORDER: Uuid := 0

  const START := Progress(InProgress, ChargePayment, PaymentStep, [], [], false)
  const CHARGED := Progress(InProgress, ReserveInventory, InventoryStep, [PaymentStep], [], false)
  const RESERVED := Progress(InProgress, CreateShipment, ShippingStep, [PaymentStep, InventoryStep], [], false)

  /** Nobody has done anything for the order yet. */
  predicate JustPlaced(products: map<Uuid, Inventory.Product>, w: World, payload: OrderPayload) {
    && w == Begin(products).(orders := w.orders) && ORDER in w.orders
    && var row := w.orders[ORDER].row;
       row.payload == payload && row.orderId == row.id == ORDER && Started(row.progress) == START
  }

  lemma PlacedRow(cfg: Config, payload: OrderPayload)
    ensures
      var row := Accept(cfg, ORDER, ORDER, payload, 0, 0).row;
      row.payload == payload && row.orderId == row.id == ORDER && Started(row.progress) == START
  {
    CoherentCursor(START);
  }

  lemma Placed(cfg: Config, products: map<Uuid, Inventory.Product>, request: Acceptance.Request) returns (h: History)
    requires forall p | p in products :: products[p].available >= 0
    requires Acceptance.Schema(request) && Acceptance.Payable(request)
    ensures IsHistory(cfg, products, h) && h.worlds != []
    ensures JustPlaced(products, Now(h), Acceptance.PayloadOf(request))
  {
    hide Accept, Acceptance.PayloadOf, Acceptance.Schema, Acceptance.Payable;
    var start := History([Begin(products)], [], []);
    assert IsHistory(cfg, products, start);
    hide IsHistory;
    PlacedRow(cfg, Acceptance.PayloadOf(request));
    h := Append(cfg, products, start, Place(ORDER, ORDER, request, 0), 0);
  }

  lemma PlacedIsPromising(products: map<Uuid, Inventory.Product>, w: World, payload: OrderPayload)
    requires JustPlaced(products, w, payload) && Normalized(payload) && Inventory.InStock(products, payload.items)
    ensures Promising(w, ORDER)
  {
    hide Normalized, Inventory.InStock, Inventory.WellFormed;
    WellFormedItems(w.orders[ORDER].row, ReserveInventory);
    WellFormedItems(w.orders[ORDER].row, FinalizeInventory);
  }

  /** Every payable order can fail: its charge is declined. */
  lemma EveryOrderCanFail(cfg: Config, products: map<Uuid, Inventory.Product>, request: Acceptance.Request)
      returns (h: History)
    requires forall p | p in products :: products[p].available >= 0
    requires Acceptance.Schema(request) && Acceptance.Payable(request)
    ensures IsHistory(cfg, products, h) && h.worlds != [] && HasStatus(Now(h), ORDER, FailedOrder)
    ensures Now(h).orders[ORDER].row.payload == Acceptance.PayloadOf(request)
  {
    hide IsHistory, Elsewhere, Promising, Continues, Acceptance.PayloadOf, Acceptance.Schema, Acceptance.Payable;
    var placed := Placed(cfg, products, request);
    h := Drives(cfg, products, placed, ORDER, RejectMode);
    SameOrder(cfg, products, placed, h, ORDER);
  }

  /** Every payable order whose basket is in stock can complete. */
  lemma EveryOrderCanComplete(cfg: Config, products: map<Uuid, Inventory.Product>, request: Acceptance.Request)
      returns (h: History)
    requires forall p | p in products :: products[p].available >= 0
    requires Acceptance.Schema(request) && Acceptance.Payable(request)
    requires Inventory.InStock(products, Acceptance.PayloadOf(request).items)
    ensures IsHistory(cfg, products, h) && h.worlds != [] && HasStatus(Now(h), ORDER, CompletedOrder)
    ensures Now(h).orders[ORDER].row.payload == Acceptance.PayloadOf(request)
  {
    Acceptance.PayloadsAreNormal(request);
    hide IsHistory, Elsewhere, Promising, Declining, Continues, Acceptance.PayloadOf, Acceptance.Schema;
    hide Acceptance.Payable, Inventory.InStock, Normalized;
    var placed := Placed(cfg, products, request);
    PlacedIsPromising(products, Now(placed), Acceptance.PayloadOf(request));
    h := Drives(cfg, products, placed, ORDER, SuccessMode);
    SameOrder(cfg, products, placed, h, ORDER);
  }

  // ---------- Undoing everything ----------

  lemma ForwardMoves(p: Progress, q: Progress)
    requires Moves(Started(p), true, q)
    ensures Started(p) == START ==> GoesTo(q) == CHARGED
    ensures p == CHARGED ==> GoesTo(q) == RESERVED
  {
  }

  /** A promised operation is done. */
  lemma PromiseKept(w: World, w': World, p: Progress)
    requires Promising(w, ORDER) && Exchanged(w, w', ORDER, SuccessMode) && p == w.orders[ORDER].row.progress
    requires Started(p) == START || p == CHARGED
    ensures w'.orders[ORDER].row.progress == if p == CHARGED then RESERVED else CHARGED
    ensures w'.shipments == w.shipments
  {
    CoherentCursor(Started(p));
    var c := NextCommand(w.orders[ORDER]);
    assert c == CommandFor(w.orders[ORDER].row, p.operation) && Promises(w, c, SuccessMode);
    hide Promises, Moves, GoesTo, NextOperation;
    var q :| Moves(Started(p), true, q) && w'.orders[ORDER].row.progress == GoesTo(q);
    ForwardMoves(p, q);
  }

  /** The shipment is refused after all else was done. */
  lemma ShipmentRefused(w: World, w': World)
    requires ORDER in w.orders && w.orders[ORDER].row.progress == RESERVED && w.orders[ORDER].row.orderId == ORDER
    requires ORDER !in w.shipments.provider.accounts && Exchanged(w, w', ORDER, RejectMode)
    ensures w'.orders[ORDER].row.progress == RESERVED.(status := Compensating)
  {
    CoherentCursor(RESERVED);
    var c := NextCommand(w.orders[ORDER]);
    assert !Promises(w, c, RejectMode);
  }

  lemma FullyUndone(p: Progress, q: Progress)
    requires p == RESERVED.(status := Compensating) && NoReturn(p, q) && Coherent(q) && Terminal(q.status)
    ensures q.status == FailedOrder && q.compensated == [InventoryStep, PaymentStep]
  {
    assert q.completed == [PaymentStep, InventoryStep];
    assert q.compensated == Reversed(q.completed);
  }

  lemma PromisedOrder(w: World)
    requires Promising(w, ORDER)
    ensures ORDER in w.orders
  {
  }

  /** An exchange in which the promised operation is done. */
  lemma Proceeds(cfg: Config, products: map<Uuid, Inventory.Product>, h: History) returns (longer: History)
    requires IsHistory(cfg, products, h) && Promising(Now(h), ORDER)
    requires Now(h).orders[ORDER].row.progress == CHARGED || Started(Now(h).orders[ORDER].row.progress) == START
    ensures IsHistory(cfg, products, longer) && longer.worlds != [] && Promising(Now(longer), ORDER)
    ensures Now(longer).orders[ORDER].row.progress ==
      if Now(h).orders[ORDER].row.progress == CHARGED then RESERVED else CHARGED
    ensures Now(longer).shipments == Now(h).shipments
    ensures Now(longer).orders[ORDER].row.payload == Now(h).orders[ORDER].row.payload
  {
    hide IsHistory, WorldOk, Exchanged, Promising, Declining, Continues, NoReturn, Left, Coherent, Elsewhere;
    ContinuesItself(cfg, products, h);
    PromisedOrder(Now(h));
    var p := Now(h).orders[ORDER].row.progress;
    longer := Exchanges(cfg, products, h, ORDER, SuccessMode);
    SameOrder(cfg, products, h, longer, ORDER);
    NowIsOk(cfg, products, h);
    IsCoherent(II.Initially(products), Now(h), ORDER);
    ExchangeKeeps(Now(h), Now(longer), ORDER, SuccessMode);
    PromiseKept(Now(h), Now(longer), p);
  }

  /** From a reserved order: shipping refuses it, and everything is undone. */
  lemma TurnsBack(cfg: Config, products: map<Uuid, Inventory.Product>, h: History) returns (longer: History)
    requires IsHistory(cfg, products, h) && ORDER in Now(h).orders
    requires Now(h).orders[ORDER].row.progress == RESERVED && ORDER !in Now(h).shipments.provider.accounts
    ensures IsHistory(cfg, products, longer) && longer.worlds != [] && HasStatus(Now(longer), ORDER, FailedOrder)
    ensures Now(longer).orders[ORDER].row.payload == Now(h).orders[ORDER].row.payload
    ensures Now(longer).orders[ORDER].row.progress.compensated == [InventoryStep, PaymentStep]
  {
    hide IsHistory, WorldOk, Exchanged, Promising, Declining, Continues, NoReturn, Coherent, Elsewhere;
    ContinuesItself(cfg, products, h);
    SameOrder(cfg, products, h, h, ORDER);
    var refused := Exchanges(cfg, products, h, ORDER, RejectMode);
    SameOrder(cfg, products, h, refused, ORDER);
    ShipmentRefused(Now(h), Now(refused));
    longer := Drives(cfg, products, refused, ORDER, SuccessMode);
    SameOrder(cfg, products, refused, longer, ORDER);
    NowIsOk(cfg, products, longer);
    IsCoherent(II.Initially(products), Now(longer), ORDER);
    FullyUndone(Now(refused).orders[ORDER].row.progress, Now(longer).orders[ORDER].row.progress);
  }

  /** It can also fail late: paid, reserved, refused by shipping, its stock released and its
      payment refunded. */
  lemma EveryOrderCanBeUndone(cfg: Config, products: map<Uuid, Inventory.Product>, request: Acceptance.Request)
      returns (h: History)
    requires forall p | p in products :: products[p].available >= 0
    requires Acceptance.Schema(request) && Acceptance.Payable(request)
    requires Inventory.InStock(products, Acceptance.PayloadOf(request).items)
    ensures IsHistory(cfg, products, h) && h.worlds != [] && HasStatus(Now(h), ORDER, FailedOrder)
    ensures Now(h).orders[ORDER].row.payload == Acceptance.PayloadOf(request)
    ensures Now(h).orders[ORDER].row.progress.compensated == [InventoryStep, PaymentStep]
  {
    Acceptance.PayloadsAreNormal(request);
    hide IsHistory, Promising, Acceptance.PayloadOf, Acceptance.Schema, Acceptance.Payable, Inventory.InStock;
    hide Normalized;
    h := Placed(cfg, products, request);
    PlacedIsPromising(products, Now(h), Acceptance.PayloadOf(request));
    h := Proceeds(cfg, products, h);
    h := Proceeds(cfg, products, h);
    h := TurnsBack(cfg, products, h);
  }
}
