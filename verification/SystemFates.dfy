/** Which ends are open to an order, from every world that a history reaches. FAILED is open exactly
    while the shipping provider holds no shipment of it. COMPLETED is open exactly while nobody has
    refused it and its basket is held, or would be on the shelf if every order that is not shipped
    gave its stock back. */
module SystemFates {
  import opened Contracts
  import opened StateMachine
  import opened Basket
  import opened Broker
  import opened BrokerInvariant
  import opened BrokerLinks
  import opened Provider
  import opened ServiceSettles
  import opened System
  import opened SystemDrive
  import opened SystemEnds
  import opened SystemInvariant
  import opened SystemMemory
  import opened SystemPaths
  import opened SystemRuns
  import opened SystemTheorems
  import Service
  import SP = ServiceProtocol
  import Inventory
  import II = InventoryInvariant
  import IP = InventoryProtocol

  // ---------- Shipped orders hold their stock ----------

  predicate Shipped(w: World, o: Uuid) { o in w.shipments.provider.accounts }

  lemma ShipmentWasSent(s: Service.State, sent: set<Command>, o: Uuid) returns (c: Command)
    requires SP.InProtocol(Shipments, s, sent) && o in s.provider.accounts
    ensures c in sent && c.orderId == o && c.operation == CreateShipment
  {
    hide SP.Rely, SP.AllBenign;
    OrderAt(Shipments, s, sent, o);
    c := Service.ForwardCall(Shipments, o, s.effects[o]);
  }

  lemma ShippedWasReserved(p: Progress, done: set<Operation>, rejected: set<Operation>)
    requires Coherent(p) && Earned(p, done, rejected) && MayExist(p, CreateShipment)
    ensures ReserveInventory in done
    ensures p.status in {Compensating, FailedOrder} ==> CreateShipment in rejected
  {
    assert ForwardIndex(ReserveInventory) < ForwardIndex(CreateShipment);
  }

  /** A shipped order was reserved, and never turns back. */
  lemma ShippedGoesForward(initial: map<Uuid, nat>, w: World, o: Uuid)
    requires WorldOk(initial, w) && Shipped(w, o)
    ensures o in w.orders && ReserveInventory in DoneFor(w, w.orders[o].row.id)
    ensures w.orders[o].row.progress.status !in {Compensating, FailedOrder}
  {
    hide WorldOk, OrdersOk, NetworkOk, SP.InProtocol, IP.InProtocol, Sent, MayExist, Earned, Coherent, AnswerOf;
    hide Refuses;
    Protocols(initial, w);
    OrdersAndNetwork(initial, w);
    var c := ShipmentWasSent(w.shipments, Sent(w.network, ShippingParticipant), o);
    SentHome(w.orders, w.network, ShippingParticipant, c);
    ProgressAt(initial, w, o);
    var row := w.orders[o].row;
    ShippedWasReserved(row.progress, DoneFor(w, row.id), RejectedFor(w, row.id));
    ServiceReceiptTells(initial, w, o, Shipments);
  }

  lemma ReservedStands(initial: map<Uuid, nat>, s: Inventory.State, sent: set<Command>, o: Uuid)
    requires IP.InProtocol(initial, s, sent) && o in s.stock.reservations
    requires s.stock.reservations[o].result.Some? && s.stock.reservations[o].result.value.Succeeded?
    requires forall c | c in sent && c.orderId == o :: c.operation != ReleaseInventory
    ensures s.stock.reservations[o].status in {Inventory.Reserved, Inventory.Finalized}
  {
    hide II.Conserved, IP.Rely, IP.MailOk, IP.AllBenign;
    assert II.ReservationOk(o, s.stock.reservations[o]) && IP.WasSent(o, s.stock.reservations[o], sent);
  }

  /** A shipped order holds its basket. */
  lemma ShippedHolds(initial: map<Uuid, nat>, w: World, o: Uuid)
    requires WorldOk(initial, w) && Shipped(w, o)
    ensures o in w.orders && Holds(w, o)
    ensures w.inventory.stock.reservations[o].items == w.orders[o].row.payload.items
  {
    hide WorldOk, SP.InProtocol, IP.InProtocol, Sent, AnswerOf, Shipped;
    ShippedGoesForward(initial, w, o);
    InventoryReceiptTells(initial, w, o);
    Protocols(initial, w);
    IsCoherent(initial, w, o);
    NotSent(initial, w, o, ReleaseInventory);
    ReservedStands(initial, w.inventory, Sent(w.network, InventoryParticipant), o);
    HeldItems(initial, w, o);
  }

  // ---------- The catalogue ----------

  predicate OnSale(products: map<Uuid, Inventory.Product>, items: seq<Item>) {
    forall i :: 0 <= i < |items| ==> items[i].productId in products && products[items[i].productId].active
  }

  predicate HoldsOnSale(products: map<Uuid, Inventory.Product>, r: Inventory.Reservation) {
    r.status in {Inventory.Reserved, Inventory.Finalized} ==> OnSale(products, r.items)
  }

  /** Products are neither added nor withdrawn, and only what is on sale is held. */
  predicate Catalogued(products: map<Uuid, Inventory.Product>, s: Inventory.Stock) {
    && s.products.Keys == products.Keys
    && (forall p | p in products :: s.products[p].active == products[p].active)
    && (forall o | o in s.reservations :: HoldsOnSale(products, s.reservations[o]))
  }

  lemma DecideKeepsCatalogue(products: map<Uuid, Inventory.Product>, now: map<Uuid, Inventory.Product>,
                             r: Option<Inventory.Reservation>, c: Command)
    requires Inventory.WellFormed(c) && now.Keys == products.Keys
    requires forall p | p in products :: now[p].active == products[p].active
    requires r.Some? ==> HoldsOnSale(products, r.value)
    ensures
      var d := Inventory.Decide(now, r, c);
      d.Some? ==>
        && d.value.products.Keys == products.Keys
        && (forall p | p in products :: d.value.products[p].active == products[p].active)
        && (d.value.reservation.Some? ==> HoldsOnSale(products, d.value.reservation.value))
  {
  }

  lemma ExecuteKeepsCatalogue(products: map<Uuid, Inventory.Product>, s: Inventory.Stock, c: Command)
    requires Inventory.WellFormed(c) && Catalogued(products, s)
    ensures Inventory.Execute(s, c).Committed? ==> Catalogued(products, Inventory.Execute(s, c).stock)
  {
    hide Inventory.Decide, HoldsOnSale, Inventory.WellFormed;
    DecideKeepsCatalogue(products, s.products, Get(s.reservations, c.orderId), c);
  }

  lemma StepKeepsCatalogue(cfg: Config, products: map<Uuid, Inventory.Product>, w: World, e: Event, now: nat)
    requires Possible(w, e) && Catalogued(products, w.inventory.stock)
    ensures Catalogued(products, Step(cfg, w, e, now).inventory.stock)
  {
    hide Catalogued, Inventory.Execute, Inventory.WellFormed, Inventory.Normalize, Service.Step, Service.Possible;
    hide Perform, Published, Carried, Fresh, ActionPossible;
    if e.InventoryEvent? && (e.inventory.Deliver? || e.inventory.Direct?) {
      ExecuteKeepsCatalogue(products, w.inventory.stock, Inventory.Normalize(e.inventory.command));
    }
  }

  lemma {:induction false} HistoriesStayCatalogued(cfg: Config, products: map<Uuid, Inventory.Product>, h: History,
                                                   i: nat)
    requires IsHistory(cfg, products, h) && i < |h.worlds|
    ensures Catalogued(products, h.worlds[i].inventory.stock)
  {
    hide Possible, Step;
    if i > 0 {
      HistoriesStayCatalogued(cfg, products, h, i - 1);
      StepKeepsCatalogue(cfg, products, h.worlds[i - 1], h.events[i - 1], h.times[i - 1]);
    }
  }

  // ---------- What an order can still get ----------

  /** What the shipped orders hold of a product. */
  function Gone(w: World, p: Uuid): map<Uuid, nat> {
    map o | o in w.orders && Shipped(w, o) :: Quantity(w.orders[o].row.payload.items, p)
  }

  /** The basket is on sale, and fits into the initial stock less what the shipped orders hold. */
  ghost predicate Attainable(products: map<Uuid, Inventory.Product>, w: World, o: Uuid)
    requires o in w.orders
  {
    forall item | item in w.orders[o].row.payload.items ::
      && item.productId in products && products[item.productId].active
      && item.quantity + Total(Gone(w, item.productId)) <= products[item.productId].available
  }

  lemma HoldsItsShare(initial: map<Uuid, nat>, w: World, o: Uuid, p: Uuid)
    requires WorldOk(initial, w) && o in w.orders && Holds(w, o)
    ensures II.Share(Get(w.inventory.stock.reservations, o), p) == Quantity(w.orders[o].row.payload.items, p)
  {
    hide WorldOk, Quantity;
    HeldItems(initial, w, o);
  }

  /** What was shipped then is held now, and so is what was completed. */
  lemma HeldTogether(initial: map<Uuid, nat>, w: World, w': World, o: Uuid, p: Uuid)
    requires WorldOk(initial, w) && WorldOk(initial, w') && Remembers(w, w') && OrdersMoveOn(w, w')
    requires o in w.orders && o !in w.inventory.stock.reservations && HasStatus(w', o, CompletedOrder)
    ensures Quantity(w.orders[o].row.payload.items, p) + Total(Gone(w, p))
         <= II.Held(w'.inventory.stock.reservations, p)
  {
    hide WorldOk, Remembers, Quantity, Total, II.Held, II.Share, NoReturn, NothingUndone, Shipped, Holds;
    var bought := Quantity(w.orders[o].row.payload.items, p);
    var weights := Gone(w, p)[o := bought];
    SuccessIsClean(initial, w', o);
    TakenIsHeld(w', o);
    HoldsItsShare(initial, w', o, p);
    forall x | x in Gone(w, p)
      ensures Gone(w, p)[x] <= II.Share(Get(w'.inventory.stock.reservations, x), p) && x != o
    {
      ShippedIsThere(initial, w, x);
      StaysShipped(w, w', x);
      ShippedHolds(initial, w', x);
      HoldsItsShare(initial, w', x, p);
    }
    HeldCovers(w'.inventory.stock.reservations, weights, p);
    TotalSplits(weights, o);
    assert weights - {o} == Gone(w, p);
  }

  lemma TakenIsHeld(w: World, o: Uuid)
    requires StockTaken(w, o)
    ensures Holds(w, o)
  {
  }

  lemma ShippedIsThere(initial: map<Uuid, nat>, w: World, o: Uuid)
    requires WorldOk(initial, w) && Shipped(w, o)
    ensures o in w.inventory.stock.reservations
  {
    hide WorldOk;
    ShippedHolds(initial, w, o);
  }

  lemma StaysShipped(w: World, w': World, o: Uuid)
    requires Remembers(w, w') && Shipped(w, o)
    ensures Shipped(w', o)
  {
    hide Remembers;
    ShipmentStays(w, w', o);
  }

  lemma ShelfBalance(initial: map<Uuid, nat>, w: World, p: Uuid)
    requires WorldOk(initial, w) && p in initial
    ensures p in w.inventory.stock.products && w.inventory.stock.products[p].available >= 0
    ensures w.inventory.stock.products[p].available + II.Held(w.inventory.stock.reservations, p) == initial[p]
  {
    hide WorldOk, IP.InProtocol, SP.InProtocol, Sent, II.Held;
    Protocols(initial, w);
    BooksBalance(initial, w.inventory, Sent(w.network, InventoryParticipant), p);
  }

  lemma BasketQuantity(items: seq<Item>, item: Item)
    requires ValidBasket(items) && item in items
    ensures Quantity(items, item.productId) == item.quantity
  {
    var i :| 0 <= i < |items| && items[i] == item;
    QuantityOfItem(items, i);
  }

  lemma HeldIsOnSale(products: map<Uuid, Inventory.Product>, w: World, o: Uuid, item: Item)
    requires Catalogued(products, w.inventory.stock) && Holds(w, o)
    requires item in w.inventory.stock.reservations[o].items
    ensures item.productId in products && products[item.productId].active
  {
    assert HoldsOnSale(products, w.inventory.stock.reservations[o]);
  }

  /** An order that completes later without holding anything now could get its basket. */
  lemma CompletedWasAttainable(products: map<Uuid, Inventory.Product>, w: World, w': World, o: Uuid)
    requires WorldOk(II.Initially(products), w) && WorldOk(II.Initially(products), w')
    requires Remembers(w, w') && OrdersMoveOn(w, w') && Catalogued(products, w'.inventory.stock)
    requires forall p | p in products :: products[p].available >= 0
    requires o in w.orders && o !in w.inventory.stock.reservations && HasStatus(w', o, CompletedOrder)
    ensures Attainable(products, w, o)
  {
    hide WorldOk, Remembers, Quantity, Total, II.Held, Ok, NothingUndone, Catalogued, Gone, NoReturn, ValidBasket;
    hide Holds;
    var initial := II.Initially(products);
    OrderIsOk(initial, w, o);
    SuccessIsClean(initial, w', o);
    TakenIsHeld(w', o);
    HeldItems(initial, w', o);
    var items := w.orders[o].row.payload.items;
    forall item | item in items
      ensures item.productId in products && products[item.productId].active
      ensures item.quantity + Total(Gone(w, item.productId)) <= products[item.productId].available
    {
      HeldIsOnSale(products, w', o, item);
      BasketQuantity(items, item);
      HeldTogether(initial, w, w', o, item.productId);
      ShelfBalance(initial, w', item.productId);
    }
  }

  // ---------- Clearing the shelf ----------

  /** The other orders that are not shipped and may still give their stock back. */
  function Pending(w: World, o: Uuid): set<Uuid> {
    set x | x in w.orders && x != o && !Shipped(w, x) && w.orders[x].row.progress.status != FailedOrder
  }

  /** Nobody refused the order, and nothing is reserved for it. */
  predicate Untouched(w: World, o: Uuid) {
    o in w.orders && !RefusedOnce(w, o) && o !in w.inventory.stock.reservations
  }

  lemma StillUnrefused(kind: Kind, s: Service.State, s': Service.State, x: Uuid, sagaX: Uuid, o: Uuid, sagaId: Uuid)
    requires SparesOthers(s.provider, s'.provider, x, sagaX) && x != o && sagaX != sagaId
    ensures Refuses(kind, s', o, sagaId) <==> Refuses(kind, s, o, sagaId)
    ensures o in s'.provider.accounts <==> o in s.provider.accounts
  {
    assert o in s'.provider.accounts.Keys - {x} <==> o in s.provider.accounts.Keys - {x};
  }

  lemma SameGone(w: World, w': World, x: Uuid, p: Uuid)
    requires x in w.orders && x in w'.orders && w'.orders == w.orders[x := w'.orders[x]]
    requires !Shipped(w, x) && !Shipped(w', x)
    requires forall y | y != x && y in w.orders :: Shipped(w', y) <==> Shipped(w, y)
    ensures Gone(w', p) == Gone(w, p)
  {
    hide Quantity, Shipped;
  }

  lemma OthersAreUnmoved(w: World, w': World, x: Uuid, o: Uuid)
    requires x in w.orders && Untouched(w, o) && x != o && w.orders[x].row.id != w.orders[o].row.id
    requires Elsewhere(w, w', x, w.orders[x].row.id)
    requires !Shipped(w, x) && !Shipped(w', x) && w'.orders[x].row.progress.status == FailedOrder
    ensures Untouched(w', o) && w'.orders[o] == w.orders[o] && Pending(w', o) == Pending(w, o) - {x}
    ensures forall p: Uuid :: Gone(w', p) == Gone(w, p)
  {
    hide Refuses, Gone;
    var sagaX, sagaId := w.orders[x].row.id, w.orders[o].row.id;
    assert o in w'.inventory.stock.reservations.Keys - {x} <==> o in w.inventory.stock.reservations.Keys - {x};
    StillUnrefused(Payments, w.payments, w'.payments, x, sagaX, o, sagaId);
    StillUnrefused(Shipments, w.shipments, w'.shipments, x, sagaX, o, sagaId);
    hide RefusedOnce, SparesOthers;
    forall y | y != x ensures Shipped(w', y) <==> Shipped(w, y) {
      assert y in w'.shipments.provider.accounts.Keys - {x} <==> y in w.shipments.provider.accounts.Keys - {x};
    }
    forall p: Uuid ensures Gone(w', p) == Gone(w, p) {
      SameGone(w, w', x, p);
    }
  }

  lemma IdsDiffer(initial: map<Uuid, nat>, w: World, o: Uuid, x: Uuid)
    requires WorldOk(initial, w) && o in w.orders && x in w.orders && o != x
    ensures w.orders[x].row.id != w.orders[o].row.id
  {
    hide NetworkOk, AllEarned, CausesOk, ProtocolOk, SliceOk;
  }

  lemma FailedIsUnshipped(initial: map<Uuid, nat>, w: World, o: Uuid)
    requires WorldOk(initial, w) && HasStatus(w, o, FailedOrder)
    ensures !Shipped(w, o)
  {
    hide WorldOk, PaymentFailed, PaymentUndone, StockFree;
    FailureIsClean(initial, w, o);
  }

  /** One after another, the other orders that are not shipped are brought to FAILED. */
  lemma {:induction false} Clears(cfg: Config, products: map<Uuid, Inventory.Product>, h: History, o: Uuid)
      returns (longer: History)
    requires IsHistory(cfg, products, h) && Untouched(Now(h), o)
    ensures IsHistory(cfg, products, longer) && Continues(h, longer) && longer.worlds != [] && h.worlds != []
    ensures Untouched(Now(longer), o) && Now(longer).orders[o] == Now(h).orders[o] && Pending(Now(longer), o) == {}
    ensures forall p: Uuid :: Gone(Now(longer), p) == Gone(Now(h), p)
    decreases |Pending(Now(h), o)|
  {
    hide IsHistory, WorldOk, Continues, RefusedOnce, Elsewhere, Promising, Declining, NoReturn, Gone;
    ContinuesItself(cfg, products, h);
    longer := h;
    if x :| x in Pending(Now(h), o) {
      var initial := II.Initially(products);
      NowIsOk(cfg, products, h);
      IdsDiffer(initial, Now(h), o, x);
      NothingShipped(initial, Now(h), x);
      var next := Drives(cfg, products, h, x, RejectMode);
      SameOrder(cfg, products, h, next, x);
      NowIsOk(cfg, products, next);
      FailedIsUnshipped(initial, Now(next), x);
      OthersAreUnmoved(Now(h), Now(next), x, o);
      longer := Clears(cfg, products, next, o);
      ContinuationsChain(h, next, longer);
    }
  }

  // ---------- When completion is open ----------

  lemma FailedHoldsNothing(initial: map<Uuid, nat>, w: World, o: Uuid, p: Uuid)
    requires WorldOk(initial, w) && HasStatus(w, o, FailedOrder)
    ensures II.Share(Get(w.inventory.stock.reservations, o), p) == 0
  {
    hide WorldOk, PaymentFailed, PaymentUndone, ShipmentAbsent;
    FailureIsClean(initial, w, o);
  }

  /** Then only the shipped orders hold anything. */
  lemma ClearedShelf(initial: map<Uuid, nat>, w: World, o: Uuid, p: Uuid)
    requires WorldOk(initial, w) && Untouched(w, o) && Pending(w, o) == {}
    ensures II.Held(w.inventory.stock.reservations, p) == Total(Gone(w, p))
  {
    hide WorldOk, Quantity, Total, II.Held, II.Share, RefusedOnce, Shipped;
    forall x | x in Gone(w, p)
      ensures Gone(w, p)[x] == II.Share(Get(w.inventory.stock.reservations, x), p)
    {
      ShippedHolds(initial, w, x);
      HoldsItsShare(initial, w, x, p);
    }
    forall x | x in w.inventory.stock.reservations && x !in Gone(w, p)
      ensures II.Share(Some(w.inventory.stock.reservations[x]), p) == 0
    {
      StrangersHoldNothing(initial, w, x);
      assert x !in Pending(w, o);
      FailedHoldsNothing(initial, w, x, p);
    }
    HeldIsTotal(w.inventory.stock.reservations, Gone(w, p), p);
  }

  lemma ClearedIsStocked(products: map<Uuid, Inventory.Product>, w: World, o: Uuid)
    requires WorldOk(II.Initially(products), w) && Untouched(w, o) && Pending(w, o) == {}
    requires Catalogued(products, w.inventory.stock) && Attainable(products, w, o)
    requires forall p | p in products :: products[p].available >= 0
    ensures Stocked(w, o)
  {
    hide WorldOk, Total, II.Held, RefusedOnce, Gone, HoldsOnSale;
    var items := w.orders[o].row.payload.items;
    forall i | 0 <= i < |items|
      ensures
        var p := items[i].productId;
        && p in w.inventory.stock.products && w.inventory.stock.products[p].active
        && items[i].quantity <= w.inventory.stock.products[p].available
    {
      assert items[i] in items;
      ShelfBalance(II.Initially(products), w, items[i].productId);
      ClearedShelf(II.Initially(products), w, o, items[i].productId);
    }
  }

  lemma NowIsCatalogued(cfg: Config, products: map<Uuid, Inventory.Product>, h: History)
    requires IsHistory(cfg, products, h)
    ensures h.worlds != [] && Catalogued(products, Now(h).inventory.stock)
    ensures forall p | p in products :: products[p].available >= 0
  {
    ContinuesItself(cfg, products, h);
    hide Catalogued;
    HistoriesStayCatalogued(cfg, products, h, |h.worlds| - 1);
  }

  /** Nobody refused the order, and its basket is held or attainable. */
  ghost predicate Completable(products: map<Uuid, Inventory.Product>, w: World, o: Uuid)
    requires o in w.orders
  {
    !RefusedOnce(w, o) && (o in w.inventory.stock.reservations || Attainable(products, w, o))
  }

  lemma CompletedWasCompletable(cfg: Config, products: map<Uuid, Inventory.Product>, h: History, longer: History,
                                o: Uuid)
    requires IsHistory(cfg, products, h) && IsHistory(cfg, products, longer) && Continues(h, longer)
    requires h.worlds != [] && longer.worlds != [] && o in Now(h).orders
    requires HasStatus(Now(longer), o, CompletedOrder)
    ensures Completable(products, Now(h), o)
  {
    hide IsHistory, WorldOk, Continues, RefusedOnce, Attainable, Remembers, OrdersMoveOn, Catalogued;
    var initial := II.Initially(products);
    LaterWorld(cfg, products, h, longer, o);
    LaterOrders(cfg, products, h, longer);
    if RefusedOnce(Now(h), o) { RefusalStays(initial, Now(h), Now(longer), o); }
    CompletedUnrefused(initial, Now(longer), o);
    NowIsCatalogued(cfg, products, longer);
    if o !in Now(h).inventory.stock.reservations {
      CompletedWasAttainable(products, Now(h), Now(longer), o);
    }
  }

  lemma LaterOrders(cfg: Config, products: map<Uuid, Inventory.Product>, h: History, longer: History)
    requires IsHistory(cfg, products, h) && IsHistory(cfg, products, longer) && Continues(h, longer)
    requires h.worlds != [] && longer.worlds != []
    ensures OrdersMoveOn(Now(h), Now(longer))
  {
    hide IsHistory, OrdersMoveOn;
    assert Now(h) == longer.worlds[|h.worlds| - 1];
    HistoriesMoveOn(cfg, products, longer, |h.worlds| - 1, |longer.worlds| - 1);
  }

  lemma Completes(cfg: Config, products: map<Uuid, Inventory.Product>, h: History, o: Uuid) returns (longer: History)
    requires IsHistory(cfg, products, h) && o in Now(h).orders && Completable(products, Now(h), o)
    ensures IsHistory(cfg, products, longer) && Continues(h, longer) && longer.worlds != []
    ensures HasStatus(Now(longer), o, CompletedOrder)
  {
    hide IsHistory, WorldOk, Continues, RefusedOnce, Gone, Catalogued, Promising, Declining, Elsewhere, Pending;
    hide HasStatus, Total;
    ContinuesItself(cfg, products, h);
    var ready := h;
    if o !in Now(h).inventory.stock.reservations {
      ready := Clears(cfg, products, h, o);
      NowIsOk(cfg, products, ready);
      NowIsCatalogued(cfg, products, ready);
      ClearedIsStocked(products, Now(ready), o);
    }
    NowIsOk(cfg, products, ready);
    NothingRefused(II.Initially(products), Now(ready), o);
    longer := Drives(cfg, products, ready, o, SuccessMode);
    ContinuationsChain(h, ready, longer);
  }

  // ---------- The open ends ----------

  /** Some continuation of the history leaves the order with this status. */
  ghost predicate MayEnd(cfg: Config, products: map<Uuid, Inventory.Product>, h: History, o: Uuid, status: Status) {
    exists longer :: IsHistory(cfg, products, longer) && Continues(h, longer) && longer.worlds != []
      && HasStatus(Now(longer), o, status)
  }

  /** No order is ever stuck: from every world that a history reaches, whatever the participants
      were doing and have decided, an order can be brought to COMPLETED or to FAILED. */
  lemma EveryOrderMayEnd(cfg: Config, products: map<Uuid, Inventory.Product>, h: History, o: Uuid)
    requires IsHistory(cfg, products, h) && o in Now(h).orders
    ensures MayEnd(cfg, products, h, o, CompletedOrder) || MayEnd(cfg, products, h, o, FailedOrder)
  {
    hide IsHistory, Continues, HasStatus, Promising, Declining;
    var longer := Drives(cfg, products, h, o, SuccessMode);
  }

  /** FAILED is open exactly while the shipping provider holds no shipment of the order. */
  lemma FailureIsOpen(cfg: Config, products: map<Uuid, Inventory.Product>, h: History, o: Uuid)
    requires IsHistory(cfg, products, h) && o in Now(h).orders
    ensures MayEnd(cfg, products, h, o, FailedOrder) <==> o !in Now(h).shipments.provider.accounts
  {
    hide IsHistory, WorldOk, Continues, Promising, Declining, Remembers, PaymentFailed, PaymentUndone, StockFree;
    ContinuesItself(cfg, products, h);
    if o in Now(h).shipments.provider.accounts {
      forall longer | IsHistory(cfg, products, longer) && Continues(h, longer) && longer.worlds != []
        ensures !HasStatus(Now(longer), o, FailedOrder)
      {
        LaterWorld(cfg, products, h, longer, o);
        ShipmentStays(Now(h), Now(longer), o);
        if HasStatus(Now(longer), o, FailedOrder) { FailureIsClean(II.Initially(products), Now(longer), o); }
      }
    } else {
      NowIsOk(cfg, products, h);
      NothingShipped(II.Initially(products), Now(h), o);
      var longer := Drives(cfg, products, h, o, RejectMode);
    }
  }

  /** COMPLETED is open exactly while no participant has refused the order and its basket is held
      for it, or would be on the shelf if every order that is not shipped gave its stock back. */
  lemma CompletionIsOpen(cfg: Config, products: map<Uuid, Inventory.Product>, h: History, o: Uuid)
    requires IsHistory(cfg, products, h) && o in Now(h).orders
    ensures MayEnd(cfg, products, h, o, CompletedOrder) <==> Completable(products, Now(h), o)
  {
    hide IsHistory, Continues, Completable, HasStatus;
    ContinuesItself(cfg, products, h);
    if Completable(products, Now(h), o) {
      var longer := Completes(cfg, products, h, o);
    }
    forall longer | IsHistory(cfg, products, longer) && Continues(h, longer) && longer.worlds != []
      && HasStatus(Now(longer), o, CompletedOrder)
      ensures Completable(products, Now(h), o)
    {
      CompletedWasCompletable(cfg, products, h, longer, o);
    }
  }

  /** In terms of completed receipts alone: a refusal among them shuts COMPLETED, and a created
      shipment shuts FAILED. */
  lemma ReceiptsShutEnds(cfg: Config, products: map<Uuid, Inventory.Product>, h: History, o: Uuid)
    requires IsHistory(cfg, products, h) && o in Now(h).orders
    ensures forall op | op in RejectedFor(Now(h), Now(h).orders[o].row.id) && IsForward(op)
      && op != FinalizeInventory :: !MayEnd(cfg, products, h, o, CompletedOrder)
    ensures CreateShipment in DoneFor(Now(h), Now(h).orders[o].row.id) ==> !MayEnd(cfg, products, h, o, FailedOrder)
  {
    hide IsHistory, WorldOk, Continues, HasStatus, RefusedOnce, Attainable, RejectedFor, DoneFor, MayEnd;
    NowIsOk(cfg, products, h);
    AnswersTell(II.Initially(products), Now(h), o);
    FailureIsOpen(cfg, products, h, o);
    CompletionIsOpen(cfg, products, h, o);
  }
}
