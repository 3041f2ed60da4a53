/** The promises of the saga over every run of the whole system. */
module SystemRuns {
  import opened Contracts
  import opened StateMachine
  import opened Broker
  import opened BrokerInvariant
  import opened BrokerLinks
  import opened BrokerTheorems
  import opened Basket
  import opened Mailbox
  import Acceptance
  import opened Provider
  import opened System
  import opened SystemContents
  import opened SystemInvariant
  import opened SystemOrders
  import opened SystemTheorems
  import Service
  import SP = ServiceProtocol
  import Inventory
  import II = InventoryInvariant
  import IP = InventoryProtocol

  datatype History = History(worlds: seq<World>, events: seq<Event>, times: seq<nat>)

  /** A run from empty databases and some stock, under any schedule. */
  predicate IsHistory(cfg: Config, products: map<Uuid, Inventory.Product>, h: History) {
    && (forall p | p in products :: products[p].available >= 0)
    && |h.worlds| == |h.events| + 1 == |h.times| + 1
    && h.worlds[0] == Begin(products)
    && (forall i :: 0 <= i < |h.events| ==>
          Possible(h.worlds[i], h.events[i]) && h.worlds[i + 1] == Step(cfg, h.worlds[i], h.events[i], h.times[i]))
  }

  lemma BeginIsOk(products: map<Uuid, Inventory.Product>)
    requires forall p | p in products :: products[p].available >= 0
    ensures WorldOk(II.Initially(products), Begin(products))
  {
    hide II.Conserved, SP.InProtocol, IP.InProtocol;
    SP.EmptyInProtocol(Payments);
    SP.EmptyInProtocol(Shipments);
    IP.StartsInProtocol(products);
    assert forall participant: Participant :: Sent(map[], participant) == {};
  }

  lemma {:induction false} HistoriesStayOk(cfg: Config, products: map<Uuid, Inventory.Product>, h: History, i: nat)
    requires IsHistory(cfg, products, h) && i < |h.worlds|
    ensures WorldOk(II.Initially(products), h.worlds[i])
  {
    hide WorldOk, Possible, Step, Begin;
    if i == 0 {
      BeginIsOk(products);
    } else {
      HistoriesStayOk(cfg, products, h, i - 1);
      StepKeepsWorldOk(cfg, II.Initially(products), h.worlds[i - 1], h.events[i - 1], h.times[i - 1]);
    }
  }

  // ---------- Orders only move on ----------

  predicate MovesOn(d: Slice, d': Slice) {
    && d'.row.id == d.row.id && d'.row.payload == d.row.payload
    && NoReturn(d.row.progress, d'.row.progress)
  }

  predicate OrdersMoveOn(w: World, w': World) {
    forall o | o in w.orders :: o in w'.orders && MovesOn(w.orders[o], w'.orders[o])
  }

  lemma OrdersStand(initial: map<Uuid, nat>, w: World)
    requires WorldOk(initial, w)
    ensures OrdersMoveOn(w, w)
  {
    hide NetworkOk, AllEarned, CausesOk, ProtocolOk;
    forall o | o in w.orders ensures MovesOn(w.orders[o], w.orders[o]) {
      CoherentOrder(w.orders, o);
    }
  }

  lemma SliceMovesOn(cfg: Config, initial: map<Uuid, nat>, w: World, o: Uuid, a: Action, now: nat)
    requires WorldOk(initial, w) && o in w.orders && ActionPossible(w, o, a)
    ensures MovesOn(w.orders[o], Perform(cfg, w.orders[o], a, now))
  {
    ActionEnabled(initial, w, o, a);
    CoherentOrder(w.orders, o);
    hide WorldOk, Enabled, Ok, Perform, NoReturn, OutboxGrows;
    PerformNeverGoesBack(cfg, w.orders[o], a, now);
    PerformFrame(cfg, w.orders[o], a, now);
  }

  lemma StepMovesOn(cfg: Config, initial: map<Uuid, nat>, w: World, e: Event, now: nat)
    requires Possible(w, e) && WorldOk(initial, w)
    ensures OrdersMoveOn(w, Step(cfg, w, e, now))
  {
    hide WorldOk, MovesOn, Perform, Accept, Service.Step, Inventory.Step, Published, Fresh;
    hide Acceptance.Schema, Acceptance.Payable, Acceptance.PayloadOf, ActionPossible;
    OrdersStand(initial, w);
    if e.Orchestrate? {
      SliceMovesOn(cfg, initial, w, e.orderId, e.action, now);
    }
  }

  lemma MovingOnChains(w: World, w': World, w'': World)
    requires OrdersMoveOn(w, w') && OrdersMoveOn(w', w'')
    ensures OrdersMoveOn(w, w'')
  {
    hide NoReturn;
    forall o | o in w.orders ensures o in w''.orders && MovesOn(w.orders[o], w''.orders[o]) {
      NoReturnChains(w.orders[o].row.progress, w'.orders[o].row.progress, w''.orders[o].row.progress);
    }
  }

  lemma {:induction false} HistoriesMoveOn(cfg: Config, products: map<Uuid, Inventory.Product>, h: History, i: nat,
                                           j: nat)
    requires IsHistory(cfg, products, h) && i <= j < |h.worlds|
    ensures OrdersMoveOn(h.worlds[i], h.worlds[j])
    decreases j
  {
    hide WorldOk, Possible, Step, Begin, OrdersMoveOn;
    if i == j {
      HistoriesStayOk(cfg, products, h, i);
      OrdersStand(II.Initially(products), h.worlds[i]);
    } else {
      HistoriesMoveOn(cfg, products, h, i, j - 1);
      HistoriesStayOk(cfg, products, h, j - 1);
      StepMovesOn(cfg, II.Initially(products), h.worlds[j - 1], h.events[j - 1], h.times[j - 1]);
      MovingOnChains(h.worlds[i], h.worlds[j - 1], h.worlds[j]);
    }
  }

  // ---------- The main theorems ----------

  predicate HasStatus(w: World, o: Uuid, status: Status) {
    o in w.orders && w.orders[o].row.progress.status == status
  }

  lemma FinalStatusStays(w: World, w': World, o: Uuid, status: Status)
    requires OrdersMoveOn(w, w') && HasStatus(w, o, status) && status in {CompletedOrder, FailedOrder}
    ensures HasStatus(w', o, status) && w'.orders[o].row.payload == w.orders[o].row.payload
  {
  }

  /** Clean failure: once a saga is FAILED, then and at every later moment, whatever old messages
      are still delivered, its order holds no stock, nothing was shipped, and its charge was
      refused or undone. */
  lemma CleanFailure(cfg: Config, products: map<Uuid, Inventory.Product>, h: History, i: nat, j: nat, o: Uuid)
    requires IsHistory(cfg, products, h) && i <= j < |h.worlds| && HasStatus(h.worlds[i], o, FailedOrder)
    ensures CleanlyFailed(h.worlds[j], o, h.worlds[i].orders[o].row.payload.paymentMethod)
  {
    hide WorldOk, CleanlyFailed, OrdersMoveOn;
    HistoriesMoveOn(cfg, products, h, i, j);
    FinalStatusStays(h.worlds[i], h.worlds[j], o, FailedOrder);
    HistoriesStayOk(cfg, products, h, j);
    FailureIsClean(II.Initially(products), h.worlds[j], o);
  }

  /** Clean success: once a saga is COMPLETED, then and at every later moment, its stock is
      finalized, its shipment and its payment stand, and no release, refund or cancellation was
      ever enqueued for it; and what stands is what was ordered: the customer's amount was charged
      by the chosen method, the goods ordered were taken, and sent to the address given. */
  lemma CleanSuccess(cfg: Config, products: map<Uuid, Inventory.Product>, h: History, i: nat, j: nat, o: Uuid)
    requires IsHistory(cfg, products, h) && i <= j < |h.worlds| && HasStatus(h.worlds[i], o, CompletedOrder)
    ensures HasStatus(h.worlds[j], o, CompletedOrder)
    ensures CleanlyCompleted(h.worlds[j], o, h.worlds[i].orders[o].row.payload.paymentMethod)
    ensures NothingUndone(h.worlds[j].orders[o])
    ensures HoldsTheOrder(h.worlds[j], o)
    ensures h.worlds[j].orders[o].row.payload == h.worlds[i].orders[o].row.payload
  {
    hide WorldOk, CleanlyCompleted, NothingUndone, OrdersMoveOn, HoldsTheOrder;
    HistoriesMoveOn(cfg, products, h, i, j);
    FinalStatusStays(h.worlds[i], h.worlds[j], o, CompletedOrder);
    HistoriesStayOk(cfg, products, h, j);
    SuccessIsClean(II.Initially(products), h.worlds[j], o);
    CompletedHolds(II.Initially(products), h.worlds[j], o);
  }

  lemma CompletedHolds(initial: map<Uuid, nat>, w: World, o: Uuid)
    requires WorldOk(initial, w) && HasStatus(w, o, CompletedOrder)
    ensures HoldsTheOrder(w, o)
  {
    hide WorldOk, NothingUndone, ChargesTheOrder, ShipsTheOrder, ReservesTheOrder;
    SuccessIsClean(initial, w, o);
    PaymentContents(initial, w, o);
    ShipmentContents(initial, w, o);
    ReservationContents(initial, w, o);
  }

  /** What two COMPLETED orders hold is told apart by its ids: their payments, their shipments and
      their reservations all have ids of their own, and each row's id is its own account's. */
  lemma CompletedOrdersDiffer(cfg: Config, products: map<Uuid, Inventory.Product>, h: History, i: nat, o: Uuid, p: Uuid)
    requires IsHistory(cfg, products, h) && i < |h.worlds| && o != p
    requires HasStatus(h.worlds[i], o, CompletedOrder) && HasStatus(h.worlds[i], p, CompletedOrder)
    ensures
      var w := h.worlds[i];
      && HasReference(w.payments, o) && HasReference(w.payments, p)
      && w.payments.effects[o].reference != w.payments.effects[p].reference
      && HasReference(w.shipments, o) && HasReference(w.shipments, p)
      && w.shipments.effects[o].reference != w.shipments.effects[p].reference
      && exists a, b :: HasReservationId(w.inventory, o, a) && HasReservationId(w.inventory, p, b) && a != b
  {
    hide WorldOk, IsHistory, NothingUndone, SP.InProtocol, IP.InProtocol, Sent, HasReference, HasReservationId;
    var initial, w := II.Initially(products), h.worlds[i];
    HistoriesStayOk(cfg, products, h, i);
    SuccessIsClean(initial, w, o);
    SuccessIsClean(initial, w, p);
    Protocols(initial, w);
    ReferencesDiffer(Payments, w.payments, Sent(w.network, PaymentParticipant), o, p);
    ReferencesDiffer(Shipments, w.shipments, Sent(w.network, ShippingParticipant), o, p);
    ReservationIdsDiffer(initial, w.inventory, Sent(w.network, InventoryParticipant), o, p);
  }

  /** What the orchestrator asks for, over every run: a command on the network is its order's own,
      under its order's key, and asks for exactly what was ordered. */
  lemma CommandsCarryTheOrder(cfg: Config, products: map<Uuid, Inventory.Product>, h: History, i: nat, m: Uuid)
    requires IsHistory(cfg, products, h) && i < |h.worlds| && m in h.worlds[i].network
    ensures OrdersCommand(h.worlds[i], h.worlds[i].network[m])
  {
    hide WorldOk, IsHistory, OrdersCommand;
    HistoriesStayOk(cfg, products, h, i);
    CommandCarries(II.Initially(products), h.worlds[i], m);
  }

  /** What is kept for an order, over every run: every payment row and account, every shipment row
      and account and every reservation is of an order, and carries exactly what was ordered. */
  lemma HoldingsCarryTheOrder(cfg: Config, products: map<Uuid, Inventory.Product>, h: History, i: nat, o: Uuid)
    requires IsHistory(cfg, products, h) && i < |h.worlds|
    ensures
      var w := h.worlds[i];
      && (o in w.payments.effects || o in w.payments.provider.accounts ==> ChargesTheOrder(w, o))
      && (o in w.shipments.effects || o in w.shipments.provider.accounts ==> ShipsTheOrder(w, o))
      && (o in w.inventory.stock.reservations ==> ReservesTheOrder(w, o))
  {
    hide WorldOk, IsHistory, ChargesTheOrder, ShipsTheOrder, ReservesTheOrder;
    var initial, w := II.Initially(products), h.worlds[i];
    HistoriesStayOk(cfg, products, h, i);
    if o in w.payments.effects || o in w.payments.provider.accounts { PaymentContents(initial, w, o); }
    if o in w.shipments.effects || o in w.shipments.provider.accounts { ShipmentContents(initial, w, o); }
    if o in w.inventory.stock.reservations { ReservationContents(initial, w, o); }
  }

  /** Reaching the finalization rules out compensation and failure for good. */
  lemma FinalizationIsNeverUndone(cfg: Config, products: map<Uuid, Inventory.Product>, h: History, i: nat, j: nat,
                                  o: Uuid)
    requires IsHistory(cfg, products, h) && i <= j < |h.worlds|
    requires o in h.worlds[i].orders && h.worlds[i].orders[o].row.progress.operation == FinalizeInventory
    ensures HasStatus(h.worlds[j], o, InProgress) || HasStatus(h.worlds[j], o, CompletedOrder)
  {
    hide IsHistory;
    HistoriesMoveOn(cfg, products, h, i, j);
  }

  /** Protocol compatibility: whatever is lost, repeated, reordered or interrupted, no participant
      ever answers with IDEMPOTENCY_CONFLICT, ALREADY_COMPENSATED or INVALID_STATE; the only
      refusals are the three that the saga handles. */
  lemma NoConflicts(cfg: Config, products: map<Uuid, Inventory.Product>, h: History, i: nat, env: ResultEnvelope)
    requires IsHistory(cfg, products, h) && i < |h.worlds|
    requires env in MailOf(h.worlds[i], Owner(env.result.operation)).outbox
    ensures env.result.outcome.Failed? ==>
      env.result.outcome.code !in {IdempotencyConflict, AlreadyCompensated, InvalidState}
      && IsRejection(env.result.operation, env.result.outcome.code)
  {
    hide WorldOk, IsHistory;
    HistoriesStayOk(cfg, products, h, i);
    DeliveredIsTruthful(II.Initially(products), h.worlds[i], env);
  }

  /** A cash-on-delivery order, which paid nothing yet, is never refunded, here or at the provider,
      whatever happens: its refund never finds the charge pending. */
  lemma CashIsNeverRefunded(cfg: Config, products: map<Uuid, Inventory.Product>, h: History, i: nat, o: Uuid)
    requires IsHistory(cfg, products, h) && i < |h.worlds| && o in h.worlds[i].orders
    requires h.worlds[i].orders[o].row.payload.paymentMethod == COD && o in h.worlds[i].payments.effects
    ensures
      var s := h.worlds[i].payments;
      && s.effects[o].status in {Service.PendingEffect, Service.OnDelivery, Service.FailedEffect}
      && (o in s.undos ==> s.undos[o].status != Service.UndoneUndo)
      && (o in s.provider.accounts ==> s.provider.accounts[o].status == LiveAccount)
  {
    hide WorldOk, IsHistory, SP.InProtocol;
    var w := h.worlds[i];
    HistoriesStayOk(cfg, products, h, i);
    PaymentContents(II.Initially(products), w, o);
    Protocols(II.Initially(products), w);
    SP.CashIsNotRefunded(Payments, w.payments, Sent(w.network, PaymentParticipant), o);
  }

  // ---------- Stock, when every order is finished ----------

  /** What an order keeps for good. */
  function Sold(d: Slice, p: Uuid): nat {
    if d.row.progress.status == CompletedOrder then Quantity(d.row.payload.items, p) else 0
  }

  ghost function Total(weights: map<Uuid, nat>): nat
    decreases |weights|
  {
    if weights == map[] then 0
    else
      var o :| o in weights;
      assert (weights - {o}).Keys == weights.Keys - {o};
      weights[o] + Total(weights - {o})
  }

  /** What the orders keep of a product, in total. */
  ghost function TotalSold(orders: map<Uuid, Slice>, p: Uuid): nat {
    Total(Sales(orders, p))
  }

  function Sales(orders: map<Uuid, Slice>, p: Uuid): map<Uuid, nat> {
    map o | o in orders :: Sold(orders[o], p)
  }

  lemma {:induction false} TotalSplits(weights: map<Uuid, nat>, o: Uuid)
    requires o in weights
    ensures Total(weights) == weights[o] + Total(weights - {o})
    decreases |weights|
  {
    var q :| q in weights && Total(weights) == weights[q] + Total(weights - {q});
    if q != o {
      assert (weights - {q}).Keys == weights.Keys - {q} && (weights - {o}).Keys == weights.Keys - {o};
      TotalSplits(weights - {q}, o);
      TotalSplits(weights - {o}, q);
      assert weights - {q} - {o} == weights - {o} - {q};
    }
  }

  /** Reservations hold at least what each of these orders holds. */
  lemma {:induction false} HeldCovers(reservations: map<Uuid, Inventory.Reservation>, weights: map<Uuid, nat>, p: Uuid)
    requires forall o | o in weights :: weights[o] <= II.Share(Get(reservations, o), p)
    ensures Total(weights) <= II.Held(reservations, p)
    decreases |weights|
  {
    if weights != map[] {
      var o :| o in weights && Total(weights) == weights[o] + Total(weights - {o});
      assert (weights - {o}).Keys == weights.Keys - {o};
      if o in reservations {
        II.HeldSplits(reservations, o, p);
        HeldCovers(reservations - {o}, weights - {o}, p);
      } else {
        HeldCovers(reservations, weights - {o}, p);
      }
    }
  }

  /** If they are all that hold anything, it is what they hold together. */
  lemma {:induction false} HeldIsTotal(reservations: map<Uuid, Inventory.Reservation>, weights: map<Uuid, nat>, p: Uuid)
    requires forall o | o in weights :: weights[o] == II.Share(Get(reservations, o), p)
    requires forall o | o in reservations && o !in weights :: II.Share(Some(reservations[o]), p) == 0
    ensures II.Held(reservations, p) == Total(weights)
    decreases |reservations|
  {
    HeldCovers(reservations, weights, p);
    if reservations != map[] {
      var o :| o in reservations && II.Held(reservations, p)
        == II.Share(Some(reservations[o]), p) + II.Held(reservations - {o}, p);
      assert (reservations - {o}).Keys == reservations.Keys - {o};
      HeldIsTotal(reservations - {o}, weights - {o}, p);
      if o in weights { TotalSplits(weights, o); } else { assert weights - {o} == weights; }
    }
  }

  lemma FinishedShare(initial: map<Uuid, nat>, w: World, o: Uuid, p: Uuid)
    requires WorldOk(initial, w) && o in w.orders && Terminal(w.orders[o].row.progress.status)
    ensures II.Share(Get(w.inventory.stock.reservations, o), p) == Sold(w.orders[o], p)
  {
    hide WorldOk, ShipmentAbsent, PaymentFailed, PaymentUndone, ShipmentStands, PaymentStands, NothingUndone, Quantity;
    if w.orders[o].row.progress.status == FailedOrder {
      FailureIsClean(initial, w, o);
    } else {
      SuccessIsClean(initial, w, o);
      HeldItems(initial, w, o);
    }
  }

  /** The order holds stock, for now or for good. */
  predicate Holds(w: World, o: Uuid) {
    && o in w.inventory.stock.reservations
    && w.inventory.stock.reservations[o].status in {Inventory.Reserved, Inventory.Finalized}
  }

  /** A reservation holds the items of its order. */
  lemma HeldItems(initial: map<Uuid, nat>, w: World, o: Uuid)
    requires WorldOk(initial, w) && o in w.orders && Holds(w, o)
    ensures w.inventory.stock.reservations[o].items == w.orders[o].row.payload.items
  {
    hide WorldOk;
    ReservationContents(initial, w, o);
  }

  lemma StrangersHoldNothing(initial: map<Uuid, nat>, w: World, o: Uuid)
    requires WorldOk(initial, w) && o in w.inventory.stock.reservations
    ensures o in w.orders
  {
    Protocols(initial, w);
    OrdersAndNetwork(initial, w);
    hide WorldOk, OrdersOk, NetworkOk, SP.InProtocol, IP.InProtocol, Sent, MayExist;
    forall c | c in Sent(w.network, InventoryParticipant) ensures c.orderId in w.orders {
      SentHome(w.orders, w.network, InventoryParticipant, c);
    }
    if o !in w.orders {
      IP.UnsentMeansAbsent(initial, w.inventory, Sent(w.network, InventoryParticipant), o);
    }
  }

  /** When every order is finished, the shelf is exactly the initial stock less what the completed
      orders bought: nothing is lost to failed orders and nothing is sold twice. */
  lemma FinishedBooks(cfg: Config, products: map<Uuid, Inventory.Product>, h: History, i: nat, p: Uuid)
    requires IsHistory(cfg, products, h) && i < |h.worlds| && p in products
    requires forall o | o in h.worlds[i].orders :: Terminal(h.worlds[i].orders[o].row.progress.status)
    ensures p in h.worlds[i].inventory.stock.products
    ensures h.worlds[i].inventory.stock.products[p].available + TotalSold(h.worlds[i].orders, p)
      == products[p].available
  {
    hide WorldOk, Possible, Step, Begin, II.Held, Total, II.Share, Sold, SP.InProtocol;
    var initial, w := II.Initially(products), h.worlds[i];
    HistoriesStayOk(cfg, products, h, i);
    forall o | o in w.orders ensures II.Share(Get(w.inventory.stock.reservations, o), p) == Sold(w.orders[o], p) {
      FinishedShare(initial, w, o, p);
    }
    forall o | o in w.inventory.stock.reservations ensures o in w.orders {
      StrangersHoldNothing(initial, w, o);
    }
    HeldIsTotal(w.inventory.stock.reservations, Sales(w.orders, p), p);
    Protocols(initial, w);
    BooksBalance(initial, w.inventory, Sent(w.network, InventoryParticipant), p);
  }

  lemma BooksBalance(initial: map<Uuid, nat>, s: Inventory.State, sent: set<Command>, p: Uuid)
    requires IP.InProtocol(initial, s, sent) && p in initial
    ensures p in s.stock.products && s.stock.products[p].available >= 0
    ensures s.stock.products[p].available + II.Held(s.stock.reservations, p) == initial[p]
  {
    hide II.BooksOk, IP.Rely, IP.SentOnly, IP.AllBenign, IP.MailOk;
  }
}
