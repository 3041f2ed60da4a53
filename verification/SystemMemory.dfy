/** What the participants have decided stays decided, over every history. */
module SystemMemory {
  import opened Contracts
  import opened StateMachine
  import opened Broker
  import opened Provider
  import opened ServiceSettles
  import opened System
  import opened SystemDrive
  import opened SystemEnds
  import opened SystemInvariant
  import opened SystemPaths
  import opened SystemRuns
  import opened SystemSteps
  import opened SystemTheorems
  import Service
  import SI = ServiceInvariant
  import SP = ServiceProtocol
  import Inventory
  import II = InventoryInvariant
  import IP = InventoryProtocol

  ghost predicate Remembers(w: World, w': World) {
    && SI.AllEvolve(Payments, w.payments, w'.payments) && SI.AllEvolve(Shipments, w.shipments, w'.shipments)
    && II.StockEvolves(w.inventory.stock, w'.inventory.stock)
  }

  lemma RemembersItself(w: World, w': World)
    requires w'.payments == w.payments && w'.shipments == w.shipments && w'.inventory == w.inventory
    ensures Remembers(w, w')
  {
    hide SI.AllEvolve, II.StockEvolves;
    SI.SameViewsEvolve(Payments, w.payments, w'.payments);
    SI.SameViewsEvolve(Shipments, w.shipments, w'.shipments);
    IP.NothingEvolves(w.inventory.stock);
  }

  lemma ServiceRemembers(kind: Kind, s: Service.State, sent: set<Command>, e: Service.Event)
    requires SP.InProtocol(kind, s, sent) && Service.Possible(kind, s, e)
    ensures SI.AllEvolve(kind, s, Service.Step(kind, s, e))
  {
    hide SP.Rely, SP.SentOnly, SP.AllBenign, SI.Consistent, SI.AllEvolve, Service.Step, Service.Possible;
    SI.StepKeepsConsistent(kind, s, e);
  }

  lemma StepRemembers(cfg: Config, initial: map<Uuid, nat>, w: World, e: Event, now: nat)
    requires Possible(w, e) && WorldOk(initial, w)
    ensures Remembers(w, Step(cfg, w, e, now))
  {
    hide WorldOk, SP.InProtocol, IP.InProtocol, Service.Step, Service.Possible, Inventory.Step, Inventory.Possible;
    hide SI.AllEvolve, II.StockEvolves, Sent, Perform, Published, Carried, Fresh, ActionPossible;
    RemembersItself(w, w);
    Protocols(initial, w);
    match e {
      case PaymentEvent(s) => ServiceRemembers(Payments, w.payments, Sent(w.network, PaymentParticipant), s);
      case ShipmentEvent(s) => ServiceRemembers(Shipments, w.shipments, Sent(w.network, ShippingParticipant), s);
      case InventoryEvent(s) =>
        MailsAreFrom(initial, w);
        InventoryStepKeeps(initial, w.network, w.inventory, s);
      case _ => RemembersItself(w, Step(cfg, w, e, now));
    }
  }

  lemma MailsAreFrom(initial: map<Uuid, nat>, w: World)
    requires WorldOk(initial, w)
    ensures MailFrom(w.network, w.inventory.mail) && AnswersFrom(w.network, w.inventory.answers)
  {
    hide OrdersOk, NetworkOk, AllEarned, ProtocolOk, MailFrom, AnswersFrom;
  }

  lemma MemoryChains(w: World, w': World, w'': World)
    requires Remembers(w, w') && Remembers(w', w'')
    ensures Remembers(w, w'')
  {
    hide SI.AllEvolve, II.StockEvolves;
    SI.EvolvingChains(Payments, w.payments, w'.payments, w''.payments);
    SI.EvolvingChains(Shipments, w.shipments, w'.shipments, w''.shipments);
    StockChains(w.inventory.stock, w'.inventory.stock, w''.inventory.stock);
  }

  lemma StockChains(s: Inventory.Stock, s': Inventory.Stock, s'': Inventory.Stock)
    requires II.StockEvolves(s, s') && II.StockEvolves(s', s'')
    ensures II.StockEvolves(s, s'')
  {
    forall o: Uuid ensures II.Evolves(Get(s.reservations, o), Get(s''.reservations, o)) {
      assert II.Evolves(Get(s.reservations, o), Get(s'.reservations, o));
      assert II.Evolves(Get(s'.reservations, o), Get(s''.reservations, o));
    }
  }

  lemma {:induction false} HistoriesRemember(cfg: Config, products: map<Uuid, Inventory.Product>, h: History, i: nat,
                                             j: nat)
    requires IsHistory(cfg, products, h) && i <= j < |h.worlds|
    ensures Remembers(h.worlds[i], h.worlds[j])
    decreases j
  {
    hide WorldOk, Possible, Step, Begin, Remembers;
    RemembersItself(h.worlds[i], h.worlds[i]);
    if i < j {
      HistoriesRemember(cfg, products, h, i, j - 1);
      HistoriesStayOk(cfg, products, h, j - 1);
      StepRemembers(cfg, II.Initially(products), h.worlds[j - 1], h.events[j - 1], h.times[j - 1]);
      MemoryChains(h.worlds[i], h.worlds[j - 1], h.worlds[j]);
    }
  }

  // ---------- Refusals ----------

  lemma RefusedView(kind: Kind, o: Uuid, v: SI.View, v': SI.View)
    requires SI.OrderOk(kind, o, v) && SI.OrderOk(kind, o, v') && SI.Evolves(v, v')
    requires v.effect.Some? && v.forward.Some? && v.account.None?
    ensures v'.effect.Some? && v'.effect.value.sagaId == v.effect.value.sagaId
    ensures v'.forward == v.forward && v'.account.None?
  {
  }

  /** The order's key is known to the provider only by the order's own call. */
  lemma KnownKey(initial: map<Uuid, nat>, w: World, kind: Kind, o: Uuid)
    requires WorldOk(initial, w) && o in w.orders
    requires SagaKey(w.orders[o].row.id, ForwardOp(kind)) in ServiceOf(w, kind).provider.requests
    ensures
      var s := ServiceOf(w, kind);
      o in s.effects && s.effects[o].sagaId == w.orders[o].row.id
  {
    hide WorldOk, OrdersOk, NetworkOk, Sent, SP.InProtocol;
    var s, sent := ServiceOf(w, kind), Sent(w.network, ParticipantOf(kind));
    var key := SagaKey(w.orders[o].row.id, ForwardOp(kind));
    ServiceIsInProtocol(initial, w, kind);
    OrdersAndNetwork(initial, w);
    var c := KeyCaller(kind, s, sent, key);
    OrderOfSaga(w.orders, w.network, o, ForwardOp(kind), c);
  }

  lemma KeyCaller(kind: Kind, s: Service.State, sent: set<Command>, key: Key) returns (c: Command)
    requires SP.InProtocol(kind, s, sent) && key in s.provider.requests
    requires key.SagaKey? && key.operation == ForwardOp(kind)
    ensures c in sent && c.key == key && c.orderId in s.effects && s.effects[c.orderId].sagaId == key.sagaId
  {
    hide SP.Rely, SP.AllBenign, SI.OrderOk, SI.ReceiptOk, SI.AnswersOk, SI.ExecutionAtOk;
    var d := SI.CommandOf(key, s.provider.requests[key].content);
    assert SI.CallOk(kind, d, SI.ViewAt(kind, s, d.orderId));
    c := Service.ForwardCall(kind, d.orderId, s.effects[d.orderId]);
  }

  lemma OrderAt(kind: Kind, s: Service.State, sent: set<Command>, o: Uuid)
    requires SP.InProtocol(kind, s, sent)
    ensures SI.OrderOk(kind, o, SI.ViewAt(kind, s, o))
  {
    hide SP.Rely, SP.SentOnly, SP.AllBenign, SI.OrderOk, SI.ReceiptOk, SI.CallOk, SI.AnswersOk, SI.ExecutionAtOk;
  }

  lemma ServiceRefusalStays(initial: map<Uuid, nat>, w: World, w': World, kind: Kind, o: Uuid)
    requires WorldOk(initial, w) && WorldOk(initial, w') && Remembers(w, w') && o in w.orders
    requires Refuses(kind, ServiceOf(w, kind), o, w.orders[o].row.id)
    ensures Refuses(kind, ServiceOf(w', kind), o, w.orders[o].row.id)
  {
    hide WorldOk, SP.InProtocol, Sent, SI.OrderOk, SI.Evolves, II.StockEvolves;
    var s, s' := ServiceOf(w, kind), ServiceOf(w', kind);
    KnownKey(initial, w, kind, o);
    ServiceIsInProtocol(initial, w, kind);
    ServiceIsInProtocol(initial, w', kind);
    OrderAt(kind, s, Sent(w.network, ParticipantOf(kind)), o);
    OrderAt(kind, s', Sent(w'.network, ParticipantOf(kind)), o);
    assert SI.Evolves(SI.ViewAt(kind, s, o), SI.ViewAt(kind, s', o));
    RefusedView(kind, o, SI.ViewAt(kind, s, o), SI.ViewAt(kind, s', o));
  }

  lemma ReserveRefusalStays(w: World, w': World, o: Uuid)
    requires Remembers(w, w') && ReserveRefused(w, o)
    ensures ReserveRefused(w', o)
  {
    hide SI.AllEvolve;
    assert II.Evolves(Get(w.inventory.stock.reservations, o), Get(w'.inventory.stock.reservations, o));
  }

  /** A refusal is never taken back. */
  lemma RefusalStays(initial: map<Uuid, nat>, w: World, w': World, o: Uuid)
    requires WorldOk(initial, w) && WorldOk(initial, w') && Remembers(w, w')
    requires o in w.orders && o in w'.orders && w'.orders[o].row.id == w.orders[o].row.id && RefusedOnce(w, o)
    ensures RefusedOnce(w', o)
  {
    hide WorldOk, Remembers, Refuses, ReserveRefused;
    if Refuses(Payments, w.payments, o, w.orders[o].row.id) {
      ServiceRefusalStays(initial, w, w', Payments, o);
    } else if Refuses(Shipments, w.shipments, o, w.orders[o].row.id) {
      ServiceRefusalStays(initial, w, w', Shipments, o);
    } else {
      ReserveRefusalStays(w, w', o);
    }
  }

  lemma ShipmentStays(w: World, w': World, o: Uuid)
    requires Remembers(w, w') && o in w.shipments.provider.accounts
    ensures o in w'.shipments.provider.accounts
  {
    hide II.StockEvolves;
    assert SI.Evolves(SI.ViewAt(Shipments, w.shipments, o), SI.ViewAt(Shipments, w'.shipments, o));
  }

  /** A completed order was refused nothing. */
  lemma CompletedUnrefused(initial: map<Uuid, nat>, w: World, o: Uuid)
    requires WorldOk(initial, w) && HasStatus(w, o, CompletedOrder)
    ensures !RefusedOnce(w, o)
  {
    hide WorldOk, NothingUndone, IP.InProtocol, SP.InProtocol;
    SuccessIsClean(initial, w, o);
    Protocols(initial, w);
    FinalizedWasGranted(initial, w.inventory, Sent(w.network, InventoryParticipant), o);
  }

  lemma FinalizedWasGranted(initial: map<Uuid, nat>, s: Inventory.State, sent: set<Command>, o: Uuid)
    requires IP.InProtocol(initial, s, sent) && o in s.stock.reservations
    requires s.stock.reservations[o].status == Inventory.Finalized
    ensures s.stock.reservations[o].result.Some? && s.stock.reservations[o].result.value.Succeeded?
  {
    hide II.Conserved, IP.Rely, IP.MailOk, IP.AllBenign, IP.SentOnly;
    assert II.ReservationOk(o, s.stock.reservations[o]);
  }

  // ---------- From one moment to a later one ----------

  lemma LaterWorld(cfg: Config, products: map<Uuid, Inventory.Product>, h: History, longer: History, o: Uuid)
    requires IsHistory(cfg, products, h) && IsHistory(cfg, products, longer) && Continues(h, longer)
    requires h.worlds != [] && longer.worlds != [] && o in Now(h).orders
    ensures WorldOk(II.Initially(products), Now(h)) && WorldOk(II.Initially(products), Now(longer))
    ensures Remembers(Now(h), Now(longer))
    ensures o in Now(longer).orders && Now(longer).orders[o].row.id == Now(h).orders[o].row.id
  {
    hide IsHistory, WorldOk, Remembers, NoReturn;
    NowIsOk(cfg, products, h);
    NowIsOk(cfg, products, longer);
    SameOrder(cfg, products, h, longer, o);
    assert Now(h) == longer.worlds[|h.worlds| - 1];
    HistoriesRemember(cfg, products, longer, |h.worlds| - 1, |longer.worlds| - 1);
  }
}
