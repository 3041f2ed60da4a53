/** The whole system: any number of broker-driven orders over one inventory, one payment service
    and one shipping service.

    The network keeps every command ever given to the broker; any of them may be delivered any
    number of times, in any order, at any later time, or never, and so may every result in a
    participant's outbox. That covers loss, duplication, reordering and delay. Participants are
    sent orchestrator-issued commands only. */
module System {
  import opened Contracts
  import opened Broker
  import opened Basket
  import Acceptance
  import opened Mailbox
  import opened Provider
  import Service
  import Inventory

  datatype World = World(
    orders: map<Uuid, Slice>,
    network: map<Uuid, Command>,
    payments: Service.State,
    shipments: Service.State,
    inventory: Inventory.State)

  /** What every accepted order's payload is like. */
  predicate Normalized(payload: OrderPayload) {
    ValidBasket(payload.items) && Sorted(payload.items)
  }

  function MailOf(w: World, participant: Participant): Mail {
    match participant
    case PaymentParticipant => w.payments.mail
    case InventoryParticipant => w.inventory.mail
    case ShippingParticipant => w.shipments.mail
  }

  predicate Fresh(w: World, mid: Uuid) {
    mid % 2 == 0 && forall o | o in w.orders :: mid !in w.orders[o].outbox
  }

  /** A command reaches its participant in its message, or is repeated by hand. */
  predicate Carried(network: map<Uuid, Command>, message: Option<Uuid>, c: Command, participant: Participant) {
    && Owner(c.operation) == participant
    && (match message
        case Some(m) => m in network && network[m] == c
        case None => c in network.Values)
  }

  datatype Event =
    | Place(orderId: Uuid, sagaId: Uuid, request: Acceptance.Request, mid: Uuid)
    | Orchestrate(orderId: Uuid, action: Action)
    | PaymentEvent(service: Service.Event)
    | ShipmentEvent(service: Service.Event)
    | InventoryEvent(inventory: Inventory.Event)

  predicate ActionPossible(w: World, o: Uuid, a: Action) {
    match a
    case DoConfirm(mid) => Fresh(w, mid)
    case DoResume(mid) => Fresh(w, mid)
    case DoRecover(_, mid) => Fresh(w, mid)
    case DoReceive(env, mid) =>
      Fresh(w, mid) && env.result.orderId == o && env in MailOf(w, Owner(env.result.operation)).outbox
    case _ => true
  }

  predicate Possible(w: World, e: Event) {
    match e
    case Place(o, sagaId, request, mid) =>
      && o !in w.orders && (forall p | p in w.orders :: w.orders[p].row.id != sagaId)
      && Acceptance.Schema(request) && Acceptance.Payable(request) && Fresh(w, mid)
    case Orchestrate(o, a) => o in w.orders && ActionPossible(w, o, a)
    case PaymentEvent(s) =>
      && Service.Possible(Payments, w.payments, s)
      && (s.Start? ==> Carried(w.network, s.message, s.command, PaymentParticipant))
    case ShipmentEvent(s) =>
      && Service.Possible(Shipments, w.shipments, s)
      && (s.Start? ==> Carried(w.network, s.message, s.command, ShippingParticipant))
    case InventoryEvent(s) =>
      && Inventory.Possible(s)
      && (s.Deliver? ==> Carried(w.network, Some(s.message), s.command, InventoryParticipant))
      && (s.Direct? ==> Carried(w.network, None, s.command, InventoryParticipant))
  }

  /** The relay's hand-over is what puts a command on the network. */
  function Published(network: map<Uuid, Command>, a: Action, d: Slice): map<Uuid, Command> {
    if a.DoHandOver? && a.message in d.outbox && d.outbox[a.message].handed && d.outbox[a.message].body.CommandBody?
    then network[a.message := d.outbox[a.message].body.command]
    else network
  }

  function Step(cfg: Config, w: World, e: Event, now: nat): World
    requires Possible(w, e)
  {
    match e
    case Place(o, sagaId, request, mid) =>
      w.(orders := w.orders[o := Accept(cfg, sagaId, o, Acceptance.PayloadOf(request), now, mid)])
    case Orchestrate(o, a) =>
      var d := Perform(cfg, w.orders[o], a, now);
      w.(orders := w.orders[o := d], network := Published(w.network, a, d))
    case PaymentEvent(s) => w.(payments := Service.Step(Payments, w.payments, s))
    case ShipmentEvent(s) => w.(shipments := Service.Step(Shipments, w.shipments, s))
    case InventoryEvent(s) => w.(inventory := Inventory.Step(w.inventory, s))
  }

  function Begin(products: map<Uuid, Inventory.Product>): World {
    World(map[], map[], Service.EMPTY, Service.EMPTY,
          Inventory.State(Inventory.Stock(products, map[], map[]), {}, Mail(map[], [])))
  }
}
