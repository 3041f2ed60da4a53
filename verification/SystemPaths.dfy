/** How a history of the system goes on: one event after another, on a clock that does not run
    backwards. */
module SystemPaths {
  import opened Contracts
  import opened Broker
  import opened BrokerProgress
  import opened Provider
  import opened System
  import opened SystemRuns
  import Service
  import Inventory

  function Now(h: History): World
    requires h.worlds != []
  {
    h.worlds[|h.worlds| - 1]
  }

  /** The same history and more, at later times. */
  predicate Continues(h: History, longer: History) {
    && h.worlds <= longer.worlds && h.events <= longer.events && h.times <= longer.times
    && forall i, j :: 0 <= i < j < |longer.times| && |h.times| <= j ==> longer.times[i] <= longer.times[j]
  }

  lemma ContinuesItself(cfg: Config, products: map<Uuid, Inventory.Product>, h: History)
    requires IsHistory(cfg, products, h)
    ensures Continues(h, h) && h.worlds != []
  {
  }

  lemma ContinuationsChain(h: History, h': History, h'': History)
    requires Continues(h, h') && Continues(h', h'')
    ensures Continues(h, h'')
  {
    forall i, j | 0 <= i < j < |h''.times| && |h.times| <= j ensures h''.times[i] <= h''.times[j] {
      if j < |h'.times| {
        assert h''.times[i] == h'.times[i] && h''.times[j] == h'.times[j];
      }
    }
  }

  lemma Append(cfg: Config, products: map<Uuid, Inventory.Product>, h: History, e: Event, now: nat)
      returns (longer: History)
    requires IsHistory(cfg, products, h) && Possible(Now(h), e) && Past(h.times, now)
    ensures IsHistory(cfg, products, longer) && Continues(h, longer) && longer.worlds != []
    ensures Now(longer) == Step(cfg, Now(h), e, now) && Past(longer.times, now)
  {
    hide Possible, Step, Begin;
    longer := History(h.worlds + [Step(cfg, Now(h), e, now)], h.events + [e], h.times + [now]);
    forall i | 0 <= i < |longer.events|
      ensures Possible(longer.worlds[i], longer.events[i])
      ensures longer.worlds[i + 1] == Step(cfg, longer.worlds[i], longer.events[i], longer.times[i])
    {
      if i < |h.events| {
        assert longer.worlds[i] == h.worlds[i] && longer.worlds[i + 1] == h.worlds[i + 1];
        assert longer.events[i] == h.events[i] && longer.times[i] == h.times[i];
      }
    }
  }

  /** One transaction of the orchestrator. */
  lemma Act(cfg: Config, products: map<Uuid, Inventory.Product>, h: History, o: Uuid, a: Action, now: nat)
      returns (longer: History)
    requires IsHistory(cfg, products, h) && o in Now(h).orders && ActionPossible(Now(h), o, a) && Past(h.times, now)
    ensures IsHistory(cfg, products, longer) && Continues(h, longer) && longer.worlds != []
    ensures Past(longer.times, now)
    ensures
      var d := Perform(cfg, Now(h).orders[o], a, now);
      Now(longer) == Now(h).(orders := Now(h).orders[o := d], network := Published(Now(h).network, a, d))
  {
    hide IsHistory, Perform, Published, ActionPossible;
    longer := Append(cfg, products, h, Orchestrate(o, a), now);
  }

  // ---------- The payment and the shipping service alike ----------

  function ServiceOf(w: World, kind: Kind): Service.State {
    if kind == Payments then w.payments else w.shipments
  }

  function ParticipantOf(kind: Kind): Participant {
    if kind == Payments then PaymentParticipant else ShippingParticipant
  }

  function WithService(w: World, kind: Kind, s: Service.State): World {
    if kind == Payments then w.(payments := s) else w.(shipments := s)
  }

  /** One step of a service. */
  lemma Serve(cfg: Config, products: map<Uuid, Inventory.Product>, h: History, kind: Kind, e: Service.Event)
      returns (longer: History)
    requires IsHistory(cfg, products, h) && Service.Possible(kind, ServiceOf(Now(h), kind), e)
    requires e.Start? ==> Carried(Now(h).network, e.message, e.command, ParticipantOf(kind))
    ensures IsHistory(cfg, products, longer) && Continues(h, longer) && longer.worlds != []
    ensures Now(longer) == WithService(Now(h), kind, Service.Step(kind, ServiceOf(Now(h), kind), e))
  {
    hide IsHistory, Service.Step, Service.Possible, Carried;
    var now := SomeTime(h.times, 0);
    longer := Append(cfg, products, h, if kind == Payments then PaymentEvent(e) else ShipmentEvent(e), now);
  }

  /** One step of the inventory. */
  lemma Stock(cfg: Config, products: map<Uuid, Inventory.Product>, h: History, e: Inventory.Event)
      returns (longer: History)
    requires IsHistory(cfg, products, h) && Inventory.Possible(e)
    requires e.Deliver? ==> Carried(Now(h).network, Some(e.message), e.command, InventoryParticipant)
    requires !e.Direct?
    ensures IsHistory(cfg, products, longer) && Continues(h, longer) && longer.worlds != []
    ensures Now(longer) == Now(h).(inventory := Inventory.Step(Now(h).inventory, e))
  {
    hide IsHistory, Inventory.Step, Inventory.Possible, Carried;
    var now := SomeTime(h.times, 0);
    longer := Append(cfg, products, h, InventoryEvent(e), now);
  }

  // ---------- Fresh messages ----------

  /** An even id above all that is in use anywhere in the orders. */
  lemma FreshId(w: World) returns (mid: Uuid)
    ensures Fresh(w, mid)
    ensures forall o, k | o in w.orders && k in w.orders[o].inbox :: k < mid
  {
    var sent := set o, m | o in w.orders && m in w.orders[o].outbox :: m;
    var seen := set o, k | o in w.orders && k in w.orders[o].inbox :: k;
    var a := SomeId(sent);
    var b := SomeId(seen);
    mid := 2 * (a + b);
    forall o, m | o in w.orders && m in w.orders[o].outbox ensures m < mid {
      assert m in sent;
    }
    forall o, k | o in w.orders && k in w.orders[o].inbox ensures k < mid {
      assert k in seen;
    }
  }
}
