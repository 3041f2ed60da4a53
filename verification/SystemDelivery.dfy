/** Every result a participant sends is accepted by the orchestrator whenever it is delivered:
    nothing in a run is ever thrown away as a bad message. */
module SystemDelivery {
  import opened Contracts
  import opened StateMachine
  import opened Broker
  import opened BrokerInvariant
  import opened BrokerLinks
  import opened BrokerTheorems
  import opened Mailbox
  import Acceptance
  import opened Provider
  import opened System
  import opened SystemInvariant
  import opened SystemOrders
  import opened SystemTheorems
  import opened SystemRuns
  import opened SystemSteps
  import Service
  import SI = ServiceInvariant
  import SP = ServiceProtocol
  import Inventory
  import II = InventoryInvariant
  import IP = InventoryProtocol

  /** What an order has consumed, participants have sent. */
  predicate InboxOk(w: World, o: Uuid)
    requires o in w.orders
  {
    forall k | k in w.orders[o].inbox ::
      var env := w.orders[o].inbox[k];
      env.messageId == k && env in MailOf(w, Owner(env.result.operation)).outbox
  }

  predicate InboxesOk(w: World) {
    forall o | o in w.orders :: InboxOk(w, o)
  }

  // ---------- Sent results stay sent ----------

  predicate MailGrows(w: World, w': World) {
    && w.payments.mail.outbox <= w'.payments.mail.outbox
    && w.shipments.mail.outbox <= w'.shipments.mail.outbox
    && w.inventory.mail.outbox <= w'.inventory.mail.outbox
  }

  lemma FinalizeMailGrows(kind: Kind, s: Service.State, x: Service.Execution, outcome: Outcome)
    ensures s.mail.outbox <= Service.Finalize(kind, s, x, outcome).mail.outbox
  {
    hide Service.UndoneRow, Altered;
  }

  /** Only the final transaction writes an answer. */
  lemma AdvanceMailGrows(kind: Kind, s: Service.State, o: Uuid, mode: Mode, timely: bool)
    requires o in s.executions && s.executions[o].command.orderId == o
    ensures s.mail.outbox <= Service.Advance(kind, s, o, mode, timely).mail.outbox
  {
    hide Execute, Service.Settled, Service.Afterwards, Service.ReverseStart, Service.OtherSaga, Service.Finalize;
    var x := s.executions[o];
    if x.position.Committing? { FinalizeMailGrows(kind, s, x, x.position.outcome); }
  }

  lemma ServiceMailGrows(kind: Kind, s: Service.State, e: Service.Event)
    requires Service.Possible(kind, s, e)
    ensures s.mail.outbox <= Service.Step(kind, s, e).mail.outbox
  {
    hide Execute, Service.Advance, Altered;
    if e.Continue? { AdvanceMailGrows(kind, s, e.orderId, e.mode, e.timely); }
  }

  lemma InventoryMailGrows(s: Inventory.State, e: Inventory.Event)
    requires Inventory.Possible(e)
    ensures s.mail.outbox <= Inventory.Step(s, e).mail.outbox
  {
    hide Inventory.Execute, Inventory.Normalize;
  }

  lemma StepMailGrows(cfg: Config, w: World, e: Event, now: nat)
    requires Possible(w, e)
    ensures MailGrows(w, Step(cfg, w, e, now))
  {
    hide Service.Step, Inventory.Step, Perform, Accept, Fresh, Acceptance.Schema;
    hide Acceptance.Payable, Acceptance.PayloadOf, ActionPossible, Carried;
    match e {
      case PaymentEvent(s) => ServiceMailGrows(Payments, w.payments, s);
      case ShipmentEvent(s) => ServiceMailGrows(Shipments, w.shipments, s);
      case InventoryEvent(s) => InventoryMailGrows(w.inventory, s);
      case _ =>
    }
  }

  // ---------- The invariant ----------

  lemma InboxStays(w: World, w': World, o: Uuid)
    requires o in w.orders && InboxOk(w, o) && MailGrows(w, w')
    requires o in w'.orders && w'.orders[o].inbox == w.orders[o].inbox
    ensures InboxOk(w', o)
  {
  }

  lemma StepKeepsInboxes(cfg: Config, initial: map<Uuid, nat>, w: World, e: Event, now: nat)
    requires Possible(w, e) && WorldOk(initial, w) && InboxesOk(w)
    ensures InboxesOk(Step(cfg, w, e, now))
  {
    hide WorldOk, Perform, Accept, Service.Step, Inventory.Step, Fresh, Acceptance.Schema, Acceptance.Payable;
    hide Acceptance.PayloadOf, InboxOk, MailGrows, Published, Ok, MailOf;
    StepMailGrows(cfg, w, e, now);
    var w' := Step(cfg, w, e, now);
    forall o | o in w'.orders ensures InboxOk(w', o) {
      if e.Place? && e.orderId == o {
        NewInbox(cfg, w', o, e.sagaId, Acceptance.PayloadOf(e.request), now, e.mid);
      } else if e.Orchestrate? && e.orderId == o {
        OkAt(initial, w, o);
        ActionInbox(cfg, w, o, e.action, now);
        InboxIgnoresNetwork(w.(orders := w.orders[o := Perform(cfg, w.orders[o], e.action, now)]), w', o);
      } else {
        InboxStays(w, w', o);
      }
    }
  }

  lemma OkAt(initial: map<Uuid, nat>, w: World, o: Uuid)
    requires WorldOk(initial, w) && o in w.orders
    ensures Ok(w.orders[o])
  {
    hide NetworkOk, AllEarned, CausesOk, ProtocolOk, Ok;
    assert SliceOk(o, w.orders[o]);
  }

  lemma NewInbox(cfg: Config, w: World, o: Uuid, sagaId: Uuid, payload: OrderPayload, now: nat, mid: Uuid)
    requires o in w.orders && w.orders[o] == Accept(cfg, sagaId, o, payload, now, mid)
    ensures InboxOk(w, o)
  {
    assert w.orders[o].inbox == map[];
  }

  lemma InboxIgnoresNetwork(w: World, w': World, o: Uuid)
    requires o in w.orders && InboxOk(w, o) && w' == w.(network := w'.network)
    ensures InboxOk(w', o)
  {
  }

  lemma ActionInbox(cfg: Config, w: World, o: Uuid, a: Action, now: nat)
    requires o in w.orders && InboxOk(w, o) && Ok(w.orders[o])
    requires a.DoReceive? ==> a.envelope in MailOf(w, Owner(a.envelope.result.operation)).outbox
    ensures InboxOk(w.(orders := w.orders[o := Perform(cfg, w.orders[o], a, now)]), o)
  {
    hide Ok, Perform;
    InboxGrows(cfg, w.orders[o], a, now);
  }

  lemma {:induction false} HistoriesKeepInboxes(cfg: Config, products: map<Uuid, Inventory.Product>, h: History, i: nat)
    requires IsHistory(cfg, products, h) && i < |h.worlds|
    ensures InboxesOk(h.worlds[i])
  {
    hide WorldOk, Possible, Step, InboxOk;
    if i > 0 {
      HistoriesKeepInboxes(cfg, products, h, i - 1);
      HistoriesStayOk(cfg, products, h, i - 1);
      StepKeepsInboxes(cfg, II.Initially(products), h.worlds[i - 1], h.events[i - 1], h.times[i - 1]);
    }
  }

  // ---------- Acceptance ----------

  lemma DistinctCauses(mail: Mail, a: ResultEnvelope, b: ResultEnvelope)
    requires Coupled(mail) && a in mail.outbox && b in mail.outbox && a.causationId == b.causationId
    ensures a == b
  {
    var i :| 0 <= i < |mail.outbox| && mail.outbox[i] == a;
    var j :| 0 <= j < |mail.outbox| && mail.outbox[j] == b;
    assert i == j;
  }

  lemma MailIsCoupled(initial: map<Uuid, nat>, w: World, participant: Participant)
    requires WorldOk(initial, w)
    ensures Coupled(MailOf(w, participant))
  {
    Protocols(initial, w);
    hide WorldOk, Coupled, SI.DataOk, II.BooksOk, II.Conserved, SP.Rely, IP.Rely;
    hide SP.SentOnly, IP.SentOnly, SP.AllBenign, IP.AllBenign, Sent;
  }

  lemma ConsumedOnce(initial: map<Uuid, nat>, w: World, o: Uuid, env: ResultEnvelope)
    requires WorldOk(initial, w) && o in w.orders && InboxOk(w, o)
    requires env in MailOf(w, Owner(env.result.operation)).outbox && env.messageId in w.orders[o].inbox
    ensures w.orders[o].inbox[env.messageId] == env
  {
    hide WorldOk, AnswerOf, MailOf, Coupled;
    var seen := w.orders[o].inbox[env.messageId];
    DeliveredIsTruthful(initial, w, env);
    DeliveredIsTruthful(initial, w, seen);
    assert seen.causationId == env.causationId;
    MailIsCoupled(initial, w, Owner(env.result.operation));
    DistinctCauses(MailOf(w, Owner(env.result.operation)), env, seen);
  }

  lemma DeliveredIsCorrelated(initial: map<Uuid, nat>, w: World, o: Uuid, env: ResultEnvelope)
    requires WorldOk(initial, w) && o in w.orders && env.result.orderId == o
    requires env in MailOf(w, Owner(env.result.operation)).outbox
    ensures Correlated(w.orders[o], env)
  {
    DeliveredIsTruthful(initial, w, env);
    OrdersAndNetwork(initial, w);
    hide WorldOk, OrdersOk, AnswerOf, MailOf, MayExist;
    assert AtHome(w.orders, env.causationId, w.network[env.causationId]);
    HomeCommand(w.orders, w.network, env.causationId);
  }

  lemma ServiceAnswerFits(kind: Kind, s: Service.State, sent: set<Command>, c: Command)
    requires SP.InProtocol(kind, s, sent) && c in sent && SP.AnswerAt(s, c.key).Some?
    ensures FitsSchema(c.operation, SP.AnswerAt(s, c.key).value)
  {
    hide SI.CallOk, SI.ExecutionAtOk, SI.AnswersOk, SP.AllBenign;
    SP.KeyDetermines(kind, s, sent, c);
    var v := SI.ViewAt(kind, s, c.orderId);
    assert SI.ReceiptOk(kind, s.receipts[c.key], v) && SI.OrderOk(kind, c.orderId, v);
  }

  lemma InventoryAnswerFits(initial: map<Uuid, nat>, s: Inventory.State, sent: set<Command>, c: Command)
    requires IP.InProtocol(initial, s, sent) && c in sent && IP.AnswerAt(s, c.key).Some?
    ensures FitsSchema(c.operation, IP.AnswerAt(s, c.key).value)
  {
    hide II.Conserved, IP.MailOk, IP.AllBenign;
    IP.KeyDetermines(s, sent, c);
    var r := Get(s.stock.reservations, c.orderId);
    assert II.ReceiptOk(s.stock.receipts[c.key], r);
    assert r.Some? ==> II.ReservationOk(c.orderId, r.value);
  }

  /** Every result a participant ever sends passes the schema with which it is received. */
  lemma EveryResultFitsSchema(cfg: Config, products: map<Uuid, Inventory.Product>, h: History, i: nat,
                              env: ResultEnvelope)
    requires IsHistory(cfg, products, h) && i < |h.worlds|
    requires env in MailOf(h.worlds[i], Owner(env.result.operation)).outbox
    ensures FitsSchema(env.result.operation, env.result.outcome)
  {
    hide IsHistory, WorldOk, SP.InProtocol, IP.InProtocol, Sent, SP.AnswerAt, IP.AnswerAt, MailOf, FitsSchema;
    var initial, w := II.Initially(products), h.worlds[i];
    HistoriesStayOk(cfg, products, h, i);
    DeliveredIsTruthful(initial, w, env);
    Protocols(initial, w);
    var c := w.network[env.causationId];
    CarriedWasSent(w.network, Some(env.causationId), c, Owner(c.operation));
    if env.result.outcome.Unknown? {
      UnknownFits(c.operation);
    } else {
      match Owner(c.operation) {
        case PaymentParticipant =>
          ServiceAnswerFits(Payments, w.payments, Sent(w.network, PaymentParticipant), c);
        case ShippingParticipant =>
          ServiceAnswerFits(Shipments, w.shipments, Sent(w.network, ShippingParticipant), c);
        case InventoryParticipant =>
          InventoryAnswerFits(initial, w.inventory, Sent(w.network, InventoryParticipant), c);
      }
    }
  }

  lemma UnknownFits(op: Operation)
    ensures FitsSchema(op, Unknown)
  {
  }

  /** Whenever the network delivers a participant's result, at once, late or again, `receive`
      commits: correlation, duplicate and progress checks all pass. */
  lemma EveryResultIsAccepted(cfg: Config, products: map<Uuid, Inventory.Product>, h: History, i: nat, o: Uuid,
                              env: ResultEnvelope, mid: Uuid, now: nat)
    requires IsHistory(cfg, products, h) && i < |h.worlds| && Possible(h.worlds[i], Orchestrate(o, DoReceive(env, mid)))
    ensures Receive(cfg, h.worlds[i].orders[o], env, now, mid).Committed?
  {
    var initial, w := II.Initially(products), h.worlds[i];
    HistoriesStayOk(cfg, products, h, i);
    HistoriesKeepInboxes(cfg, products, h, i);
    ActionEnabled(initial, w, o, DoReceive(env, mid));
    OkAt(initial, w, o);
    hide WorldOk, IsHistory, Ok, OrdersOk, NetworkOk, Receive, Correlated;
    hide MailOf, Fresh, InboxOk, Coherent, Attested, Enabled;
    DeliveredIsCorrelated(initial, w, o, env);
    if env.messageId in w.orders[o].inbox { ConsumedOnce(initial, w, o, env); }
    ReceiveThrowsOnlyForBadMessages(cfg, w.orders[o], env, now, mid);
  }
}
