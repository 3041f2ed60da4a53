/** The orchestrator's steps in the system. */
module SystemOrders {
  import opened Contracts
  import opened StateMachine
  import opened Broker
  import opened BrokerInvariant
  import opened BrokerLinks
  import Acceptance
  import opened Mailbox
  import opened Provider
  import opened System
  import opened SystemInvariant
  import Service
  import SI = ServiceInvariant
  import SP = ServiceProtocol
  import Inventory
  import II = InventoryInvariant
  import IP = InventoryProtocol
  import opened SystemSteps

  // ---------- What a delivered result proves ----------

  /** A result in a participant's outbox answers a command of the network; a definite one is the
      participant's completed answer, and a failure is the operation's own rejection. */
  predicate Truthful(w: World, env: ResultEnvelope) {
    && env.causationId in w.network
    && env.messageId == ResultId(env.causationId)
    && var c := w.network[env.causationId];
       && env.result == ResultFor(c, env.result.outcome)
       && c.key == SagaKey(c.sagaId, c.operation)
       && (!env.result.outcome.Unknown? ==> AnswerOf(w, c.sagaId, c.operation) == Some(env.result.outcome))
       && (env.result.outcome.Failed? ==> IsRejection(c.operation, env.result.outcome.code))
  }

  lemma ServiceEnvelope(kind: Kind, s: Service.State, sent: set<Command>, i: nat)
    requires SP.InProtocol(kind, s, sent) && i < |s.mail.outbox|
    ensures var env := s.mail.outbox[i];
      && env.causationId in s.mail.inbox && env.messageId == ResultId(env.causationId)
      && var c := s.mail.inbox[env.causationId];
         && c in sent && env.result == ResultFor(c, env.result.outcome)
         && c.key == SagaKey(c.sagaId, c.operation)
         && (!env.result.outcome.Unknown? ==> SP.AnswerAt(s, c.key) == Some(env.result.outcome))
         && (env.result.outcome.Failed? ==>
             c.operation == ForwardOp(kind) && env.result.outcome.code == Rejection(kind))
  {
    hide SI.DataOk, SI.ExecutionAtOk, Mailbox.Answered, SP.Harmless, SI.Backed;
  }

  lemma InventoryEnvelope(initial: map<Uuid, nat>, s: Inventory.State, sent: set<Command>, i: nat)
    requires IP.InProtocol(initial, s, sent) && i < |s.mail.outbox|
    ensures var env := s.mail.outbox[i];
      && env.causationId in s.mail.inbox && env.messageId == ResultId(env.causationId)
      && var c := s.mail.inbox[env.causationId];
         && c in sent && env.result == ResultFor(c, env.result.outcome)
         && c.key == SagaKey(c.sagaId, c.operation)
         && IP.AnswerAt(s, c.key) == Some(env.result.outcome)
         && (env.result.outcome.Failed? ==>
             c.operation == ReserveInventory && env.result.outcome.code == InsufficientStock)
  {
    hide II.BooksOk, II.Conserved, Mailbox.Answered, IP.WasSent;
    var env := s.mail.outbox[i];
    var c := s.mail.inbox[env.causationId];
    assert IP.Told(s.stock.receipts, c, env.result.outcome);
    assert IP.Benign(s.stock.receipts[c.key].content.operation, s.stock.receipts[c.key].outcome);
  }

  lemma DeliveredIsTruthful(initial: map<Uuid, nat>, w: World, env: ResultEnvelope)
    requires WorldOk(initial, w) && env in MailOf(w, Owner(env.result.operation)).outbox
    ensures Truthful(w, env)
  {
    hide OrdersOk, NetworkOk, AllEarned, SP.InProtocol, IP.InProtocol, Sent;
    var participant := Owner(env.result.operation);
    var i :| 0 <= i < |MailOf(w, participant).outbox| && MailOf(w, participant).outbox[i] == env;
    match participant {
      case PaymentParticipant => ServiceEnvelope(Payments, w.payments, Sent(w.network, participant), i);
      case ShippingParticipant => ServiceEnvelope(Shipments, w.shipments, Sent(w.network, participant), i);
      case InventoryParticipant => InventoryEnvelope(initial, w.inventory, Sent(w.network, participant), i);
    }
  }

  // ---------- One order changes ----------

  lemma TruthIsAttested(w: World, o: Uuid, env: ResultEnvelope)
    requires OrdersOk(w.orders) && NetworkOk(w.orders, w.network) && Truthful(w, env)
    requires o in w.orders && env.result.orderId == o
    ensures var row := w.orders[o].row; Attested(env.result, DoneFor(w, row.id), RejectedFor(w, row.id))
    ensures env.causationId in w.orders[o].outbox && w.orders[o].outbox[env.causationId].handed
  {
    hide OrdersOk, NetworkOk, MayExist, AnswerOf;
    HomeCommand(w.orders, w.network, env.causationId);
    assert AtHome(w.orders, env.causationId, w.network[env.causationId]) by {
      UnfoldNetwork(w.orders, w.network, env.causationId);
    }
  }

  lemma UnfoldNetwork(orders: map<Uuid, Slice>, network: map<Uuid, Command>, m: Uuid)
    requires NetworkOk(orders, network) && m in network
    ensures AtHome(orders, m, network[m])
  {
  }

  lemma NewIdsAreFresh(w: World, o: Uuid, a: Action)
    requires ActionPossible(w, o, a)
    ensures NewId(a).Some? ==> Fresh(w, NewId(a).value)
  {
  }

  lemma OrdersStayOk(w: World, o: Uuid, d': Slice, mid: Option<Uuid>)
    requires OrdersOk(w.orders) && o in w.orders && SliceOk(o, d') && SameSaga(w.orders[o], d', mid)
    requires mid.Some? ==> Fresh(w, mid.value)
    ensures OrdersOk(w.orders[o := d'])
  {
    hide SliceOk;
    var orders := w.orders[o := d'];
    forall m | m in CommandIds(d') ensures m in CommandIds(w.orders[o]) || mid == Some(m) {
    }
    forall p, q, m | p in orders && q in orders && m in CommandIds(orders[p]) && m in CommandIds(orders[q])
      ensures p == q {
      if mid == Some(m) {
        assert forall r | r in w.orders :: m !in CommandIds(w.orders[r]);
      }
    }
  }

  lemma NetworkStaysOk(orders: map<Uuid, Slice>, network: map<Uuid, Command>, o: Uuid, d': Slice, mid: Option<Uuid>)
    requires NetworkOk(orders, network) && o in orders && SameSaga(orders[o], d', mid)
    ensures NetworkOk(orders[o := d'], network)
  {
    forall m | m in network ensures AtHome(orders[o := d'], m, network[m]) {
      assert AtHome(orders, m, network[m]);
    }
  }

  lemma OwnCommand(o: Uuid, d: Slice, m: Uuid)
    requires SliceOk(o, d) && m in d.outbox && d.outbox[m].body.CommandBody?
    ensures d.outbox[m].body.command.orderId == o
  {
    hide FaithfulLog, ProgressOk, PendingOk, RelayOk, BudgetOk, MayExist;
  }

  lemma HomeOf(orders: map<Uuid, Slice>, o: Uuid, m: Uuid)
    requires o in orders && m in orders[o].outbox && orders[o].outbox[m].handed && orders[o].outbox[m].body.CommandBody?
    requires orders[o].outbox[m].body.command.orderId == o
    ensures AtHome(orders, m, orders[o].outbox[m].body.command)
  {
  }

  lemma HomeIsUnique(orders: map<Uuid, Slice>, o: Uuid, m: Uuid, c: Command)
    requires OrdersOk(orders) && o in orders && AtHome(orders, m, c)
    requires m in orders[o].outbox && orders[o].outbox[m].body.CommandBody?
    ensures orders[o].outbox[m].body.command == c
  {
    hide SliceOk;
    assert m in CommandIds(orders[c.orderId]) && m in CommandIds(orders[o]);
  }

  /** Publishing extends the network by one of the order's own commands, or not at all. */
  lemma PublishedIsAtHome(orders: map<Uuid, Slice>, network: map<Uuid, Command>, o: Uuid, a: Action)
    requires OrdersOk(orders) && NetworkOk(orders, network) && o in orders
    ensures var network' := Published(network, a, orders[o]);
      && NetworkOk(orders, network')
      && (forall m | m in network :: m in network' && network'[m] == network[m])
  {
    hide SliceOk, AtHome;
    var d := orders[o];
    var network' := Published(network, a, d);
    assert SliceOk(o, d);
    if network' != network {
      OwnCommand(o, d, a.message);
      HomeOf(orders, o, a.message);
      if a.message in network {
        HomeIsUnique(orders, o, a.message, network[a.message]);
      }
    }
  }

  lemma EarnedStays(w: World, o: Uuid, a: Action, cfg: Config, now: nat)
    requires o in w.orders && OrdersOk(w.orders) && AllEarned(w)
    requires Enabled(w.orders[o], a)
    requires a.DoReceive? ==> Attested(a.envelope.result, DoneFor(w, w.orders[o].row.id),
                                       RejectedFor(w, w.orders[o].row.id))
    requires Perform(cfg, w.orders[o], a, now).row.id == w.orders[o].row.id
    ensures AllEarned(w.(orders := w.orders[o := Perform(cfg, w.orders[o], a, now)]))
  {
    CoherentOrder(w.orders, o);
    hide OrdersOk, Perform, Enabled, Earned, Attested, Ok, AnswerOf, Awaited, DoneFor, RejectedFor;
    var d, d' := w.orders[o], Perform(cfg, w.orders[o], a, now);
    var w' := w.(orders := w.orders[o := d']);
    assert EarnedAt(w, o);
    PerformIsEarned(cfg, d, a, now, DoneFor(w, d.row.id), RejectedFor(w, d.row.id));
    SameAnswers(w, w', d.row.id);
    assert EarnedAt(w', o);
    forall p | p in w'.orders ensures EarnedAt(w', p) {
      if p != o { OthersStayEarned(w, w', p); }
    }
  }

  lemma OthersStayEarned(w: World, w': World, p: Uuid)
    requires p in w.orders && p in w'.orders && w'.orders[p] == w.orders[p] && EarnedAt(w, p)
    requires w'.payments == w.payments && w'.shipments == w.shipments && w'.inventory == w.inventory
    ensures EarnedAt(w', p)
  {
    hide Earned, DoneFor, RejectedFor;
    SameAnswers(w, w', w.orders[p].row.id);
  }

  lemma SameAnswers(w: World, w': World, sagaId: Uuid)
    requires w'.payments == w.payments && w'.shipments == w.shipments && w'.inventory == w.inventory
    ensures DoneFor(w', sagaId) == DoneFor(w, sagaId) && RejectedFor(w', sagaId) == RejectedFor(w, sagaId)
  {
    assert forall op: Operation :: AnswerOf(w', sagaId, op) == AnswerOf(w, sagaId, op);
  }

  lemma ActionEnabled(initial: map<Uuid, nat>, w: World, o: Uuid, a: Action)
    requires WorldOk(initial, w) && o in w.orders && ActionPossible(w, o, a)
    ensures Enabled(w.orders[o], a)
    ensures a.DoReceive? ==> Attested(a.envelope.result, DoneFor(w, w.orders[o].row.id),
                                      RejectedFor(w, w.orders[o].row.id))
  {
    hide OrdersOk, NetworkOk, AllEarned, CausesOk, ProtocolOk, Attested, Truthful;
    NewIdsAreFresh(w, o, a);
    if a.DoReceive? {
      DeliveredIsTruthful(initial, w, a.envelope);
      TruthIsAttested(w, o, a.envelope);
    }
  }

  lemma CausesStay(w: World, w': World)
    requires CausesOk(w) && w'.payments == w.payments && w'.shipments == w.shipments && w'.inventory == w.inventory
    requires forall m | m in w.network :: m in w'.network && w'.network[m] == w.network[m]
    ensures CausesOk(w')
  {
  }

  lemma ProtocolStays(initial: map<Uuid, nat>, w: World, w': World)
    requires ProtocolOk(initial, w) && w'.payments == w.payments && w'.shipments == w.shipments
      && w'.inventory == w.inventory
    requires forall m | m in w.network :: m in w'.network && w'.network[m] == w.network[m]
    requires OrdersOk(w'.orders) && NetworkOk(w'.orders, w'.network) && AllEarned(w')
    ensures ProtocolOk(initial, w')
  {
    OrchestratorIsReliable(w');
    hide OrdersOk, NetworkOk, AllEarned, SP.InProtocol, IP.InProtocol, SP.Rely, IP.Rely;
    SP.SendingKeepsProtocol(Payments, w.payments, Sent(w.network, PaymentParticipant),
                            Sent(w'.network, PaymentParticipant));
    SP.SendingKeepsProtocol(Shipments, w.shipments, Sent(w.network, ShippingParticipant),
                            Sent(w'.network, ShippingParticipant));
    IP.SendingKeepsProtocol(initial, w.inventory, Sent(w.network, InventoryParticipant),
                            Sent(w'.network, InventoryParticipant));
  }

  lemma SliceStaysOk(cfg: Config, o: Uuid, d: Slice, a: Action, now: nat)
    requires SliceOk(o, d) && Enabled(d, a)
    ensures SliceOk(o, Perform(cfg, d, a, now)) && SameSaga(d, Perform(cfg, d, a, now), NewId(a))
  {
    hide Ok, Normalized, Perform, Enabled;
    PerformKeepsOk(cfg, d, a, now);
    PerformFrame(cfg, d, a, now);
  }

  lemma OrchestrateKeeps(cfg: Config, initial: map<Uuid, nat>, w: World, o: Uuid, a: Action, now: nat)
    requires Possible(w, Orchestrate(o, a)) && WorldOk(initial, w)
    ensures WorldOk(initial, Step(cfg, w, Orchestrate(o, a), now))
  {
    ActionEnabled(initial, w, o, a);
    NewIdsAreFresh(w, o, a);
    hide ProtocolOk, CausesOk, AllEarned, NetworkOk, SliceOk, Perform;
    hide Enabled, ActionPossible, Fresh, SameSaga, Attested;
    var d' := Perform(cfg, w.orders[o], a, now);
    SliceStaysOk(cfg, o, w.orders[o], a, now);
    hide OrdersOk;
    OrdersStayOk(w, o, d', NewId(a));
    NetworkStaysOk(w.orders, w.network, o, d', NewId(a));
    PublishedIsAtHome(w.orders[o := d'], w.network, o, a);
    assert d'.row.id == w.orders[o].row.id by { SameId(w.orders[o], d', NewId(a)); }
    EarnedStays(w, o, a, cfg, now);
    var w' := Step(cfg, w, Orchestrate(o, a), now);
    EarnedIgnoresNetwork(w.(orders := w.orders[o := d']), w');
    CausesStay(w, w');
    ProtocolStays(initial, w, w');
  }

  lemma SameId(d: Slice, d': Slice, mid: Option<Uuid>)
    requires SameSaga(d, d', mid)
    ensures d'.row.id == d.row.id
  {
  }

  lemma EarnedIgnoresNetwork(w: World, w': World)
    requires AllEarned(w) && w' == w.(network := w'.network)
    ensures AllEarned(w')
  {
    hide Earned, AnswerOf;
    forall o | o in w'.orders ensures EarnedAt(w', o) {
      assert EarnedAt(w, o);
      SameAnswers(w, w', w.orders[o].row.id);
    }
  }

  // ---------- A new order ----------

  lemma AcceptFacts(cfg: Config, sagaId: Uuid, o: Uuid, payload: OrderPayload, now: nat, mid: Uuid)
    ensures var d := Accept(cfg, sagaId, o, payload, now, mid);
      && d.row.id == sagaId && d.row.orderId == o && d.row.payload == payload
      && d.row.progress.operation == ChargePayment && d.row.progress.status in {PendingPayment, InProgress}
      && d.row.progress.compensated == [] && d.outbox.Keys <= {mid}
  {
  }

  /** A slice just accepted. */
  predicate NewOrder(w: World, o: Uuid, d: Slice, mid: Uuid) {
    && o !in w.orders && (forall p | p in w.orders :: w.orders[p].row.id != d.row.id)
    && d.outbox.Keys <= {mid} && Fresh(w, mid)
    && d.row.progress.operation == ChargePayment && d.row.progress.status in {PendingPayment, InProgress}
    && d.row.progress.compensated == []
  }

  lemma AcceptIsNew(cfg: Config, w: World, o: Uuid, sagaId: Uuid, request: Acceptance.Request, now: nat, mid: Uuid)
    requires Possible(w, Place(o, sagaId, request, mid))
    ensures
      var d := Accept(cfg, sagaId, o, Acceptance.PayloadOf(request), now, mid);
      NewOrder(w, o, d, mid) && SliceOk(o, d)
  {
    hide Accept, Fresh, Ok, Acceptance.Payable, Acceptance.PayloadOf;
    var payload := Acceptance.PayloadOf(request);
    Acceptance.PayloadsAreNormal(request);
    AcceptFacts(cfg, sagaId, o, payload, now, mid);
    AcceptIsOk(cfg, sagaId, o, payload, now, mid);
  }

  lemma PlaceKeepsOrders(w: World, o: Uuid, d: Slice, mid: Uuid)
    requires OrdersOk(w.orders) && NewOrder(w, o, d, mid) && SliceOk(o, d)
    ensures OrdersOk(w.orders[o := d])
  {
    hide SliceOk;
    assert forall p | p in w.orders :: mid !in CommandIds(w.orders[p]);
    assert CommandIds(d) <= {mid};
  }

  lemma PlaceKeepsEarned(w: World, o: Uuid, d: Slice, mid: Uuid)
    requires AllEarned(w) && NewOrder(w, o, d, mid)
    ensures AllEarned(w.(orders := w.orders[o := d]))
  {
    hide AnswerOf, Fresh, DoneFor, RejectedFor;
    var w' := w.(orders := w.orders[o := d]);
    forall p | p in w'.orders ensures EarnedAt(w', p) {
      if p != o {
        assert EarnedAt(w, p);
        SameAnswers(w, w', w.orders[p].row.id);
      }
    }
  }

  lemma PlaceKeepsNetwork(w: World, o: Uuid, d: Slice)
    requires NetworkOk(w.orders, w.network) && o !in w.orders
    ensures NetworkOk(w.orders[o := d], w.network)
  {
    forall m | m in w.network ensures AtHome(w.orders[o := d], m, w.network[m]) {
      assert AtHome(w.orders, m, w.network[m]);
    }
  }

  lemma PlaceKeeps(
    cfg: Config, initial: map<Uuid, nat>, w: World, o: Uuid, sagaId: Uuid, request: Acceptance.Request, now: nat,
      mid: Uuid)
    requires Possible(w, Place(o, sagaId, request, mid)) && WorldOk(initial, w)
    ensures WorldOk(initial, Step(cfg, w, Place(o, sagaId, request, mid), now))
  {
    hide OrdersOk, NetworkOk, AllEarned, CausesOk, ProtocolOk, Accept, SliceOk, NewOrder, Fresh;
    hide Acceptance.Schema, Acceptance.Payable, Acceptance.PayloadOf;
    var d := Accept(cfg, sagaId, o, Acceptance.PayloadOf(request), now, mid);
    AcceptIsNew(cfg, w, o, sagaId, request, now, mid);
    PlaceKeepsOrders(w, o, d, mid);
    PlaceKeepsNetwork(w, o, d);
    PlaceKeepsEarned(w, o, d, mid);
    var w' := Step(cfg, w, Place(o, sagaId, request, mid), now);
    CausesStay(w, w');
    ProtocolStays(initial, w, w');
  }

  // ---------- All steps ----------

  lemma StepKeepsWorldOk(cfg: Config, initial: map<Uuid, nat>, w: World, e: Event, now: nat)
    requires Possible(w, e) && WorldOk(initial, w)
    ensures WorldOk(initial, Step(cfg, w, e, now))
  {
    match e {
      case Place(o, sagaId, request, mid) => PlaceKeeps(cfg, initial, w, o, sagaId, request, now, mid);
      case Orchestrate(o, a) => OrchestrateKeeps(cfg, initial, w, o, a, now);
      case PaymentEvent(s) =>
        hide OrdersOk, NetworkOk, AllEarned, Service.Step, ServiceFrom, SP.InProtocol;
        hide IP.InProtocol, SI.ReceiptsStay, MailFrom, AnswersFrom;
        ServiceStepKeeps(Payments, PaymentParticipant, w.network, w.payments, s);
        PaymentKeeps(initial, w, Service.Step(Payments, w.payments, s));
      case ShipmentEvent(s) =>
        hide OrdersOk, NetworkOk, AllEarned, Service.Step, ServiceFrom, SP.InProtocol;
        hide IP.InProtocol, SI.ReceiptsStay, MailFrom, AnswersFrom;
        ServiceStepKeeps(Shipments, ShippingParticipant, w.network, w.shipments, s);
        ShipmentKeeps(initial, w, Service.Step(Shipments, w.shipments, s));
      case InventoryEvent(s) =>
        hide OrdersOk, NetworkOk, AllEarned, Inventory.Step, ServiceFrom, SP.InProtocol;
        hide IP.InProtocol, II.StockEvolves, MailFrom, AnswersFrom;
        InventoryStepKeeps(initial, w.network, w.inventory, s);
        InventoryKeeps(initial, w, Inventory.Step(w.inventory, s));
    }
  }
}
