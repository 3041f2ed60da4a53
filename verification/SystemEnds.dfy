/** From every world that a history reaches any order can be driven to an end, and to which: the
    participants are the real ones, with all that they have already decided. */
module SystemEnds {
  import opened Contracts
  import opened StateMachine
  import opened Broker
  import opened BrokerInvariant
  import opened BrokerLinks
  import opened BrokerEnds
  import opened Provider
  import opened ServiceSettles
  import opened System
  import opened SystemDrive
  import opened SystemInvariant
  import opened SystemPaths
  import opened SystemRuns
  import opened SystemTheorems
  import SP = ServiceProtocol
  import Inventory
  import II = InventoryInvariant
  import IP = InventoryProtocol

  // ---------- Every answer brings the end nearer ----------

  function Left(p: Progress): nat {
    if Terminal(p.status) then 0
    else if p.status == Compensating then
      1 + (if |p.compensated| < |p.completed| then |p.completed| - |p.compensated| else 0)
    else if IsForward(p.operation) then 9 - ForwardIndex(p.operation) else 0
  }

  lemma AnswersAreProgress(p: Progress, succeeded: bool, q: Progress)
    requires Coherent(p) && NextOperation(p).Next? && Moves(p, succeeded, q)
    ensures Left(GoesTo(q)) < Left(p)
  {
    CoherentCursor(p);
  }

  // ---------- What is promised ----------

  /** Every operation that is left will succeed. */
  predicate Promising(w: World, o: Uuid) {
    && o in w.orders
    && var row := w.orders[o].row;
       && row.progress.status !in {Compensating, FailedOrder} && IsForward(row.progress.operation)
       && forall op | IsForward(op) && ForwardIndex(row.progress.operation) <= ForwardIndex(op) ::
            Promises(w, CommandFor(row, op), SuccessMode)
  }

  /** The saga turns back, or can still be made to at its shipment. */
  predicate Declining(w: World, o: Uuid) {
    && o in w.orders
    && var p := w.orders[o].row.progress;
       && p.status != CompletedOrder
       && (p.status in {Compensating, FailedOrder}
           || (p.operation != FinalizeInventory && o !in w.shipments.provider.accounts))
  }

  lemma StartedIsCoherent(p: Progress)
    requires Coherent(p)
    ensures Coherent(Started(p))
  {
  }

  lemma SuccessGoesOn(p: Progress, q: Progress)
    requires Coherent(p) && p.status !in {Compensating, FailedOrder} && Moves(Started(p), true, q)
    ensures GoesTo(q) == q && IsForward(q.operation)
    ensures q.status == CompletedOrder ==> p.operation == FinalizeInventory && q.operation == FinalizeInventory
    ensures q.status == CompletedOrder || (q.status == InProgress && p.operation != FinalizeInventory
                                           && q.operation == NextForward(p.operation))
  {
  }

  /** One more operation is done, and what was promised about the later ones still holds. */
  lemma PromisingStays(w: World, w': World, o: Uuid)
    requires Promising(w, o) && Exchanged(w, w', o, SuccessMode) && Coherent(w.orders[o].row.progress)
    requires w.orders[o].row.progress.status != CompletedOrder
    requires forall op :: CommandFor(w'.orders[o].row, op) == CommandFor(w.orders[o].row, op)
    ensures Promising(w', o)
  {
    var row, row' := w.orders[o].row, w'.orders[o].row;
    assert Promises(w, CommandFor(row, row.progress.operation), SuccessMode);
    hide Promises, GoesTo, Moves, NextOperation, ByParticipant, Apart, Coherent, CommandPayloadFor;
    StartedIsCoherent(row.progress);
    CoherentCursor(Started(row.progress));
    var c := NextCommand(w.orders[o]);
    var q :| Moves(Started(row.progress), true, q) && row'.progress == GoesTo(q);
    SuccessGoesOn(row.progress, q);
    forall op | IsForward(op) && ForwardIndex(q.operation) <= ForwardIndex(op)
      ensures Promises(w', CommandFor(row', op), SuccessMode)
    {
      OtherPromises(w, w', CommandFor(row, op), Owner(c.operation), SuccessMode);
    }
  }

  lemma OtherPromises(w: World, w': World, c: Command, participant: Participant, mode: Mode)
    requires ByParticipant(w, w'.(orders := w.orders, network := w.network), participant)
    requires Owner(c.operation) != participant || c.operation == FinalizeInventory
    ensures Promises(w', c, mode) <==> Promises(w, c, mode)
  {
  }

  lemma DecliningMoves(p: Progress, succeeded: bool, q: Progress)
    requires Coherent(p) && Moves(p, succeeded, q)
    ensures p.status == Compensating ==> GoesTo(q).status in {Compensating, FailedOrder}
    ensures p.status == InProgress && !succeeded ==> GoesTo(q).status in {Compensating, FailedOrder}
    ensures p.status == InProgress && succeeded && p.operation in {ChargePayment, ReserveInventory} ==>
      GoesTo(q).status == InProgress && GoesTo(q).operation in {ReserveInventory, CreateShipment}
  {
  }

  /** A provider that refuses leaves the shipment as it was, and the saga turns back there at last. */
  lemma DecliningStays(w: World, w': World, o: Uuid)
    requires Declining(w, o) && Exchanged(w, w', o, RejectMode) && Coherent(w.orders[o].row.progress)
    requires w.orders[o].row.progress.status != FailedOrder && w.orders[o].row.orderId == o
    ensures Declining(w', o)
  {
    var p, c := Started(w.orders[o].row.progress), NextCommand(w.orders[o]);
    CoherentCursor(p);
    assert p.status == InProgress ==> c == CommandFor(w.orders[o].row, p.operation);
    assert p.status == InProgress && p.operation == CreateShipment ==> !Promises(w, c, RejectMode);
    hide Promises, NextOperation, GoesTo, Moves;
    var q :| Moves(p, Promises(w, c, RejectMode), q) && w'.orders[o].row.progress == GoesTo(q);
    DecliningMoves(p, Promises(w, c, RejectMode), q);
  }

  lemma EndsAsPromised(w: World, o: Uuid)
    requires o in w.orders && Terminal(w.orders[o].row.progress.status)
    ensures Promising(w, o) ==> HasStatus(w, o, CompletedOrder)
    ensures Declining(w, o) ==> HasStatus(w, o, FailedOrder)
  {
  }

  lemma ExchangeIsProgress(w: World, w': World, o: Uuid, mode: Mode)
    requires Exchanged(w, w', o, mode) && Coherent(w.orders[o].row.progress)
    requires !Terminal(w.orders[o].row.progress.status)
    ensures Left(w'.orders[o].row.progress) < Left(w.orders[o].row.progress)
  {
    hide Promises, GoesTo, Moves, NextOperation, Coherent;
    var p, c := Started(w.orders[o].row.progress), NextCommand(w.orders[o]);
    var q :| Moves(p, Promises(w, c, mode), q) && w'.orders[o].row.progress == GoesTo(q);
    assert Coherent(p) by { StartedIsCoherent(w.orders[o].row.progress); }
    AnswersAreProgress(p, Promises(w, c, mode), q);
  }

  lemma ExchangeKeeps(w: World, w': World, o: Uuid, mode: Mode)
    requires Exchanged(w, w', o, mode) && Coherent(w.orders[o].row.progress)
    requires !Terminal(w.orders[o].row.progress.status)
    requires o in w.orders && o in w'.orders
    requires
      var row, row' := w.orders[o].row, w'.orders[o].row;
      row'.id == row.id && row'.payload == row.payload && row'.orderId == row.orderId == o
    ensures Left(w'.orders[o].row.progress) < Left(w.orders[o].row.progress)
    ensures mode == SuccessMode && Promising(w, o) ==> Promising(w', o)
    ensures mode == RejectMode && Declining(w, o) ==> Declining(w', o)
    ensures Elsewhere(w, w', o, w.orders[o].row.id)
  {
    hide Exchanged, Promising, Declining, Left, Coherent, CommandPayloadFor, Elsewhere;
    ExchangeIsElsewhere(w, w', o, mode);
    ExchangeIsProgress(w, w', o, mode);
    if mode == SuccessMode && Promising(w, o) { PromisingStays(w, w', o); }
    if mode == RejectMode && Declining(w, o) { DecliningStays(w, w', o); }
  }

  // ---------- Elsewhere nothing happens ----------

  /** A provider learned of this order and of its saga's keys at most. */
  ghost predicate SparesOthers(t: Tables, t': Tables, o: Uuid, sagaId: Uuid) {
    && t'.accounts.Keys - {o} == t.accounts.Keys - {o}
    && forall k: Key :: !(k.SagaKey? && k.sagaId == sagaId) ==> (k in t'.requests <==> k in t.requests)
  }

  ghost predicate Elsewhere(w: World, w': World, o: Uuid, sagaId: Uuid) {
    && o in w'.orders && w'.orders == w.orders[o := w'.orders[o]]
    && SparesOthers(w.payments.provider, w'.payments.provider, o, sagaId)
    && SparesOthers(w.shipments.provider, w'.shipments.provider, o, sagaId)
    && w'.inventory.stock.reservations.Keys - {o} == w.inventory.stock.reservations.Keys - {o}
  }

  lemma OwnCallsSpare(t: Tables, t': Tables, c: Command)
    requires OnlyOwnCalls(t, t', c) && c.key == SagaKey(c.sagaId, c.operation)
    ensures SparesOthers(t, t', c.orderId, c.sagaId)
  {
    forall k: Key | !(k.SagaKey? && k.sagaId == c.sagaId) ensures k in t'.requests <==> k in t.requests {
      assert k in t'.requests.Keys - {c.key} <==> k in t.requests.Keys - {c.key};
    }
  }

  lemma ExchangeIsElsewhere(w: World, w': World, o: Uuid, mode: Mode)
    requires Exchanged(w, w', o, mode) && w.orders[o].row.orderId == o
    ensures Elsewhere(w, w', o, w.orders[o].row.id)
  {
    hide Promises, Moves, GoesTo, NextOperation, OnlyOwnCalls, SparesOthers, ByParticipant;
    var c := NextCommand(w.orders[o]);
    OwnCallsSpare(w.payments.provider, w'.payments.provider, c);
    OwnCallsSpare(w.shipments.provider, w'.shipments.provider, c);
  }

  lemma SparingChains(t: Tables, t': Tables, t'': Tables, o: Uuid, sagaId: Uuid)
    requires SparesOthers(t, t', o, sagaId) && SparesOthers(t', t'', o, sagaId)
    ensures SparesOthers(t, t'', o, sagaId)
  {
  }

  lemma ElsewhereChains(w: World, w': World, w'': World, o: Uuid, sagaId: Uuid)
    requires Elsewhere(w, w', o, sagaId) && Elsewhere(w', w'', o, sagaId)
    ensures Elsewhere(w, w'', o, sagaId)
  {
    hide SparesOthers;
    SparingChains(w.payments.provider, w'.payments.provider, w''.payments.provider, o, sagaId);
    SparingChains(w.shipments.provider, w'.shipments.provider, w''.shipments.provider, o, sagaId);
  }

  lemma NothingElsewhere(w: World, o: Uuid)
    requires o in w.orders
    ensures Elsewhere(w, w, o, w.orders[o].row.id)
  {
  }

  // ---------- To the end ----------

  /** Exchange by exchange, the order comes to an end: to COMPLETED if everything left is promised
      and the providers accept, to FAILED if the shipment can still be refused and they refuse. */
  lemma {:induction false} Drives(cfg: Config, products: map<Uuid, Inventory.Product>, h: History, o: Uuid, mode: Mode)
      returns (longer: History)
    requires IsHistory(cfg, products, h) && o in Now(h).orders && mode != TimeoutAfterSuccess
    ensures IsHistory(cfg, products, longer) && Continues(h, longer) && longer.worlds != []
    ensures HasStatus(Now(longer), o, CompletedOrder) || HasStatus(Now(longer), o, FailedOrder)
    ensures mode == SuccessMode && Promising(Now(h), o) ==> HasStatus(Now(longer), o, CompletedOrder)
    ensures mode == RejectMode && Declining(Now(h), o) ==> HasStatus(Now(longer), o, FailedOrder)
    ensures Elsewhere(Now(h), Now(longer), o, Now(h).orders[o].row.id)
    decreases Left(Now(h).orders[o].row.progress)
  {
    hide IsHistory, WorldOk, Exchanged, Promising, Declining, Continues, NoReturn, Left, Coherent, CommandFor;
    hide SparesOthers;
    ContinuesItself(cfg, products, h);
    NothingElsewhere(Now(h), o);
    longer := h;
    if !Terminal(Now(h).orders[o].row.progress.status) {
      var next := Exchanges(cfg, products, h, o, mode);
      SameOrder(cfg, products, h, next, o);
      NowIsOk(cfg, products, h);
      IsCoherent(II.Initially(products), Now(h), o);
      ExchangeKeeps(Now(h), Now(next), o, mode);
      longer := Drives(cfg, products, next, o, mode);
      ContinuationsChain(h, next, longer);
      ElsewhereChains(Now(h), Now(next), Now(longer), o, Now(h).orders[o].row.id);
    } else {
      EndsAsPromised(Now(h), o);
    }
  }

  lemma IsCoherent(initial: map<Uuid, nat>, w: World, o: Uuid)
    requires WorldOk(initial, w) && o in w.orders
    ensures Coherent(w.orders[o].row.progress)
  {
    hide WorldOk, Normalized;
    OrderIsOk(initial, w, o);
  }

  // ---------- What the participants have decided ----------

  predicate ReserveRefused(w: World, o: Uuid) {
    && o in w.inventory.stock.reservations
    && var result := w.inventory.stock.reservations[o].result;
       result.None? || !result.value.Succeeded?
  }

  /** A provider has answered the order's charge or shipment without granting it, or its
      reservation is recorded without success. */
  predicate RefusedOnce(w: World, o: Uuid)
    requires o in w.orders
  {
    || Refuses(Payments, w.payments, o, w.orders[o].row.id)
    || Refuses(Shipments, w.shipments, o, w.orders[o].row.id)
    || ReserveRefused(w, o)
  }

  /** A completed receipt of a service tells what its provider has decided. */
  lemma ServiceReceiptTells(initial: map<Uuid, nat>, w: World, o: Uuid, kind: Kind)
    requires WorldOk(initial, w) && o in w.orders
    ensures
      var answer := AnswerOf(w, w.orders[o].row.id, ForwardOp(kind));
      answer.Some? ==>
        && (answer.value.Succeeded? <==> o in ServiceOf(w, kind).provider.accounts)
        && (answer.value.Succeeded? <==> !Refuses(kind, ServiceOf(w, kind), o, w.orders[o].row.id))
  {
    hide WorldOk, SP.InProtocol, Sent, Refuses, SP.AnswerAt;
    var row := w.orders[o].row;
    if AnswerOf(w, row.id, ForwardOp(kind)).Some? {
      ServiceIsInProtocol(initial, w, kind);
      AnswerWasSent(initial, w, o, ForwardOp(kind));
      var c := CommandFor(row, ForwardOp(kind));
      var s, sent := ServiceOf(w, kind), Sent(w.network, ParticipantOf(kind));
      ReceiptIsForetold(kind, s, sent, c, SuccessMode);
      ReceiptIsForetold(kind, s, sent, c, RejectMode);
    }
  }

  lemma InventoryReceiptTells(initial: map<Uuid, nat>, w: World, o: Uuid)
    requires WorldOk(initial, w) && o in w.orders && AnswerOf(w, w.orders[o].row.id, ReserveInventory).Some?
    ensures o in w.inventory.stock.reservations
    ensures AnswerOf(w, w.orders[o].row.id, ReserveInventory).value.Succeeded? <==> !ReserveRefused(w, o)
  {
    hide WorldOk, SP.InProtocol, IP.InProtocol, Sent;
    Protocols(initial, w);
    AnswerWasSent(initial, w, o, ReserveInventory);
    ReservationTells(initial, w.inventory, Sent(w.network, InventoryParticipant),
                     CommandFor(w.orders[o].row, ReserveInventory));
  }

  lemma ReservationTells(initial: map<Uuid, nat>, s: Inventory.State, sent: set<Command>, c: Command)
    requires IP.InProtocol(initial, s, sent) && c in sent && c.operation == ReserveInventory
    requires IP.AnswerAt(s, c.key).Some?
    ensures c.orderId in s.stock.reservations
    ensures s.stock.reservations[c.orderId].result == IP.AnswerAt(s, c.key)
  {
    hide II.Conserved, IP.MailOk;
    IP.KeyDetermines(s, sent, c);
    assert II.ReceiptOk(s.stock.receipts[c.key], Get(s.stock.reservations, c.orderId));
    assert IP.Benign(c.operation, s.stock.receipts[c.key].outcome);
  }

  lemma TurningTells(p: Progress, done: set<Operation>, rejected: set<Operation>)
    requires Coherent(p) && Earned(p, done, rejected)
    ensures p.status in {Compensating, FailedOrder} ==>
      p.operation in rejected && p.operation in {ChargePayment, ReserveInventory, CreateShipment}
    ensures (p.operation == FinalizeInventory || p.status == CompletedOrder) ==> CreateShipment in done
  {
    assert ForwardIndex(CreateShipment) < ForwardIndex(FinalizeInventory);
  }

  /** A completed refusal shuts one end, and a completed shipment the other; a saga that turned
      back was refused, and one that is being finalized was shipped. */
  lemma AnswersTell(initial: map<Uuid, nat>, w: World, o: Uuid)
    requires WorldOk(initial, w) && o in w.orders
    ensures forall op | op in RejectedFor(w, w.orders[o].row.id) && IsForward(op) && op != FinalizeInventory ::
      RefusedOnce(w, o)
    ensures CreateShipment in DoneFor(w, w.orders[o].row.id) ==> o in w.shipments.provider.accounts
    ensures w.orders[o].row.progress.status in {Compensating, FailedOrder} ==> RefusedOnce(w, o)
    ensures (w.orders[o].row.progress.operation == FinalizeInventory
             || w.orders[o].row.progress.status == CompletedOrder) ==>
      o in w.shipments.provider.accounts
  {
    hide WorldOk, AnswerOf, Refuses, ReserveRefused, Earned;
    var row := w.orders[o].row;
    ServiceReceiptTells(initial, w, o, Payments);
    ServiceReceiptTells(initial, w, o, Shipments);
    if AnswerOf(w, row.id, ReserveInventory).Some? { InventoryReceiptTells(initial, w, o); }
    ProgressAt(initial, w, o);
    TurningTells(row.progress, DoneFor(w, row.id), RejectedFor(w, row.id));
  }

  /** The order's stock is held, or is on the shelf. */
  predicate Stocked(w: World, o: Uuid)
    requires o in w.orders
  {
    o in w.inventory.stock.reservations || Inventory.InStock(w.inventory.stock.products, w.orders[o].row.payload.items)
  }

  lemma WellFormedItems(row: Row, op: Operation)
    requires Normalized(row.payload) && op in {ReserveInventory, FinalizeInventory}
    ensures Inventory.WellFormed(CommandFor(row, op))
  {
  }

  lemma NothingRefused(initial: map<Uuid, nat>, w: World, o: Uuid)
    requires WorldOk(initial, w) && o in w.orders && !RefusedOnce(w, o) && Stocked(w, o)
    ensures Promising(w, o)
  {
    hide WorldOk, Inventory.WellFormed, Inventory.InStock, Ok, Normalized, Refuses;
    AnswersTell(initial, w, o);
    OrderIsOk(initial, w, o);
    IsCoherent(initial, w, o);
    var row := w.orders[o].row;
    WellFormedItems(row, ReserveInventory);
    WellFormedItems(row, FinalizeInventory);
  }

  lemma NothingShipped(initial: map<Uuid, nat>, w: World, o: Uuid)
    requires WorldOk(initial, w) && o in w.orders && o !in w.shipments.provider.accounts
    ensures Declining(w, o)
  {
    hide WorldOk, RefusedOnce, RejectedFor, DoneFor;
    AnswersTell(initial, w, o);
  }
}
