/** One exchange between the orchestrator and a participant, from whatever point a history has
    reached: locks are freed by a crash, the pending command goes out in a fresh message, the
    participant is left to work in peace, and its definite answer is delivered. */
module SystemDrive {
  import opened Contracts
  import opened StateMachine
  import opened Broker
  import opened BrokerInvariant
  import opened BrokerLinks
  import opened BrokerEnds
  import opened BrokerProgress
  import opened Mailbox
  import opened Provider
  import opened System
  import opened SystemInvariant
  import opened SystemOrders
  import opened SystemPaths
  import opened SystemRuns
  import opened SystemSteps
  import opened SystemTheorems
  import Service
  import opened ServiceSettles
  import SI = ServiceInvariant
  import SP = ServiceProtocol
  import Inventory
  import II = InventoryInvariant
  import IP = InventoryProtocol

  // ---------- A fresh message ----------

  /** Only this order's slice and the network changed. */
  predicate ByOrder(w: World, w': World, o: Uuid) {
    && o in w.orders && o in w'.orders
    && w' == w.(orders := w.orders[o := w'.orders[o]], network := w'.network)
  }

  /** The order waits for an answer to a message that nobody has seen yet. */
  predicate Waits(w: World, o: Uuid, m: Uuid) {
    && o in w.orders
    && var d := w.orders[o];
       && Active(d.row.progress.status) && !Flagged(d) && d.row.pending == Some(m)
       && ResultId(m) !in d.inbox && m !in w.network
  }

  /** Where the saga stands once it runs. */
  function Started(p: Progress): Progress {
    if p.status == PendingPayment then p.(status := InProgress) else p
  }

  lemma NowIsOk(cfg: Config, products: map<Uuid, Inventory.Product>, h: History)
    requires IsHistory(cfg, products, h)
    ensures h.worlds != [] && WorldOk(II.Initially(products), Now(h))
  {
    hide IsHistory, WorldOk;
    ContinuesItself(cfg, products, h);
    HistoriesStayOk(cfg, products, h, |h.worlds| - 1);
  }

  lemma OrderIsOk(initial: map<Uuid, nat>, w: World, o: Uuid)
    requires WorldOk(initial, w) && o in w.orders
    ensures Ok(w.orders[o]) && w.orders[o].row.orderId == o && Normalized(w.orders[o].row.payload)
  {
    hide NetworkOk, AllEarned, CausesOk, ProtocolOk, Ok, Normalized;
    assert SliceOk(o, w.orders[o]);
  }

  lemma FreshIsUnknown(initial: map<Uuid, nat>, w: World, mid: Uuid)
    requires WorldOk(initial, w) && Fresh(w, mid)
    ensures mid !in w.network
  {
    hide OrdersOk, AllEarned, CausesOk, ProtocolOk;
    assert mid in w.network ==> AtHome(w.orders, mid, w.network[mid]);
  }

  /** A transaction other than a hand-over that leaves a command pending under the new id. */
  lemma ActAnew(cfg: Config, products: map<Uuid, Inventory.Product>, h: History, o: Uuid, a: Action, now: nat,
                mid: Uuid) returns (longer: History)
    requires IsHistory(cfg, products, h) && o in Now(h).orders && Past(h.times, now) && Fresh(Now(h), mid)
    requires NewId(a) == Some(mid) && !a.DoReceive?
    requires forall k | k in Now(h).orders[o].inbox :: k < mid
    ensures IsHistory(cfg, products, longer) && Continues(h, longer) && longer.worlds != []
    ensures ByOrder(Now(h), Now(longer), o) && Now(longer).orders[o] == Perform(cfg, Now(h).orders[o], a, now)
    ensures ResultId(mid) !in Now(longer).orders[o].inbox && mid !in Now(longer).network
  {
    hide IsHistory, Ok, Perform, WorldOk, Fresh, Normalized;
    NowIsOk(cfg, products, h);
    OrderIsOk(II.Initially(products), Now(h), o);
    FreshIsUnknown(II.Initially(products), Now(h), mid);
    InboxGrows(cfg, Now(h).orders[o], a, now);
    longer := Act(cfg, products, h, o, a, now);
  }

  /** A payment is confirmed, or an operator resumes a flagged saga. */
  lemma Restarts(cfg: Config, products: map<Uuid, Inventory.Product>, h: History, o: Uuid)
      returns (longer: History, m: Uuid)
    requires IsHistory(cfg, products, h) && o in Now(h).orders
    requires Now(h).orders[o].row.progress.status == PendingPayment || Flagged(Now(h).orders[o])
    ensures IsHistory(cfg, products, longer) && Continues(h, longer) && longer.worlds != []
    ensures ByOrder(Now(h), Now(longer), o) && Waits(Now(longer), o, m)
    ensures Now(longer).orders[o].row.progress == Started(Now(h).orders[o].row.progress)
  {
    hide IsHistory, Ok, Perform, WorldOk, Fresh, Past, Normalized;
    NowIsOk(cfg, products, h);
    OrderIsOk(II.Initially(products), Now(h), o);
    var d := Now(h).orders[o];
    var now := SomeTime(h.times, 0);
    m := FreshId(Now(h));
    assert m !in d.outbox by { FreshIsFree(Now(h), o, m); }
    RestartKeepsProgress(cfg, d, now, m);
    if d.row.progress.status == PendingPayment {
      longer := ActAnew(cfg, products, h, o, DoConfirm(m), now, m);
    } else {
      longer := ActAnew(cfg, products, h, o, DoResume(m), now, m);
    }
  }

  lemma FreshIsFree(w: World, o: Uuid, mid: Uuid)
    requires Fresh(w, mid) && o in w.orders
    ensures mid !in w.orders[o].outbox
  {
  }

  /** The pending command of a running saga is published. */
  lemma Publishes(cfg: Config, products: map<Uuid, Inventory.Product>, h: History, o: Uuid)
      returns (longer: History)
    requires IsHistory(cfg, products, h) && o in Now(h).orders
    requires Active(Now(h).orders[o].row.progress.status) && !Flagged(Now(h).orders[o])
    ensures IsHistory(cfg, products, longer) && Continues(h, longer) && longer.worlds != []
    ensures ByOrder(Now(h), Now(longer), o)
    ensures
      var d, d' := Now(h).orders[o], Now(longer).orders[o];
      && d'.row == d.row && d.row.pending.Some? && d.row.pending.value in d'.outbox
      && d'.outbox[d.row.pending.value].publishedAt.Some?
  {
    hide IsHistory, Ok, WorldOk, Normalized, Past, NextOperation, CommandIds, HandOver, MarkPublished, Published;
    NowIsOk(cfg, products, h);
    OrderIsOk(II.Initially(products), Now(h), o);
    var d := Now(h).orders[o];
    PendingIsSent(d);
    var m := d.row.pending.value;
    var now := SomeTime(h.times, d.outbox[m].availableAt);
    PublishShape(d, m, now);
    var handed := Act(cfg, products, h, o, DoHandOver(m), now);
    longer := Act(cfg, products, handed, o, DoMarkPublished(m), now);
    ContinuationsChain(h, handed, longer);
  }

  /** When a worker can claim the saga, and the published command's deadline has passed. */
  function Overdue(cfg: Config, d: Slice): nat {
    d.row.nextAttemptAt + (if d.row.lease.Some? then d.row.lease.value.expiresAt else 0)
    + (if d.row.pending.Some? && d.row.pending.value in d.outbox
         && d.outbox[d.row.pending.value].publishedAt.Some?
       then d.outbox[d.row.pending.value].publishedAt.value + cfg.commandTimeout else 0)
  }

  /** After the deadline of the published command, recovery sends it again or gives up. */
  lemma OverdueEnds(cfg: Config, d: Slice, mid: Uuid, now: nat)
    requires Ok(d) && Active(d.row.progress.status) && !Flagged(d) && mid !in d.outbox
    requires d.row.pending.Some? && d.row.pending.value in d.outbox
    requires d.outbox[d.row.pending.value].publishedAt.Some? && Overdue(cfg, d) <= now
    ensures
      var d' := Round(cfg, d, 0, 1, mid, now);
      && d'.row.progress == d.row.progress && (Flagged(d') || d'.row.pending == Some(mid))
      && d'.inbox == d.inbox && Perform(cfg, d, DoClaim(0, 1), now).inbox == d.inbox
      && Perform(cfg, d, DoClaim(0, 1), now).outbox == d.outbox
  {
    hide Ok, Perform;
    RoundEnds(cfg, d, 0, 1, mid, now);
    PerformKeepsOk(cfg, d, DoClaim(0, 1), now);
    InboxGrows(cfg, d, DoClaim(0, 1), now);
    InboxGrows(cfg, Perform(cfg, d, DoClaim(0, 1), now), DoRecover(0, mid), now);
  }

  /** A running saga's command is sent again, or the saga is left to an operator. */
  lemma Recovers(cfg: Config, products: map<Uuid, Inventory.Product>, h: History, o: Uuid)
      returns (longer: History, m: Uuid)
    requires IsHistory(cfg, products, h) && o in Now(h).orders
    requires Active(Now(h).orders[o].row.progress.status) && !Flagged(Now(h).orders[o])
    ensures IsHistory(cfg, products, longer) && Continues(h, longer) && longer.worlds != []
    ensures ByOrder(Now(h), Now(longer), o) && (Flagged(Now(longer).orders[o]) || Waits(Now(longer), o, m))
    ensures Now(longer).orders[o].row.progress == Now(h).orders[o].row.progress
  {
    hide IsHistory, Ok, WorldOk, Normalized, Past, Perform, Fresh, Overdue;
    var ready := Publishes(cfg, products, h, o);
    NowIsOk(cfg, products, ready);
    OrderIsOk(II.Initially(products), Now(ready), o);
    var d := Now(ready).orders[o];
    m := FreshId(Now(ready));
    FreshIsFree(Now(ready), o, m);
    FreshIsUnknown(II.Initially(products), Now(ready), m);
    var now := SomeTime(ready.times, Overdue(cfg, d));
    OverdueEnds(cfg, d, m, now);
    var claimed := Act(cfg, products, ready, o, DoClaim(0, 1), now);
    StaysFresh(Now(ready), Now(claimed), o, m);
    longer := Act(cfg, products, claimed, o, DoRecover(0, m), now);
    ContinuationsChain(ready, claimed, longer);
    ContinuationsChain(h, ready, longer);
  }

  lemma StaysFresh(w: World, w': World, o: Uuid, mid: Uuid)
    requires Fresh(w, mid) && o in w.orders && o in w'.orders && w'.orders == w.orders[o := w'.orders[o]]
    requires w'.orders[o].outbox == w.orders[o].outbox
    ensures Fresh(w', mid)
  {
  }

  /** Whatever state the saga is in, unless it is over: it comes to wait for a message nobody has
      seen. */
  lemma Refreshes(cfg: Config, products: map<Uuid, Inventory.Product>, h: History, o: Uuid)
      returns (longer: History, m: Uuid)
    requires IsHistory(cfg, products, h) && o in Now(h).orders
    requires !Terminal(Now(h).orders[o].row.progress.status)
    ensures IsHistory(cfg, products, longer) && Continues(h, longer) && longer.worlds != []
    ensures ByOrder(Now(h), Now(longer), o) && Waits(Now(longer), o, m)
    ensures Now(longer).orders[o].row.progress == Started(Now(h).orders[o].row.progress)
  {
    hide IsHistory, Waits, Flagged;
    ContinuesItself(cfg, products, h);
    var d := Now(h).orders[o];
    if d.row.progress.status == PendingPayment || Flagged(d) {
      longer, m := Restarts(cfg, products, h, o);
    } else {
      longer, m := Recovers(cfg, products, h, o);
      if Flagged(Now(longer).orders[o]) {
        var given := longer;
        longer, m := Restarts(cfg, products, given, o);
        ContinuationsChain(h, given, longer);
        ByOrderChains(Now(h), Now(given), Now(longer), o);
      }
    }
  }

  lemma ByOrderChains(w: World, w': World, w'': World, o: Uuid)
    requires ByOrder(w, w', o) && ByOrder(w', w'', o)
    ensures ByOrder(w, w'', o)
  {
  }

  // ---------- On the network ----------

  /** The pending command is on the network. */
  predicate Asks(w: World, o: Uuid, m: Uuid) {
    && o in w.orders
    && var d := w.orders[o];
       && Active(d.row.progress.status) && !Flagged(d) && d.row.pending == Some(m)
       && ResultId(m) !in d.inbox && m in d.outbox && d.outbox[m].handed
       && NextOperation(d.row.progress).Next?
       && d.outbox[m].body == CommandBody(CommandFor(d.row, NextOperation(d.row.progress).operation))
       && m in w.network && w.network[m] == CommandFor(d.row, NextOperation(d.row.progress).operation)
  }

  predicate Unseen(w: World, m: Uuid) {
    m !in w.payments.mail.inbox && m !in w.shipments.mail.inbox && m !in w.inventory.mail.inbox
  }

  lemma UnknownToAll(initial: map<Uuid, nat>, w: World, m: Uuid)
    requires WorldOk(initial, w) && m !in w.network
    ensures Unseen(w, m)
  {
    hide OrdersOk, NetworkOk, AllEarned, ProtocolOk, AnswersFrom;
  }

  lemma HandOverShape(cfg: Config, d: Slice, m: Uuid, now: nat)
    requires Ok(d) && m in d.outbox && d.outbox[m].availableAt <= now
    ensures
      var d' := Perform(cfg, d, DoHandOver(m), now);
      && d'.row == d.row && d'.inbox == d.inbox && m in d'.outbox && d'.outbox[m].handed
      && d'.outbox[m].body == d.outbox[m].body
  {
    assert RelayOk(d);
    hide Ok;
  }

  lemma HandsOver(cfg: Config, products: map<Uuid, Inventory.Product>, h: History, o: Uuid, m: Uuid)
      returns (longer: History)
    requires IsHistory(cfg, products, h) && Waits(Now(h), o, m)
    ensures IsHistory(cfg, products, longer) && Continues(h, longer) && longer.worlds != []
    ensures ByOrder(Now(h), Now(longer), o) && Asks(Now(longer), o, m) && Unseen(Now(longer), m)
    ensures Now(longer).orders[o].row == Now(h).orders[o].row
  {
    hide IsHistory, Ok, WorldOk, Normalized, Past, Perform, NextOperation;
    NowIsOk(cfg, products, h);
    OrderIsOk(II.Initially(products), Now(h), o);
    UnknownToAll(II.Initially(products), Now(h), m);
    var d := Now(h).orders[o];
    PendingIsSent(d);
    var now := SomeTime(h.times, d.outbox[m].availableAt);
    HandOverShape(cfg, d, m, now);
    longer := Act(cfg, products, h, o, DoHandOver(m), now);
  }

  /** The order's next command is asked of a participant, in a message nobody has seen. */
  lemma AsksAnew(cfg: Config, products: map<Uuid, Inventory.Product>, h: History, o: Uuid)
      returns (longer: History, m: Uuid)
    requires IsHistory(cfg, products, h) && o in Now(h).orders
    requires !Terminal(Now(h).orders[o].row.progress.status)
    ensures IsHistory(cfg, products, longer) && Continues(h, longer) && longer.worlds != []
    ensures ByOrder(Now(h), Now(longer), o) && Asks(Now(longer), o, m) && Unseen(Now(longer), m)
    ensures Now(longer).orders[o].row.progress == Started(Now(h).orders[o].row.progress)
  {
    hide IsHistory, Waits, Asks, Unseen;
    ContinuesItself(cfg, products, h);
    var waiting;
    waiting, m := Refreshes(cfg, products, h, o);
    longer := HandsOver(cfg, products, waiting, o, m);
    ContinuationsChain(h, waiting, longer);
    ByOrderChains(Now(h), Now(waiting), Now(longer), o);
  }

  // ---------- A payment or shipping service answers ----------

  /** The service works on this message, which it has not answered before. */
  predicate Works(s: Service.State, m: Uuid, c: Command) {
    && c.orderId in s.executions && s.executions[c.orderId].command == c
    && s.executions[c.orderId].message == Some(m) && m !in s.mail.inbox
  }

  function Reply(m: Uuid, c: Command, outcome: Outcome): ResultEnvelope {
    ResultEnvelope(ResultId(m), m, ResultFor(c, outcome))
  }

  /** The service's definite answer to this message is out, and nothing else changed. */
  predicate Answers(w: World, w': World, kind: Kind, m: Uuid, c: Command, outcome: Outcome) {
    && w' == WithService(w, kind, ServiceOf(w', kind)) && !outcome.Unknown?
    && OnlyOwnCalls(ServiceOf(w, kind).provider, ServiceOf(w', kind).provider, c)
    && Reply(m, c, outcome) in ServiceOf(w', kind).mail.outbox
  }

  lemma ServiceIsInProtocol(initial: map<Uuid, nat>, w: World, kind: Kind)
    requires WorldOk(initial, w)
    ensures SP.InProtocol(kind, ServiceOf(w, kind), Sent(w.network, ParticipantOf(kind)))
  {
    hide WorldOk, SP.InProtocol, Sent;
    Protocols(initial, w);
  }

  lemma AtWork(kind: Kind, s: Service.State, sent: set<Command>, c: Command)
    requires SP.InProtocol(kind, s, sent) && c.orderId in s.executions && s.executions[c.orderId].command == c
    ensures SI.At(kind, s, s.executions[c.orderId])
  {
    hide SP.Rely, SP.SentOnly, SP.AllBenign, SI.Consistent;
  }

  /** Step by step, the execution comes to its end. */
  lemma {:induction false} Executes(
    cfg: Config, products: map<Uuid, Inventory.Product>, h: History, kind: Kind, m: Uuid, c: Command, mode: Mode
  ) returns (longer: History, outcome: Outcome)
    requires IsHistory(cfg, products, h) && Works(ServiceOf(Now(h), kind), m, c) && mode != TimeoutAfterSuccess
    ensures IsHistory(cfg, products, longer) && Continues(h, longer) && longer.worlds != []
    ensures Answers(Now(h), Now(longer), kind, m, c, outcome)
    ensures outcome.Succeeded? <==> Foretells(kind, ServiceOf(Now(h), kind), c, mode)
    decreases StepsToCommit(ServiceOf(Now(h), kind).executions[c.orderId].position)
  {
    hide IsHistory, WorldOk, SP.InProtocol, SI.At, Sent, Service.Advance, Foretells;
    NowIsOk(cfg, products, h);
    ServiceIsInProtocol(II.Initially(products), Now(h), kind);
    var s, sent := ServiceOf(Now(h), kind), Sent(Now(h).network, ParticipantOf(kind));
    var x := s.executions[c.orderId];
    AtWork(kind, s, sent, c);
    if x.position.Committing? {
      outcome := x.position.outcome;
      CommitIsForetold(kind, s, sent, x, outcome, mode);
      CommitAnswers(kind, s, x, m, outcome);
      longer := Serve(cfg, products, h, kind, Service.Continue(c.orderId, SuccessMode, true));
      LastAnswer(s.mail.outbox, Reply(m, c, outcome));
    } else {
      AdvanceGoesOn(kind, s, sent, x, mode);
      var next := Serve(cfg, products, h, kind, Service.Continue(c.orderId, mode, true));
      longer, outcome := Executes(cfg, products, next, kind, m, c, mode);
      OwnCallsChain(s.provider, ServiceOf(Now(next), kind).provider, ServiceOf(Now(longer), kind).provider, c);
      ContinuationsChain(h, next, longer);
    }
  }

  lemma LastAnswer(outbox: seq<ResultEnvelope>, env: ResultEnvelope)
    ensures env in outbox + [env]
  {
    assert (outbox + [env])[|outbox|] == env;
  }

  lemma PendingIsSentTo(network: map<Uuid, Command>, m: Uuid, participant: Participant)
    requires m in network && Owner(network[m].operation) == participant
    ensures network[m] in Sent(network, participant) && Carried(network, Some(m), network[m], participant)
  {
  }

  /** A completed command is answered from its receipt. */
  lemma Repeats(
    cfg: Config, products: map<Uuid, Inventory.Product>, h: History, kind: Kind, m: Uuid, c: Command, mode: Mode
  ) returns (longer: History, outcome: Outcome)
    requires IsHistory(cfg, products, h) && Carried(Now(h).network, Some(m), c, ParticipantOf(kind))
    requires Service.WellFormed(kind, c)
    requires
      var s := ServiceOf(Now(h), kind);
      c.orderId !in s.executions && m !in s.mail.inbox && SP.AnswerAt(s, c.key).Some?
    ensures IsHistory(cfg, products, longer) && Continues(h, longer) && longer.worlds != []
    ensures Answers(Now(h), Now(longer), kind, m, c, outcome)
    ensures outcome.Succeeded? <==> Foretells(kind, ServiceOf(Now(h), kind), c, mode)
  {
    hide IsHistory, WorldOk, SP.InProtocol, Sent, Foretells, SP.AnswerAt, Service.Begin, Commit, Service.WellFormed;
    NowIsOk(cfg, products, h);
    ServiceIsInProtocol(II.Initially(products), Now(h), kind);
    var s, sent := ServiceOf(Now(h), kind), Sent(Now(h).network, ParticipantOf(kind));
    CarriedWasSent(Now(h).network, Some(m), c, ParticipantOf(kind));
    ReceiptIsForetold(kind, s, sent, c, mode);
    outcome := SP.AnswerAt(s, c.key).value;
    ReceiptIsThere(s, c.key);
    RepetitionAnswers(kind, s, c, m);
    LastAnswer(s.mail.outbox, Reply(m, c, outcome));
    var told := Serve(cfg, products, h, kind, Service.Start(Some(m), c));
    longer := Serve(cfg, products, told, kind, Service.Acknowledge(Return(m, c, outcome)));
    ContinuationsChain(h, told, longer);
  }

  lemma ReceiptIsThere(s: Service.State, key: Key)
    requires SP.AnswerAt(s, key).Some?
    ensures key in s.receipts
  {
  }

  /** A command that is not completed is executed. */
  lemma ExecutesAnew(
    cfg: Config, products: map<Uuid, Inventory.Product>, h: History, kind: Kind, m: Uuid, c: Command, mode: Mode
  ) returns (longer: History, outcome: Outcome)
    requires IsHistory(cfg, products, h) && Carried(Now(h).network, Some(m), c, ParticipantOf(kind))
    requires Service.WellFormed(kind, c) && mode != TimeoutAfterSuccess
    requires
      var s := ServiceOf(Now(h), kind);
      c.orderId !in s.executions && m !in s.mail.inbox && SP.AnswerAt(s, c.key).None?
    ensures IsHistory(cfg, products, longer) && Continues(h, longer) && longer.worlds != []
    ensures Answers(Now(h), Now(longer), kind, m, c, outcome)
    ensures outcome.Succeeded? <==> Foretells(kind, ServiceOf(Now(h), kind), c, mode)
  {
    hide IsHistory, WorldOk, SP.InProtocol, Sent, Foretells, SP.AnswerAt, Service.Begin, Service.WellFormed;
    NowIsOk(cfg, products, h);
    ServiceIsInProtocol(II.Initially(products), Now(h), kind);
    var s, sent := ServiceOf(Now(h), kind), Sent(Now(h).network, ParticipantOf(kind));
    CarriedWasSent(Now(h).network, Some(m), c, ParticipantOf(kind));
    NewExecution(kind, s, sent, c, m);
    SameProvider(kind, s, Service.Begin(s, Some(m), c), c, mode);
    var begun := Serve(cfg, products, h, kind, Service.Start(Some(m), c));
    longer, outcome := Executes(cfg, products, begun, kind, m, c, mode);
    ContinuationsChain(h, begun, longer);
  }

  /** A crash frees the order's lock. */
  lemma Crashes(cfg: Config, products: map<Uuid, Inventory.Product>, h: History, kind: Kind, c: Command, mode: Mode)
      returns (longer: History)
    requires IsHistory(cfg, products, h)
    ensures IsHistory(cfg, products, longer) && Continues(h, longer) && longer.worlds != [] && h.worlds != []
    ensures
      var s, s' := ServiceOf(Now(h), kind), ServiceOf(Now(longer), kind);
      && Now(longer) == WithService(Now(h), kind, s') && c.orderId !in s'.executions && s'.mail == s.mail
      && s'.provider == s.provider
      && (Foretells(kind, s', c, mode) <==> Foretells(kind, s, c, mode))
  {
    hide IsHistory, Foretells;
    ContinuesItself(cfg, products, h);
    longer := Serve(cfg, products, h, kind, Service.Crash(c.orderId));
    SameProvider(kind, ServiceOf(Now(h), kind), ServiceOf(Now(longer), kind), c, mode);
  }

  /** Whatever the service was doing, and whatever it has done: this message gets its answer. */
  lemma ServiceAnswers(
    cfg: Config, products: map<Uuid, Inventory.Product>, h: History, kind: Kind, m: Uuid, c: Command, mode: Mode
  ) returns (longer: History, outcome: Outcome)
    requires IsHistory(cfg, products, h) && Carried(Now(h).network, Some(m), c, ParticipantOf(kind))
    requires Service.WellFormed(kind, c) && m !in ServiceOf(Now(h), kind).mail.inbox && mode != TimeoutAfterSuccess
    ensures IsHistory(cfg, products, longer) && Continues(h, longer) && longer.worlds != []
    ensures Answers(Now(h), Now(longer), kind, m, c, outcome)
    ensures outcome.Succeeded? <==> Foretells(kind, ServiceOf(Now(h), kind), c, mode)
  {
    hide IsHistory, Foretells, SP.AnswerAt, Service.WellFormed;
    var free := Crashes(cfg, products, h, kind, c, mode);
    if SP.AnswerAt(ServiceOf(Now(free), kind), c.key).Some? {
      longer, outcome := Repeats(cfg, products, free, kind, m, c, mode);
    } else {
      longer, outcome := ExecutesAnew(cfg, products, free, kind, m, c, mode);
    }
    ContinuationsChain(h, free, longer);
  }

  // ---------- The inventory answers ----------

  lemma CommitShows(mail: Mail, m: Uuid, c: Command, outcome: Outcome)
    requires m !in mail.inbox
    ensures Reply(m, c, outcome) in Commit(mail, m, c, outcome).outbox
  {
    LastAnswer(mail.outbox, Reply(m, c, outcome));
  }

  predicate OnlyOwnStock(s: Inventory.Stock, s': Inventory.Stock, c: Command) {
    s'.reservations.Keys - {c.orderId} == s.reservations.Keys - {c.orderId}
  }

  lemma ExecuteIsOnlyOwn(s: Inventory.Stock, c: Command)
    requires Inventory.WellFormed(c)
    ensures Inventory.Execute(s, c).Committed? ==> OnlyOwnStock(s, Inventory.Execute(s, c).stock, c)
  {
    hide Inventory.Decide;
  }

  /** One transaction, or the stored answer and its acknowledgement. */
  lemma InventoryAnswers(cfg: Config, products: map<Uuid, Inventory.Product>, h: History, m: Uuid, c: Command)
      returns (longer: History, outcome: Outcome)
    requires IsHistory(cfg, products, h) && Carried(Now(h).network, Some(m), c, InventoryParticipant)
    requires m !in Now(h).inventory.mail.inbox
    ensures IsHistory(cfg, products, longer) && Continues(h, longer) && longer.worlds != []
    ensures Now(longer) == Now(h).(inventory := Now(longer).inventory) && !outcome.Unknown?
    ensures Reply(m, c, outcome) in Now(longer).inventory.mail.outbox
    ensures Inventory.WellFormed(c) && (outcome.Succeeded? <==> IP.Grants(Now(h).inventory.stock, c))
    ensures OnlyOwnStock(Now(h).inventory.stock, Now(longer).inventory.stock, c)
  {
    hide IsHistory, WorldOk, IP.InProtocol, SP.InProtocol, Sent, Inventory.Execute, Inventory.Normalize;
    hide IP.Grants, Inventory.WellFormed, Commit;
    NowIsOk(cfg, products, h);
    var initial, sent := II.Initially(products), Sent(Now(h).network, InventoryParticipant);
    Protocols(initial, Now(h));
    CarriedWasSent(Now(h).network, Some(m), c, InventoryParticipant);
    IP.SentIsNormal(initial, Now(h).inventory, sent, c);
    IP.ExecuteGrants(initial, Now(h).inventory, sent, c);
    var tx := Inventory.Execute(Now(h).inventory.stock, c);
    outcome := tx.outcome;
    ExecuteIsOnlyOwn(Now(h).inventory.stock, c);
    CommitShows(Now(h).inventory.mail, m, c, outcome);
    longer := Stock(cfg, products, h, Inventory.Deliver(m, c));
    if tx.Early? {
      var told := longer;
      longer := Stock(cfg, products, told, Inventory.Acknowledge(Return(m, c, outcome)));
      ContinuationsChain(h, told, longer);
    }
  }

  // ---------- Any participant answers ----------

  /** The answer to expect to the command, while the providers are in this mode. */
  predicate Promises(w: World, c: Command, mode: Mode) {
    match Owner(c.operation)
    case PaymentParticipant => Foretells(Payments, w.payments, c, mode)
    case ShippingParticipant => Foretells(Shipments, w.shipments, c, mode)
    case InventoryParticipant => Inventory.WellFormed(c) && IP.Grants(w.inventory.stock, c)
  }

  /** Orders, network and participants as they were, but for one participant. */
  predicate ByParticipant(w: World, w': World, participant: Participant) {
    match participant
    case PaymentParticipant => w' == w.(payments := w'.payments)
    case ShippingParticipant => w' == w.(shipments := w'.shipments)
    case InventoryParticipant => w' == w.(inventory := w'.inventory)
  }

  /** Nobody learns of another order or key. */
  predicate Apart(w: World, w': World, c: Command) {
    && OnlyOwnCalls(w.payments.provider, w'.payments.provider, c)
    && OnlyOwnCalls(w.shipments.provider, w'.shipments.provider, c)
    && OnlyOwnStock(w.inventory.stock, w'.inventory.stock, c)
  }

  lemma OwnerAnswers(cfg: Config, products: map<Uuid, Inventory.Product>, h: History, o: Uuid, m: Uuid, mode: Mode)
      returns (longer: History, outcome: Outcome)
    requires IsHistory(cfg, products, h) && Asks(Now(h), o, m) && Unseen(Now(h), m) && mode != TimeoutAfterSuccess
    ensures IsHistory(cfg, products, longer) && Continues(h, longer) && longer.worlds != []
    ensures
      var c := Now(h).network[m];
      && ByParticipant(Now(h), Now(longer), Owner(c.operation)) && Apart(Now(h), Now(longer), c) && !outcome.Unknown?
      && Reply(m, c, outcome) in MailOf(Now(longer), Owner(c.operation)).outbox
      && (outcome.Succeeded? <==> Promises(Now(h), c, mode))
  {
    hide IsHistory, WorldOk, OrdersOk, NetworkOk, Sent, Foretells, IP.Grants, NextOperation;
    hide Service.WellFormed, Inventory.WellFormed, Inventory.Normalize;
    NowIsOk(cfg, products, h);
    var w, c := Now(h), Now(h).network[m];
    OrdersAndNetwork(II.Initially(products), w);
    PendingIsSentTo(w.network, m, Owner(c.operation));
    SentIsWellFormed(w.orders, w.network, Owner(c.operation), c);
    match Owner(c.operation) {
      case PaymentParticipant => longer, outcome := ServiceAnswers(cfg, products, h, Payments, m, c, mode);
      case ShippingParticipant => longer, outcome := ServiceAnswers(cfg, products, h, Shipments, m, c, mode);
      case InventoryParticipant => longer, outcome := InventoryAnswers(cfg, products, h, m, c);
    }
  }

  // ---------- The answer is delivered ----------

  /** What an answer does to the saga's progress. */
  predicate Moves(p: Progress, succeeded: bool, q: Progress) {
    if !succeeded then Rejects(p, q)
    else if p.status == Compensating then Undoes(p, q)
    else if p.operation == FinalizeInventory then Completes(p, q)
    else Advances(p, q)
  }

  lemma RejectionFits(p: Progress, code: FailureCode)
    requires Coherent(p) && NextOperation(p).Next? && IsRejection(NextOperation(p).operation, code)
    ensures p.status == InProgress && RejectionOf(p.operation) == Some(code)
  {
    CoherentCursor(p);
  }

  lemma AnswerLands(cfg: Config, d: Slice, m: Uuid, c: Command, outcome: Outcome, now: nat, mid: Uuid)
      returns (q: Progress)
    requires Ok(d) && Active(d.row.progress.status) && !Flagged(d) && d.row.pending == Some(m)
    requires m in d.outbox && d.outbox[m].handed && d.outbox[m].body == CommandBody(c)
    requires ResultId(m) !in d.inbox && mid !in d.outbox && !outcome.Unknown?
    requires NextOperation(d.row.progress).Next? && c.operation == NextOperation(d.row.progress).operation
    requires outcome.Failed? ==> IsRejection(c.operation, outcome.code)
    ensures Perform(cfg, d, DoReceive(Reply(m, c, outcome), mid), now).row.progress == GoesTo(q)
    ensures Moves(d.row.progress, outcome.Succeeded?, q)
  {
    assert Coherent(d.row.progress);
    hide Ok, Perform, NextOperation, Correlated, GoesTo, Coherent;
    AnswerIsAwaited(d, ResultId(m), outcome);
    if outcome.Failed? { RejectionFits(d.row.progress, outcome.code); }
    var v := AnswerMoves(cfg, d, Reply(m, c, outcome), now, mid);
    q := v.row.progress;
  }

  lemma Delivers(cfg: Config, products: map<Uuid, Inventory.Product>, h: History, o: Uuid, m: Uuid, outcome: Outcome)
      returns (longer: History, q: Progress)
    requires IsHistory(cfg, products, h) && Asks(Now(h), o, m) && !outcome.Unknown?
    requires
      var c := Now(h).network[m];
      Reply(m, c, outcome) in MailOf(Now(h), Owner(c.operation)).outbox
    ensures IsHistory(cfg, products, longer) && Continues(h, longer) && longer.worlds != []
    ensures ByOrder(Now(h), Now(longer), o) && Now(longer).network == Now(h).network
    ensures Now(longer).orders[o].row.progress == GoesTo(q)
    ensures Moves(Now(h).orders[o].row.progress, outcome.Succeeded?, q)
  {
    hide IsHistory, WorldOk, Ok, Perform, NextOperation, Moves, GoesTo, MailOf, Normalized;
    NowIsOk(cfg, products, h);
    OrderIsOk(II.Initially(products), Now(h), o);
    var w, d, c := Now(h), Now(h).orders[o], Now(h).network[m];
    var env := Reply(m, c, outcome);
    DeliveredIsRejection(II.Initially(products), w, env);
    var mid := FreshId(w);
    FreshIsFree(w, o, mid);
    var now := SomeTime(h.times, 0);
    q := AnswerLands(cfg, d, m, c, outcome, now, mid);
    longer := Act(cfg, products, h, o, DoReceive(env, mid), now);
  }

  lemma DeliveredIsRejection(initial: map<Uuid, nat>, w: World, env: ResultEnvelope)
    requires WorldOk(initial, w) && env in MailOf(w, Owner(env.result.operation)).outbox
    ensures env.result.outcome.Failed? ==> IsRejection(env.result.operation, env.result.outcome.code)
  {
    hide WorldOk, AnswerOf, MailOf;
    DeliveredIsTruthful(initial, w, env);
  }

  // ---------- One exchange ----------

  /** The command the order sends next. */
  function NextCommand(d: Slice): Command
    requires NextOperation(Started(d.row.progress)).Next?
  {
    CommandFor(d.row, NextOperation(Started(d.row.progress)).operation)
  }

  /** The order's saga got its answer: it moved as foretold, and nothing changed but the order,
      the network and the participant that answered. */
  ghost predicate Exchanged(w: World, w': World, o: Uuid, mode: Mode) {
    && o in w.orders && o in w'.orders
    && var d, d' := w.orders[o], w'.orders[o];
       && NextOperation(Started(d.row.progress)).Next?
       && var c := NextCommand(d);
          && ByParticipant(w, w'.(orders := w.orders, network := w.network), Owner(c.operation)) && Apart(w, w', c)
          && w'.orders == w.orders[o := d']
          && exists q :: Moves(Started(d.row.progress), Promises(w, c, mode), q) && d'.row.progress == GoesTo(q)
  }

  /** An order stays itself. */
  lemma SameOrder(cfg: Config, products: map<Uuid, Inventory.Product>, h: History, longer: History, o: Uuid)
    requires IsHistory(cfg, products, h) && IsHistory(cfg, products, longer) && Continues(h, longer)
    requires h.worlds != [] && o in Now(h).orders
    ensures longer.worlds != [] && o in Now(longer).orders
    ensures
      var row, row' := Now(h).orders[o].row, Now(longer).orders[o].row;
      && row'.id == row.id && row'.payload == row.payload && row'.orderId == row.orderId == o
      && NoReturn(row.progress, row'.progress)
  {
    hide IsHistory, WorldOk, NoReturn, Ok, Normalized;
    var initial := II.Initially(products);
    NowIsOk(cfg, products, h);
    NowIsOk(cfg, products, longer);
    assert Now(h) == longer.worlds[|h.worlds| - 1];
    HistoriesMoveOn(cfg, products, longer, |h.worlds| - 1, |longer.worlds| - 1);
    OrderIsOk(initial, Now(h), o);
    OrderIsOk(initial, Now(longer), o);
  }

  lemma SamePromise(w: World, w': World, c: Command, mode: Mode)
    requires w'.payments == w.payments && w'.shipments == w.shipments && w'.inventory == w.inventory
    ensures Promises(w', c, mode) <==> Promises(w, c, mode)
  {
  }

  lemma StillAsks(w: World, w': World, o: Uuid, m: Uuid, participant: Participant)
    requires Asks(w, o, m) && ByParticipant(w, w', participant)
    ensures Asks(w', o, m) && w'.orders == w.orders && w'.network == w.network
  {
  }

  lemma ExchangeFits(w: World, asking: World, answered: World, w': World, o: Uuid, m: Uuid, mode: Mode, q: Progress)
    requires ByOrder(w, asking, o) && Asks(asking, o, m) && ByOrder(answered, w', o)
    requires asking.orders[o].row.progress == Started(w.orders[o].row.progress)
    requires CommandFor(asking.orders[o].row, asking.network[m].operation)
          == CommandFor(w.orders[o].row, asking.network[m].operation)
    requires ByParticipant(asking, answered, Owner(asking.network[m].operation))
    requires Apart(asking, answered, asking.network[m])
    requires w'.orders[o].row.progress == GoesTo(q)
    requires Moves(asking.orders[o].row.progress, Promises(asking, asking.network[m], mode), q)
    ensures Exchanged(w, w', o, mode)
  {
    hide Promises, Moves, GoesTo, NextOperation;
    SamePromise(w, asking, asking.network[m], mode);
    assert asking.network[m] == NextCommand(w.orders[o]);
  }

  /** From every point of every history, an order that is not over gets its next answer, and the
      answer is the one that the participants' tables and the mode of the providers foretell. */
  lemma Exchanges(cfg: Config, products: map<Uuid, Inventory.Product>, h: History, o: Uuid, mode: Mode)
      returns (longer: History)
    requires IsHistory(cfg, products, h) && o in Now(h).orders && mode != TimeoutAfterSuccess
    requires !Terminal(Now(h).orders[o].row.progress.status)
    ensures IsHistory(cfg, products, longer) && Continues(h, longer) && longer.worlds != []
    ensures Exchanged(Now(h), Now(longer), o, mode)
  {
    hide IsHistory, Asks, Unseen, Promises, Moves, GoesTo, NextOperation, Continues, NoReturn;
    hide ByParticipant, Exchanged, Apart;
    ContinuesItself(cfg, products, h);
    var asking, m := AsksAnew(cfg, products, h, o);
    SameOrder(cfg, products, h, asking, o);
    AsksCommand(Now(asking), o, m);
    var answered, outcome := OwnerAnswers(cfg, products, asking, o, m, mode);
    StillAsks(Now(asking), Now(answered), o, m, Owner(Now(asking).network[m].operation));
    var q;
    longer, q := Delivers(cfg, products, answered, o, m, outcome);
    ContinuationsChain(h, asking, answered);
    ContinuationsChain(h, answered, longer);
    ExchangeFits(Now(h), Now(asking), Now(answered), Now(longer), o, m, mode, q);
  }

  lemma AsksCommand(w: World, o: Uuid, m: Uuid)
    requires Asks(w, o, m)
    ensures o in w.orders && m in w.network && w.network[m] == CommandFor(w.orders[o].row, w.network[m].operation)
  {
  }
}
