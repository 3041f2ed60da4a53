/** The inventory service under the orchestrator's protocol: it is sent only commands from a
    growing, disciplined set; a release or a finalization is asked for only after the reservation
    answered success, and never both for one order. */
module InventoryProtocol {
  import opened Contracts
  import opened Mailbox
  import opened Inventory
  import opened InventoryInvariant

  function AnswerAt(s: State, key: Key): Option<Outcome> {
    if key in s.stock.receipts then Some(s.stock.receipts[key].outcome) else None
  }

  predicate Done(s: State, key: Key) {
    AnswerAt(s, key).Some? && AnswerAt(s, key).value.Succeeded?
  }

  predicate Protocol(sent: set<Command>) {
    && Disciplined(sent)
    && (forall c | c in sent :: WellFormed(c) && Normalize(c) == c)
    && (forall c, d | c in sent && d in sent && c.operation == ReleaseInventory && d.operation == FinalizeInventory ::
          c.orderId != d.orderId)
  }

  predicate Rely(s: State, sent: set<Command>) {
    && Protocol(sent)
    && (forall c | c in sent && c.operation in {ReleaseInventory, FinalizeInventory} ::
        Done(s, SagaKey(c.sagaId, ReserveInventory)))
  }

  function Cause(key: Key, content: Content): Command {
    Command(content.orderId, content.sagaId, key, content.operation, content.payload)
  }

  function ReserveOf(r: Reservation): Command
    requires r.content.Some?
  {
    Cause(SagaKey(r.sagaId, ReserveInventory), r.content.value)
  }

  predicate WasSent(o: Uuid, r: Reservation, sent: set<Command>) {
    && r.content.Some? && ReserveOf(r) in sent
    && (r.status == Released ==> Command(o, r.sagaId, SagaKey(r.sagaId, ReleaseInventory), ReleaseInventory,
                                         EmptyPayload) in sent)
    && (r.status == Finalized ==> Command(o, r.sagaId, SagaKey(r.sagaId, FinalizeInventory), FinalizeInventory,
                                          EmptyPayload) in sent)
  }

  predicate SentOnly(s: State, sent: set<Command>) {
    && (forall k | k in s.stock.receipts :: Cause(k, s.stock.receipts[k].content) in sent)
    && (forall o | o in s.stock.reservations :: WasSent(o, s.stock.reservations[o], sent))
    && (forall a | a in s.answers :: a.command in sent)
    && (forall m | m in s.mail.inbox :: s.mail.inbox[m] in sent)
  }

  /** The only refusal is a reservation for lack of stock. */
  predicate Benign(op: Operation, outcome: Outcome) {
    match outcome
    case Unknown => false
    case Succeeded(_) => true
    case Failed(code) => op == ReserveInventory && code == InsufficientStock
  }

  /** An answer is the completed receipt's answer. */
  predicate Told(receipts: map<Key, Receipt>, c: Command, outcome: Outcome) {
    c.key in receipts && receipts[c.key] == Receipt(Fingerprint(c), outcome)
  }

  predicate MailOk(s: State) {
    && Coupled(s.mail)
    && (forall a | a in s.answers :: Told(s.stock.receipts, a.command, a.outcome))
    && (forall i | 0 <= i < |s.mail.outbox| ::
          && s.mail.outbox[i].causationId in s.mail.inbox
          && Told(s.stock.receipts, s.mail.inbox[s.mail.outbox[i].causationId], s.mail.outbox[i].result.outcome))
  }

  predicate AllBenign(s: State) {
    forall k | k in s.stock.receipts :: Benign(s.stock.receipts[k].content.operation, s.stock.receipts[k].outcome)
  }

  ghost predicate InProtocol(initial: map<Uuid, nat>, s: State, sent: set<Command>) {
    && BooksOk(s.stock) && Conserved(initial, s.stock)
    && Rely(s, sent) && SentOnly(s, sent) && AllBenign(s) && MailOk(s)
  }

  // ---------- Keys and rows are the order's own ----------

  lemma KeyDetermines(s: State, sent: set<Command>, c: Command)
    requires Disciplined(sent) && SentOnly(s, sent) && c in sent && c.key in s.stock.receipts
    ensures s.stock.receipts[c.key].content == Fingerprint(c)
  {
    var d := Cause(c.key, s.stock.receipts[c.key].content);
    assert d in sent;
    assert d.sagaId == c.sagaId && d.operation == c.operation;
    assert c == d;
  }

  /** The order's reservation belongs to the order's saga, and its own reserve command made it. */
  lemma RowsAreOwn(s: State, sent: set<Command>, c: Command)
    requires Disciplined(sent) && SentOnly(s, sent) && BooksOk(s.stock)
    requires c in sent && c.orderId in s.stock.reservations
    ensures var r := s.stock.reservations[c.orderId];
      && r.sagaId == c.sagaId && r.content.Some?
      && (c.operation == ReserveInventory ==> r.content == Some(Fingerprint(c)))
  {
    var r := s.stock.reservations[c.orderId];
    assert ReservationOk(c.orderId, r) && WasSent(c.orderId, r, sent);
    var d := ReserveOf(r);
    assert d in sent && d.orderId == c.orderId;
  }

  /** A successful reserve answer is the row's. */
  lemma DoneRow(s: State, sent: set<Command>, c: Command)
    requires Disciplined(sent) && SentOnly(s, sent) && BooksOk(s.stock)
    requires c in sent && Done(s, SagaKey(c.sagaId, ReserveInventory))
    ensures c.orderId in s.stock.reservations
    ensures s.stock.reservations[c.orderId].result == AnswerAt(s, SagaKey(c.sagaId, ReserveInventory))
  {
    var k := SagaKey(c.sagaId, ReserveInventory);
    var d := Cause(k, s.stock.receipts[k].content);
    assert d in sent && d.sagaId == c.sagaId && d.operation == ReserveInventory;
    assert ReceiptOk(s.stock.receipts[k], Get(s.stock.reservations, d.orderId));
  }

  // ---------- New commands ----------

  /** What is known about a sent command whose key is new. */
  predicate Expected(c: Command, r: Option<Reservation>) {
    match c.operation
    case ReserveInventory =>
      r.Some? ==>
        r.value.sagaId == c.sagaId && r.value.content == Some(Fingerprint(c))
        && r.value.status in {Reserved, FailedReservation}
    case ReleaseInventory =>
      r.Some? && r.value.sagaId == c.sagaId && r.value.result.Some? && r.value.result.value.Succeeded?
        && r.value.status != Finalized
    case FinalizeInventory =>
      r.Some? && r.value.sagaId == c.sagaId && r.value.result.Some? && r.value.result.value.Succeeded?
        && r.value.status != Released
    case _ => false
  }

  lemma NewCommandsAreExpected(initial: map<Uuid, nat>, s: State, sent: set<Command>, c: Command)
    requires InProtocol(initial, s, sent) && c in sent && c.key !in s.stock.receipts
    ensures Expected(c, Get(s.stock.reservations, c.orderId))
  {
    hide Conserved, MailOk, ReceiptOk;
    if c.orderId in s.stock.reservations {
      RowsAreOwn(s, sent, c);
      var r := s.stock.reservations[c.orderId];
      assert WasSent(c.orderId, r, sent);
    }
    if c.operation != ReserveInventory {
      DoneRow(s, sent, c);
    }
  }

  lemma ExpectedIsBenign(products: map<Uuid, Product>, r: Option<Reservation>, c: Command, sent: set<Command>)
    requires WellFormed(c) && RowOk(c.orderId, r) && Expected(c, r)
    requires c in sent && c.key == SagaKey(c.sagaId, c.operation)
    requires r.Some? ==> WasSent(c.orderId, r.value, sent)
    ensures
      var d := Decide(products, r, c);
      && d.Some? && Benign(c.operation, d.value.outcome)
      && d.value.reservation.Some? && WasSent(c.orderId, d.value.reservation.value, sent)
  {
    hide InStock, Taken, Returned;
  }

  /** One sent command: the answer is benign and is, from then on, the receipt's. */
  lemma ExecuteIsBenign(initial: map<Uuid, nat>, s: State, sent: set<Command>, c: Command)
    requires InProtocol(initial, s, sent) && c in sent
    ensures WellFormed(c) && !Execute(s.stock, c).Aborted?
    ensures Execute(s.stock, c).Early? ==> Told(s.stock.receipts, c, Execute(s.stock, c).outcome)
    ensures Execute(s.stock, c).Committed? ==>
      var s' := s.(stock := Execute(s.stock, c).stock);
      && InProtocol(initial, s', sent) && StockEvolves(s.stock, s'.stock)
      && Told(s'.stock.receipts, c, Execute(s.stock, c).outcome)
  {
    hide Conserved, ReceiptOk, ReservationOk, Decide, Benign, Expected, Coupled, WasSent, Evolves, Normalize;
    ExecuteIsSound(initial, s.stock, c);
    if c.key in s.stock.receipts {
      KeyDetermines(s, sent, c);
    } else {
      NewCommandsAreExpected(initial, s, sent, c);
      var r := Get(s.stock.reservations, c.orderId);
      ExpectedIsBenign(s.stock.products, r, c, sent);
      var s' := s.(stock := Execute(s.stock, c).stock);
      RelyStays(s, s', sent);
      assert SentOnly(s', sent) by {
        assert Cause(c.key, Fingerprint(c)) == c;
      }
      MailStays(s, s');
    }
  }

  lemma RelyStays(s: State, s': State, sent: set<Command>)
    requires Rely(s, sent) && StockEvolves(s.stock, s'.stock)
    ensures Rely(s', sent)
  {
    hide Protocol, Evolves;
  }

  lemma MailStays(s: State, s': State)
    requires MailOk(s) && StockEvolves(s.stock, s'.stock) && s'.mail == s.mail && s'.answers == s.answers
    ensures MailOk(s')
  {
    hide Coupled, Evolves;
  }

  // ---------- Steps ----------

  lemma AnswerStays(initial: map<Uuid, nat>, s: State, sent: set<Command>, message: Uuid, c: Command, outcome: Outcome)
    requires InProtocol(initial, s, sent) && c in sent && Told(s.stock.receipts, c, outcome)
    ensures InProtocol(initial, s.(answers := s.answers + {Return(message, c, outcome)}), sent)
  {
    hide BooksOk, Conserved, Coupled, WasSent, Told, Protocol;
  }

  lemma CommitStays(initial: map<Uuid, nat>, s: State, sent: set<Command>, message: Uuid, c: Command, outcome: Outcome)
    requires InProtocol(initial, s, sent) && c in sent && Told(s.stock.receipts, c, outcome)
    ensures InProtocol(initial, s.(mail := Commit(s.mail, message, c, outcome)), sent)
  {
    hide BooksOk, Conserved, WasSent, Told, Protocol, Coupled;
    var mail := Commit(s.mail, message, c, outcome);
    CommitKeepsCoupled(s.mail, message, c, outcome);
    forall i | 0 <= i < |mail.outbox|
      ensures mail.outbox[i].causationId in mail.inbox
           && Told(s.stock.receipts, mail.inbox[mail.outbox[i].causationId], mail.outbox[i].result.outcome)
    {
      if i < |s.mail.outbox| {
        assert mail.outbox[i] == s.mail.outbox[i];
      }
    }
  }

  lemma DropStays(initial: map<Uuid, nat>, s: State, sent: set<Command>, a: Return)
    requires InProtocol(initial, s, sent)
    ensures InProtocol(initial, s.(answers := s.answers - {a}), sent)
  {
    hide BooksOk, Conserved, WasSent, Told, Protocol, Coupled;
  }

  /** Protocol compatibility: no step makes the service throw or answer with a conflict, and
      every answer is the completed receipt's. */
  lemma StepStaysInProtocol(initial: map<Uuid, nat>, s: State, sent: set<Command>, e: Event)
    requires InProtocol(initial, s, sent) && Possible(e)
    requires e.Deliver? || e.Direct? ==> e.command in sent
    ensures InProtocol(initial, Step(s, e), sent) && StockEvolves(s.stock, Step(s, e).stock)
  {
    hide InProtocol, Execute, Told, StockEvolves, Commit;
    NothingEvolves(s.stock);
    match e {
      case Deliver(message, c) =>
        SentIsNormal(initial, s, sent, c);
        ExecuteIsBenign(initial, s, sent, c);
        match Execute(s.stock, c) {
          case Early(outcome) => AnswerStays(initial, s, sent, message, c, outcome);
          case Committed(stock, outcome) =>
            var s1 := s.(stock := stock);
            AnswerStays(initial, s1, sent, message, c, outcome);
            CommitStays(initial, s1.(answers := s.answers + {Return(message, c, outcome)}), sent, message, c, outcome);
          case Aborted => assert false;
        }
      case Direct(c) =>
        SentIsNormal(initial, s, sent, c);
        ExecuteIsBenign(initial, s, sent, c);
      case Acknowledge(a) =>
        if a in s.answers {
          AnswersAreTold(initial, s, sent, a);
          DropStays(initial, s, sent, a);
          CommitStays(initial, s.(answers := s.answers - {a}), sent, a.message, a.command, a.outcome);
        }
      case Lose(a) => DropStays(initial, s, sent, a);
    }
  }

  lemma NothingEvolves(s: Stock)
    ensures StockEvolves(s, s)
  {
  }

  lemma SentIsNormal(initial: map<Uuid, nat>, s: State, sent: set<Command>, c: Command)
    requires InProtocol(initial, s, sent) && c in sent
    ensures Normalize(c) == c
  {
    hide BooksOk, Conserved, SentOnly, MailOk, AllBenign, Normalize;
  }

  lemma AnswersAreTold(initial: map<Uuid, nat>, s: State, sent: set<Command>, a: Return)
    requires InProtocol(initial, s, sent) && a in s.answers
    ensures a.command in sent && Told(s.stock.receipts, a.command, a.outcome)
  {
    hide BooksOk, Conserved, Coupled, Rely, AllBenign, Told;
  }

  /** Sending one more command, if it fits the protocol. */
  lemma SendingKeepsProtocol(initial: map<Uuid, nat>, s: State, sent: set<Command>, sent': set<Command>)
    requires InProtocol(initial, s, sent) && sent <= sent' && Rely(s, sent')
    ensures InProtocol(initial, s, sent')
  {
    hide BooksOk, Conserved, Rely, MailOk, AllBenign;
  }

  // ---------- What the answers mean ----------

  /** A refused reservation holds nothing and never will. */
  lemma RejectedMeansFailed(initial: map<Uuid, nat>, s: State, sent: set<Command>, c: Command)
    requires InProtocol(initial, s, sent) && c in sent && c.operation == ReserveInventory
    requires AnswerAt(s, c.key).Some? && AnswerAt(s, c.key).value.Failed?
    ensures c.orderId in s.stock.reservations && s.stock.reservations[c.orderId].status in {FailedReservation, Released}
  {
    hide Conserved, MailOk;
    KeyDetermines(s, sent, c);
    assert ReceiptOk(s.stock.receipts[c.key], Get(s.stock.reservations, c.orderId));
    assert ReservationOk(c.orderId, s.stock.reservations[c.orderId]);
  }

  /** A completed release or finalization is the reservation's last word. */
  lemma ClosedMeansClosed(initial: map<Uuid, nat>, s: State, sent: set<Command>, c: Command)
    requires InProtocol(initial, s, sent) && c in sent && Done(s, c.key)
    ensures c.operation == ReleaseInventory ==>
      c.orderId in s.stock.reservations && s.stock.reservations[c.orderId].status == Released
    ensures c.operation == FinalizeInventory ==>
      c.orderId in s.stock.reservations && s.stock.reservations[c.orderId].status == Finalized
  {
    hide Conserved, MailOk;
    KeyDetermines(s, sent, c);
    assert ReceiptOk(s.stock.receipts[c.key], Get(s.stock.reservations, c.orderId));
  }

  // ---------- What the answer will be ----------

  /** A reservation once decided stays decided; a new one depends on the shelf. Nothing else that
      the orchestrator asks for is refused. */
  predicate Grants(s: Stock, c: Command)
    requires WellFormed(c)
  {
    c.operation == ReserveInventory ==>
      if c.orderId in s.reservations then s.reservations[c.orderId].result.Some?
        && s.reservations[c.orderId].result.value.Succeeded?
      else InStock(s.products, c.payload.items)
  }

  lemma DecideGrants(s: Stock, c: Command)
    requires WellFormed(c) && RowOk(c.orderId, Get(s.reservations, c.orderId))
    requires Expected(c, Get(s.reservations, c.orderId))
    ensures
      var d := Decide(s.products, Get(s.reservations, c.orderId), c);
      d.Some? && !d.value.outcome.Unknown? && (d.value.outcome.Succeeded? <==> Grants(s, c))
  {
    hide InStock, Taken, Returned;
  }

  lemma ReceiptGrants(s: Stock, c: Command)
    requires WellFormed(c) && c.key in s.receipts && s.receipts[c.key].content == Fingerprint(c)
    requires ReceiptOk(s.receipts[c.key], Get(s.reservations, c.orderId))
    requires Benign(c.operation, s.receipts[c.key].outcome)
    ensures s.receipts[c.key].outcome.Succeeded? <==> Grants(s, c)
  {
  }

  /** The service always answers a sent command, and this is what it says. */
  lemma ExecuteGrants(initial: map<Uuid, nat>, s: State, sent: set<Command>, c: Command)
    requires InProtocol(initial, s, sent) && c in sent
    ensures WellFormed(c) && !Execute(s.stock, c).Aborted?
    ensures !Execute(s.stock, c).outcome.Unknown? && (Execute(s.stock, c).outcome.Succeeded? <==> Grants(s.stock, c))
  {
    hide Conserved, Coupled, Decide, Benign, Expected, Grants, ReceiptOk, ReservationOk, WasSent, Normalize;
    if c.key in s.stock.receipts {
      KeyDetermines(s, sent, c);
      ReceiptGrants(s.stock, c);
      BenignIsDefinite(c.operation, s.stock.receipts[c.key].outcome);
    } else {
      NewCommandsAreExpected(initial, s, sent, c);
      DecideGrants(s.stock, c);
    }
  }

  lemma BenignIsDefinite(op: Operation, outcome: Outcome)
    requires Benign(op, outcome)
    ensures !outcome.Unknown?
  {
  }

  /** An order for which no reservation was asked has none. */
  lemma UnsentMeansAbsent(initial: map<Uuid, nat>, s: State, sent: set<Command>, o: Uuid)
    requires InProtocol(initial, s, sent)
    requires forall d | d in sent && d.orderId == o :: d.operation != ReserveInventory
    ensures o !in s.stock.reservations
  {
    hide Conserved, MailOk;
    assert forall p | p in s.stock.reservations ::
        ReservationOk(p, s.stock.reservations[p]) && WasSent(p, s.stock.reservations[p], sent)
        && ReserveOf(s.stock.reservations[p]).orderId == p;
  }

  lemma StartsInProtocol(products: map<Uuid, Product>)
    requires forall p | p in products :: products[p].available >= 0
    ensures InProtocol(Initially(products), State(Stock(products, map[], map[]), {}, Mail(map[], [])), {})
  {
  }
}
