/** Statements about whole runs of the inventory service: any commands, any keys, any order of
    deliveries, acknowledgements and crashes. */
module InventoryTheorems {
  import opened Contracts
  import opened Basket
  import opened Mailbox
  import opened Inventory
  import opened InventoryInvariant

  /** Sorting changes nothing the schema checks. */
  lemma NormalFormsAreWellFormed(c: Command)
    requires WellFormed(c)
    ensures WellFormed(Normalize(c))
  {
    if c.payload.ItemsPayload? {
      SortKeepsValid(c.payload.items);
    }
  }

  // ---------- One reservation ----------

  /** A new basket is reserved exactly when every product is known, active and has enough, and then
      each product gives exactly its quantity and every other product nothing; otherwise the answer
      is INSUFFICIENT_STOCK and nothing is taken. */
  lemma AllOrNothing(s: Stock, c: Command)
    requires WellFormed(c) && c.operation == ReserveInventory
    requires c.orderId !in s.reservations && c.key !in s.receipts
    ensures Execute(s, c).Committed?
    ensures
      var items, tx := c.payload.items, Execute(s, c);
      if forall i :: 0 <= i < |items| ==>
        var p := items[i].productId;
        p in s.products && s.products[p].active && s.products[p].available >= items[i].quantity
      then
        && tx.outcome.Succeeded? && tx.stock.products.Keys == s.products.Keys
        && (forall i :: 0 <= i < |items| ==>
              var p := items[i].productId;
              tx.stock.products[p] == s.products[p].(available := s.products[p].available - items[i].quantity))
        && (forall p | p in s.products && forall i :: 0 <= i < |items| ==> items[i].productId != p ::
              tx.stock.products[p] == s.products[p])
      else tx.outcome == Failed(InsufficientStock) && tx.stock.products == s.products
  {
    var items := c.payload.items;
    if InStock(s.products, items) {
      forall i | 0 <= i < |items| ensures Quantity(items, items[i].productId) == items[i].quantity {
        QuantityOfItem(items, i);
      }
      forall p | p in s.products && forall i :: 0 <= i < |items| ==> items[i].productId != p
        ensures Quantity(items, p) == 0
      {
        QuantityOfAbsent(items, p);
      }
    }
    hide Quantity;
  }

  /** A release gives back exactly what the order's own reservation held, and says so exactly then;
      otherwise no stock moves. Unless it is refused, the reservation is released afterwards. */
  lemma ReleaseGivesBack(s: Stock, c: Command)
    requires BooksOk(s) && WellFormed(c) && c.operation == ReleaseInventory && c.key !in s.receipts
    ensures Execute(s, c).Committed?
    ensures
      var o, tx := c.orderId, Execute(s, c);
      && (tx.outcome == Succeeded(Undone) <==>
            o in s.reservations && s.reservations[o].sagaId == c.sagaId && s.reservations[o].status == Reserved)
      && (forall p | p in s.products ::
            && p in tx.stock.products
            && tx.stock.products[p].available == s.products[p].available
                 + if tx.outcome == Succeeded(Undone) then Quantity(s.reservations[o].items, p) else 0)
      && (if tx.outcome.Succeeded? then o in tx.stock.reservations && tx.stock.reservations[o].status == Released
          else tx.stock.reservations == s.reservations)
      && (tx.outcome.Failed? <==>
            o in s.reservations && (s.reservations[o].sagaId != c.sagaId || s.reservations[o].status == Finalized))
  {
    var o := c.orderId;
    assert o in s.reservations ==> ReservationOk(o, s.reservations[o]);
    assert forall r | Get(s.reservations, o) == Some(r) :: s.reservations[o := r] == s.reservations;
    hide BooksOk, Quantity, ValidBasket;
  }

  /** A finalization moves no stock: it closes the order's own reservation if it holds stock, and
      answers the id the reservation was answered; it is refused exactly when there is no such. */
  lemma FinalizeMovesNothing(s: Stock, c: Command)
    requires BooksOk(s) && WellFormed(c) && c.operation == FinalizeInventory && c.key !in s.receipts
    ensures Execute(s, c).Committed?
    ensures
      var o, tx := c.orderId, Execute(s, c);
      && tx.stock.products == s.products
      && (tx.outcome.Succeeded? <==>
            && o in s.reservations && s.reservations[o].sagaId == c.sagaId
            && s.reservations[o].status in {Reserved, Finalized})
      && (tx.outcome.Succeeded? ==>
            && Some(tx.outcome) == s.reservations[o].result
            && tx.stock.reservations == s.reservations[o := s.reservations[o].(status := Finalized)])
      && (!tx.outcome.Succeeded? ==>
            && tx.stock.reservations == s.reservations
            && tx.outcome == Failed(if o in s.reservations && s.reservations[o].sagaId != c.sagaId
                                    then IdempotencyConflict else InvalidState))
  {
    var o := c.orderId;
    assert o in s.reservations ==> ReservationOk(o, s.reservations[o]);
    assert forall r | Get(s.reservations, o) == Some(r) :: s.reservations[o := r] == s.reservations;
    hide BooksOk, ValidBasket;
  }

  /** The schema's rule that a basket names each product once is needed: without it two lines that
      are in stock one by one would oversell the product. */
  lemma DuplicatesWouldOversell()
    ensures
      var products := map[7 := Product(true, 1)];
      var items := [Item(7, 1), Item(7, 1)];
      InStock(products, items) && Taken(products, items)[7].available == -1
  {
    var items := [Item(7, 1), Item(7, 1)];
    assert items[..1] == [Item(7, 1)];
    assert Quantity(items[..1], 7) == 1;
    assert Quantity(items, 7) == 2;
  }

  /** A reservation repeated with its items in another order is a replay: the receipt's answer
      under the same key, the reservation's answer under another, and no stock moves. */
  lemma ReorderedBasketIsReplay(s: Stock, c: Command, items: seq<Item>, otherKey: Key)
    requires WellFormed(c) && c.operation == ReserveInventory && multiset(items) == multiset(c.payload.items)
    requires c.orderId !in s.reservations && c.key !in s.receipts && otherKey !in s.receipts && otherKey != c.key
    ensures WellFormed(Normalize(c)) && WellFormed(Normalize(c.(payload := ItemsPayload(items))))
    ensures
      var first := Execute(s, Normalize(c));
      var again := Normalize(c.(payload := ItemsPayload(items)));
      && first.Committed?
      && Execute(first.stock, again) == Early(first.outcome)
      && var other := Execute(first.stock, again.(key := otherKey));
         && other.Committed? && other.outcome == first.outcome
         && other.stock.products == first.stock.products && other.stock.reservations == first.stock.reservations
  {
    NormalFormsAreWellFormed(c);
    SameNormalForm(c.payload.items, items);
    assert Normalize(c.(payload := ItemsPayload(items))) == Normalize(c);
    hide Taken, InStock, Sort, ValidBasket, Normalize;
    var n := Normalize(c);
    var change := Reserve(s.products, None, n);
    assert Execute(s, n) == Committed(Write(s, n, change), change.outcome);
    var s' := Write(s, n, change);
    assert s'.reservations[n.orderId := s'.reservations[n.orderId]] == s'.reservations;
  }

  // ---------- Runs ----------

  predicate Backed(receipts: map<Key, Receipt>, c: Command, outcome: Outcome) {
    outcome != Failed(IdempotencyConflict) ==> c.key in receipts && receipts[c.key] == Receipt(Fingerprint(c), outcome)
  }

  predicate MailOk(s: State) {
    && Coupled(s.mail)
    && (forall a | a in s.answers :: Backed(s.stock.receipts, a.command, a.outcome))
    && (forall i | 0 <= i < |s.mail.outbox| ::
          && s.mail.outbox[i].causationId in s.mail.inbox
          && Backed(s.stock.receipts, s.mail.inbox[s.mail.outbox[i].causationId], s.mail.outbox[i].result.outcome))
  }

  ghost predicate Consistent(initial: map<Uuid, nat>, s: State) {
    BooksOk(s.stock) && Conserved(initial, s.stock) && MailOk(s)
  }

  lemma MailSurvives(s: State, s': State)
    requires MailOk(s) && StockEvolves(s.stock, s'.stock) && s'.mail == s.mail && s'.answers == s.answers
    ensures MailOk(s')
  {
    hide Coupled, Evolves;
  }

  lemma AnswerKeepsMail(s: State, a: Return)
    requires MailOk(s) && Backed(s.stock.receipts, a.command, a.outcome)
    ensures MailOk(s.(answers := s.answers + {a}))
    ensures MailOk(s.(answers := s.answers - {a}))
    ensures MailOk(s.(mail := Commit(s.mail, a.message, a.command, a.outcome)))
  {
    hide Coupled, Backed;
    CommitKeepsCoupled(s.mail, a.message, a.command, a.outcome);
    var mail := Commit(s.mail, a.message, a.command, a.outcome);
    forall i | 0 <= i < |mail.outbox|
      ensures mail.outbox[i].causationId in mail.inbox
           && Backed(s.stock.receipts, mail.inbox[mail.outbox[i].causationId], mail.outbox[i].result.outcome)
    {
      if i < |s.mail.outbox| {
        assert mail.outbox[i] == s.mail.outbox[i];
      }
    }
  }

  lemma ExecuteKeepsConsistent(initial: map<Uuid, nat>, s: State, c: Command)
    requires Consistent(initial, s) && WellFormed(c)
    ensures !Execute(s.stock, c).Aborted?
    ensures Execute(s.stock, c).Early? ==> Backed(s.stock.receipts, c, Execute(s.stock, c).outcome)
    ensures Execute(s.stock, c).Committed? ==>
      var s' := s.(stock := Execute(s.stock, c).stock);
      Consistent(initial, s') && StockEvolves(s.stock, s'.stock)
        && Backed(s'.stock.receipts, c, Execute(s.stock, c).outcome)
  {
    hide BooksOk, Conserved, StockEvolves, Decide, MailOk;
    ExecuteIsSound(initial, s.stock, c);
    if Execute(s.stock, c).Committed? {
      MailSurvives(s, s.(stock := Execute(s.stock, c).stock));
    }
  }

  lemma LoseKeepsMail(s: State, a: Return)
    requires MailOk(s)
    ensures MailOk(s.(answers := s.answers - {a}))
  {
    hide Coupled, Backed;
  }

  lemma AnswersAreBacked(s: State, a: Return)
    requires MailOk(s) && a in s.answers
    ensures Backed(s.stock.receipts, a.command, a.outcome)
  {
    hide Coupled, Backed;
  }

  lemma StepKeepsConsistent(initial: map<Uuid, nat>, s: State, e: Event)
    requires Consistent(initial, s) && Possible(e)
    ensures Consistent(initial, Step(s, e)) && StockEvolves(s.stock, Step(s, e).stock)
  {
    hide BooksOk, Conserved, StockEvolves, MailOk, Execute, Backed, Normalize, Commit;
    StaysPut(s.stock);
    match e {
      case Deliver(message, command) =>
        var c := Normalize(command);
        ExecuteKeepsConsistent(initial, s, c);
        match Execute(s.stock, c) {
          case Early(outcome) => AnswerKeepsMail(s, Return(message, c, outcome));
          case Committed(stock, outcome) =>
            var a := Return(message, c, outcome);
            AnswerKeepsMail(s.(stock := stock), a);
            AnswerKeepsMail(s.(stock := stock, answers := s.answers + {a}), a);
          case Aborted => assert false;
        }
      case Direct(command) => ExecuteKeepsConsistent(initial, s, Normalize(command));
      case Acknowledge(a) =>
        if a in s.answers {
          AnswersAreBacked(s, a);
          LoseKeepsMail(s, a);
          AnswerKeepsMail(s.(answers := s.answers - {a}), a);
        }
      case Lose(a) => LoseKeepsMail(s, a);
    }
  }

  lemma StaysPut(s: Stock)
    ensures StockEvolves(s, s)
  {
  }

  datatype Run = Run(states: seq<State>, events: seq<Event>)

  predicate IsRun(products: map<Uuid, Product>, r: Run) {
    && (forall p | p in products :: products[p].available >= 0)
    && |r.states| == |r.events| + 1
    && r.states[0] == State(Stock(products, map[], map[]), {}, Mail(map[], []))
    && (forall i :: 0 <= i < |r.events| ==> Possible(r.events[i]) && r.states[i + 1] == Step(r.states[i], r.events[i]))
  }

  lemma {:induction false} RunsStayConsistent(products: map<Uuid, Product>, r: Run, i: nat)
    requires IsRun(products, r) && i < |r.states|
    ensures Consistent(Initially(products), r.states[i])
  {
    hide Step, Possible, BooksOk, StockEvolves;
    if i == 0 {
      NothingHeld(products);
    } else {
      RunsStayConsistent(products, r, i - 1);
      StepKeepsConsistent(Initially(products), r.states[i - 1], r.events[i - 1]);
    }
  }

  lemma NothingHeld(products: map<Uuid, Product>)
    requires forall p | p in products :: products[p].available >= 0
    ensures Consistent(Initially(products), State(Stock(products, map[], map[]), {}, Mail(map[], [])))
  {
  }

  /** Stock is conserved and never negative: what is on the shelf and what reserved and finalized
      orders hold add up to the initial stock, product by product, at every moment of every run. */
  lemma StockIsConserved(products: map<Uuid, Product>, r: Run, i: nat, p: Uuid)
    requires IsRun(products, r) && i < |r.states| && p in products
    ensures p in r.states[i].stock.products
    ensures r.states[i].stock.products[p].available >= 0
    ensures r.states[i].stock.products[p].available + Held(r.states[i].stock.reservations, p) == products[p].available
  {
    hide BooksOk, MailOk, Step;
    RunsStayConsistent(products, r, i);
    assert p in Initially(products);
  }

  lemma {:induction false} RunsEvolve(products: map<Uuid, Product>, r: Run, i: nat, j: nat)
    requires IsRun(products, r) && i <= j < |r.states|
    ensures StockEvolves(r.states[i].stock, r.states[j].stock)
    decreases j
  {
    hide Step, Possible, StockEvolves, Consistent;
    if i == j {
      StaysPut(r.states[i].stock);
    } else {
      RunsEvolve(products, r, i, j - 1);
      RunsStayConsistent(products, r, j - 1);
      StepKeepsConsistent(Initially(products), r.states[j - 1], r.events[j - 1]);
      StockEvolvesOn(r.states[i].stock, r.states[j - 1].stock, r.states[j].stock);
    }
  }

  lemma EvolvesOn(a: Option<Reservation>, b: Option<Reservation>, c: Option<Reservation>)
    requires Evolves(a, b) && Evolves(b, c)
    ensures Evolves(a, c)
  {
  }

  lemma StockEvolvesOn(a: Stock, b: Stock, c: Stock)
    requires StockEvolves(a, b) && StockEvolves(b, c)
    ensures StockEvolves(a, c)
  {
    hide Evolves;
    forall o: Uuid ensures Evolves(Get(a.reservations, o), Get(c.reservations, o)) {
      EvolvesOn(Get(a.reservations, o), Get(b.reservations, o), Get(c.reservations, o));
    }
  }

  /** RELEASED and FINALIZED are for ever, and a completed key is answered alike for ever. */
  lemma ClosedStaysClosed(products: map<Uuid, Product>, r: Run, i: nat, j: nat, o: Uuid)
    requires IsRun(products, r) && i <= j < |r.states|
    requires o in r.states[i].stock.reservations && r.states[i].stock.reservations[o].status in {Released, Finalized}
    ensures o in r.states[j].stock.reservations
    ensures r.states[j].stock.reservations[o] == r.states[i].stock.reservations[o]
    ensures forall k | k in r.states[i].stock.receipts ::
      k in r.states[j].stock.receipts && r.states[j].stock.receipts[k] == r.states[i].stock.receipts[k]
  {
    hide Step, IsRun;
    RunsEvolve(products, r, i, j);
    assert Evolves(Get(r.states[i].stock.reservations, o), Get(r.states[j].stock.reservations, o));
  }

  /** Every command message has one answer, and an answer other than a conflict is the completed
      receipt's, then and for ever after. */
  lemma ResultsAreBacked(products: map<Uuid, Product>, r: Run, i: nat, j: nat, k: nat)
    requires IsRun(products, r) && i <= j < |r.states| && k < |r.states[i].mail.outbox|
    ensures Coupled(r.states[i].mail)
    ensures
      var result := r.states[i].mail.outbox[k].result;
      result.outcome != Failed(IdempotencyConflict) ==>
        result.key in r.states[j].stock.receipts && r.states[j].stock.receipts[result.key].outcome == result.outcome
  {
    hide Step, IsRun, BooksOk, Conserved;
    RunsStayConsistent(products, r, i);
    RunsEvolve(products, r, i, j);
    var s := r.states[i];
    assert Backed(s.stock.receipts, s.mail.inbox[s.mail.outbox[k].causationId], s.mail.outbox[k].result.outcome);
  }

  // ---------- Refusals and ids ----------

  /** What a completed receipt and the order's reservation say of each other, over every run. A
      reservation is refused as a conflict exactly when the order's reservation is another saga's or
      another basket's; as already compensated only if it was released, as invalid only if it was
      finalized; and for stock only if that is its answer for good. A release is refused exactly
      for a foreign or a finalized reservation. */
  lemma RefusalsAreJust(products: map<Uuid, Product>, r: Run, i: nat, k: Key)
    requires IsRun(products, r) && i < |r.states| && k in r.states[i].stock.receipts
    ensures
      var s := r.states[i].stock;
      var c, outcome := s.receipts[k].content, s.receipts[k].outcome;
      var own := Get(s.reservations, c.orderId);
      match c.operation
      case ReserveInventory =>
        && (outcome == Failed(IdempotencyConflict) <==>
              own.Some? && (own.value.sagaId != c.sagaId || (own.value.content.Some? && own.value.content != Some(c))))
        && (outcome == Failed(AlreadyCompensated) ==> own.Some? && own.value.status == Released)
        && (outcome == Failed(InvalidState) ==> own.Some? && own.value.status == Finalized)
        && (outcome == Failed(InsufficientStock) || outcome.Succeeded? ==>
              own.Some? && own.value.content == Some(c) && own.value.result == Some(outcome))
      case ReleaseInventory =>
        && own.Some?
        && (outcome == Failed(IdempotencyConflict) <==> own.value.sagaId != c.sagaId)
        && (outcome == Failed(InvalidState) <==> own.value.sagaId == c.sagaId && own.value.status == Finalized)
        && (outcome.Succeeded? <==> own.value.sagaId == c.sagaId && own.value.status == Released)
      case FinalizeInventory =>
        && (outcome == Failed(IdempotencyConflict) ==> own.Some? && own.value.sagaId != c.sagaId)
        && (outcome.Succeeded? ==> own.Some? && own.value.sagaId == c.sagaId && own.value.status == Finalized)
      case _ => false
  {
    hide Step, IsRun, Conserved, MailOk;
    RunsStayConsistent(products, r, i);
    var s := r.states[i].stock;
    assert ReceiptOk(s.receipts[k], Get(s.reservations, s.receipts[k].content.orderId));
  }

  /** A reservation id belongs to one order: two answers with the same id, to reservations or to
      finalizations, are answers to the same order, and an order's answers all have the same id. */
  lemma ReservationIdsTell(products: map<Uuid, Product>, r: Run, i: nat, k: Key, l: Key)
    requires IsRun(products, r) && i < |r.states| && k in r.states[i].stock.receipts && l in r.states[i].stock.receipts
    requires r.states[i].stock.receipts[k].outcome.Succeeded? && r.states[i].stock.receipts[k].outcome.data.Applied?
    requires r.states[i].stock.receipts[l].outcome.Succeeded? && r.states[i].stock.receipts[l].outcome.data.Applied?
    ensures r.states[i].stock.receipts[k].outcome == r.states[i].stock.receipts[l].outcome
      <==> r.states[i].stock.receipts[k].content.orderId == r.states[i].stock.receipts[l].content.orderId
  {
    hide Step, IsRun, Conserved, MailOk;
    RunsStayConsistent(products, r, i);
    var s := r.states[i].stock;
    hide ReservationOk, ReceiptOk;
    OwnReservationId(s.receipts[k], Get(s.reservations, s.receipts[k].content.orderId));
    OwnReservationId(s.receipts[l], Get(s.reservations, s.receipts[l].content.orderId));
  }

  lemma OwnReservationId(receipt: Receipt, r: Option<Reservation>)
    requires ReceiptOk(receipt, r) && RowOk(receipt.content.orderId, r)
    ensures receipt.outcome.Succeeded? && receipt.outcome.data.Applied? ==>
      receipt.outcome.data.reference == ReservationId(receipt.content.orderId)
  {
  }
}
