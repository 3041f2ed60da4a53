/** What the inventory service keeps for arbitrary commands under arbitrary keys: stock is
    conserved and never negative, baskets are all or nothing, released and finalized reservations
    stay so, and receipts tell the truth. */
module InventoryInvariant {
  import opened Contracts
  import opened Basket
  import opened Inventory

  // ---------- Stock held by reservations ----------

  function Share(r: Option<Reservation>, p: Uuid): nat {
    if r.Some? && r.value.status in {Reserved, Finalized} then Quantity(r.value.items, p) else 0
  }

  /** The quantity of `p` held by all reserved and finalized reservations. */
  ghost function Held(reservations: map<Uuid, Reservation>, p: Uuid): nat
    decreases |reservations|
  {
    if reservations == map[] then 0
    else
      var o :| o in reservations;
      assert (reservations - {o}).Keys == reservations.Keys - {o};
      Share(Some(reservations[o]), p) + Held(reservations - {o}, p)
  }

  lemma {:induction false} HeldSplits(reservations: map<Uuid, Reservation>, o: Uuid, p: Uuid)
    requires o in reservations
    ensures Held(reservations, p) == Share(Some(reservations[o]), p) + Held(reservations - {o}, p)
    decreases |reservations|
  {
    var q :| q in reservations && Held(reservations, p) == Share(Some(reservations[q]), p)
      + Held(reservations - {q}, p);
    if q != o {
      var without := reservations - {q};
      assert without.Keys == reservations.Keys - {q};
      assert (reservations - {o}).Keys == reservations.Keys - {o};
      HeldSplits(without, o, p);
      HeldSplits(reservations - {o}, q, p);
      assert without - {o} == reservations - {o} - {q};
    }
  }

  lemma HeldAfterUpdate(reservations: map<Uuid, Reservation>, o: Uuid, r: Reservation, p: Uuid)
    ensures Held(reservations[o := r], p) + Share(Get(reservations, o), p) == Held(reservations, p) + Share(Some(r), p)
  {
    HeldSplits(reservations[o := r], o, p);
    if o in reservations {
      HeldSplits(reservations, o, p);
      assert reservations[o := r] - {o} == reservations - {o};
    } else {
      assert reservations[o := r] - {o} == reservations;
    }
  }

  function Initially(products: map<Uuid, Product>): map<Uuid, nat> {
    map p | p in products && products[p].available >= 0 :: products[p].available
  }

  ghost predicate Conserved(initial: map<Uuid, nat>, s: Stock) {
    && s.products.Keys == initial.Keys
    && forall p | p in initial ::
         s.products[p].available >= 0 && s.products[p].available + Held(s.reservations, p) == initial[p]
  }

  // ---------- One reservation ----------

  predicate ReservationOk(o: Uuid, r: Reservation) {
    && r.status != PendingReservation
    && (r.content.Some? <==> r.result.Some?)
    && (r.content.Some? ==>
          && r.content.value.orderId == o && r.content.value.sagaId == r.sagaId
          && r.content.value.operation == ReserveInventory
          && r.result.value in {Succeeded(Applied(ReservationId(o))), Failed(InsufficientStock)})
    && (r.status in {Reserved, Finalized} ==>
          && r.result == Some(Succeeded(Applied(ReservationId(o))))
          && r.items != [] && r.content.value.payload == ItemsPayload(r.items))
    && (r.status == FailedReservation ==> r.result == Some(Failed(InsufficientStock)))
  }

  predicate RowOk(o: Uuid, r: Option<Reservation>) { r.Some? ==> ReservationOk(o, r.value) }

  /** Released and finalized reservations stay; a refused one can only be marked released. */
  predicate Evolves(r: Option<Reservation>, r': Option<Reservation>) {
    r.Some? ==>
      && r'.Some? && r'.value.sagaId == r.value.sagaId
      && r'.value.content == r.value.content && r'.value.result == r.value.result && r'.value.items == r.value.items
      && match r.value.status
         case Released => r'.value.status == Released
         case Finalized => r'.value.status == Finalized
         case FailedReservation => r'.value.status in {FailedReservation, Released}
         case Reserved => r'.value.status in {Reserved, Released, Finalized}
         case PendingReservation => true
  }

  /** The order's reservation is another saga's, or was made for another basket. */
  predicate Clashes(c: Content, r: Option<Reservation>) {
    r.Some? && (r.value.sagaId != c.sagaId || (r.value.content.Some? && r.value.content != Some(c)))
  }

  /** A receipt is backed by the reservation. */
  predicate ReceiptOk(receipt: Receipt, r: Option<Reservation>) {
    match receipt.content.operation
    case ReserveInventory =>
      (match receipt.outcome
       case Unknown => false
       case Succeeded(_) => r.Some? && r.value.content == Some(receipt.content)
         && r.value.result == Some(receipt.outcome)
       case Failed(code) =>
         || (code == IdempotencyConflict && Clashes(receipt.content, r))
         || (code == AlreadyCompensated && !Clashes(receipt.content, r) && r.Some? && r.value.status == Released)
         || (code == InvalidState && !Clashes(receipt.content, r) && r.Some? && r.value.status == Finalized)
         || (r.Some? && r.value.content == Some(receipt.content) && r.value.result == Some(receipt.outcome)))
    case ReleaseInventory =>
      (match receipt.outcome
       case Unknown => false
       case Succeeded(data) =>
         !data.Applied? && r.Some? && r.value.status == Released && r.value.sagaId == receipt.content.sagaId
       case Failed(code) =>
         && r.Some?
         && if r.value.sagaId == receipt.content.sagaId then code == InvalidState && r.value.status == Finalized
            else code == IdempotencyConflict)
    case FinalizeInventory =>
      (match receipt.outcome
       case Unknown => false
       case Succeeded(data) =>
         && r.Some? && r.value.status == Finalized && r.value.sagaId == receipt.content.sagaId
         && r.value.result == Some(receipt.outcome)
       case Failed(code) =>
         || code == InvalidState
         || (code == IdempotencyConflict && r.Some? && r.value.sagaId != receipt.content.sagaId))
    case _ => false
  }

  /** The stock taken from the shelf is exactly what the order's reservation gained. */
  predicate Balanced(products: map<Uuid, Product>, r: Option<Reservation>, change: Change) {
    && change.products.Keys == products.Keys
    && forall p | p in products ::
         && change.products[p].active == products[p].active
         && change.products[p].available + Share(change.reservation, p) == products[p].available + Share(r, p)
         && (products[p].available >= 0 ==> change.products[p].available >= 0)
  }

  lemma InStockCovers(products: map<Uuid, Product>, items: seq<Item>, p: Uuid)
    requires Distinct(items) && InStock(products, items) && p in products && products[p].available >= 0
    ensures Quantity(items, p) <= products[p].available
  {
    if i :| 0 <= i < |items| && items[i].productId == p {
      QuantityOfItem(items, i);
    } else {
      QuantityOfAbsent(items, p);
    }
  }

  lemma ReserveBalances(products: map<Uuid, Product>, r: Option<Reservation>, o: Uuid, c: Command)
    requires WellFormed(c) && c.operation == ReserveInventory && RowOk(o, r)
    ensures Balanced(products, r, Reserve(products, r, c))
  {
    var items := c.payload.items;
    if InStock(products, items) {
      forall p | p in products && products[p].available >= 0 ensures Quantity(items, p) <= products[p].available {
        InStockCovers(products, items, p);
      }
    }
  }

  /** Every command either throws nothing and keeps the books, or is refused. */
  lemma DecideIsSound(products: map<Uuid, Product>, r: Option<Reservation>, c: Command)
    requires WellFormed(c) && RowOk(c.orderId, r)
    ensures
      var d := Decide(products, r, c);
      && d.Some?
      && Balanced(products, r, d.value)
      && RowOk(c.orderId, d.value.reservation) && Evolves(r, d.value.reservation)
      && ReceiptOk(Receipt(Fingerprint(c), d.value.outcome), d.value.reservation)
  {
    if c.operation == ReserveInventory {
      ReserveBalances(products, r, c.orderId, c);
      ReserveIsSound(products, r, c);
    } else {
      OthersAreSound(products, r, c);
    }
  }

  lemma ReserveIsSound(products: map<Uuid, Product>, r: Option<Reservation>, c: Command)
    requires WellFormed(c) && c.operation == ReserveInventory && RowOk(c.orderId, r)
    ensures
      var change := Decide(products, r, c).value;
      && RowOk(c.orderId, change.reservation) && Evolves(r, change.reservation)
      && ReceiptOk(Receipt(Fingerprint(c), change.outcome), change.reservation)
  {
    hide InStock, Taken;
  }

  lemma OthersAreSound(products: map<Uuid, Product>, r: Option<Reservation>, c: Command)
    requires WellFormed(c) && c.operation != ReserveInventory && RowOk(c.orderId, r)
    ensures
      var d := Decide(products, r, c);
      && d.Some?
      && Balanced(products, r, d.value)
      && RowOk(c.orderId, d.value.reservation) && Evolves(r, d.value.reservation)
      && ReceiptOk(Receipt(Fingerprint(c), d.value.outcome), d.value.reservation)
  {
  }

  // ---------- The books ----------

  predicate BooksOk(s: Stock) {
    && (forall o | o in s.reservations :: ReservationOk(o, s.reservations[o]))
    && (forall k | k in s.receipts :: ReceiptOk(s.receipts[k], Get(s.reservations, s.receipts[k].content.orderId)))
  }

  ghost predicate StockEvolves(s: Stock, s': Stock) {
    && (forall o: Uuid :: Evolves(Get(s.reservations, o), Get(s'.reservations, o)))
    && (forall k | k in s.receipts :: k in s'.receipts && s'.receipts[k] == s.receipts[k])
  }

  lemma ReceiptStays(receipt: Receipt, r: Option<Reservation>, r': Option<Reservation>)
    requires ReceiptOk(receipt, r) && Evolves(r, r')
    ensures ReceiptOk(receipt, r')
  {
  }

  lemma WriteKeepsBooks(s: Stock, c: Command, change: Change)
    requires BooksOk(s) && c.key !in s.receipts
    requires RowOk(c.orderId, change.reservation) && Evolves(Get(s.reservations, c.orderId), change.reservation)
    requires ReceiptOk(Receipt(Fingerprint(c), change.outcome), change.reservation)
    ensures BooksOk(Write(s, c, change)) && StockEvolves(s, Write(s, c, change))
  {
    hide ReceiptOk, ReservationOk;
    var s' := Write(s, c, change);
    forall k | k in s'.receipts ensures ReceiptOk(s'.receipts[k],
                                                  Get(s'.reservations, s'.receipts[k].content.orderId)) {
      if k != c.key {
        var o := s.receipts[k].content.orderId;
        ReceiptStays(s.receipts[k], Get(s.reservations, o), Get(s'.reservations, o));
      }
    }
  }

  lemma WriteConserves(initial: map<Uuid, nat>, s: Stock, c: Command, change: Change)
    requires Conserved(initial, s) && Balanced(s.products, Get(s.reservations, c.orderId), change)
    requires Get(s.reservations, c.orderId).Some? ==> change.reservation.Some?
    ensures Conserved(initial, Write(s, c, change))
  {
    hide Share, Held;
    var s' := Write(s, c, change);
    if change.reservation.Some? {
      forall p | p in initial
        ensures s'.products[p].available >= 0 && s'.products[p].available + Held(s'.reservations, p) == initial[p]
      {
        HeldAfterUpdate(s.reservations, c.orderId, change.reservation.value, p);
      }
    }
  }

  /** No command throws on rows the service wrote, and every command keeps the books. */
  lemma ExecuteIsSound(initial: map<Uuid, nat>, s: Stock, c: Command)
    requires WellFormed(c) && BooksOk(s) && Conserved(initial, s)
    ensures !Execute(s, c).Aborted?
    ensures Execute(s, c).Committed? ==>
      var s' := Execute(s, c).stock;
      && BooksOk(s') && Conserved(initial, s') && StockEvolves(s, s')
      && c.key !in s.receipts && c.key in s'.receipts
      && s'.receipts[c.key] == Receipt(Fingerprint(c), Execute(s, c).outcome)
  {
    hide ReceiptOk, ReservationOk, Balanced, Conserved, Decide, Evolves;
    var r := Get(s.reservations, c.orderId);
    assert RowOk(c.orderId, r);
    DecideIsSound(s.products, r, c);
    if c.key !in s.receipts {
      var change := Decide(s.products, r, c).value;
      EvolvingRowsStay(r, change.reservation);
      WriteKeepsBooks(s, c, change);
      WriteConserves(initial, s, c, change);
    }
  }

  lemma EvolvingRowsStay(r: Option<Reservation>, r': Option<Reservation>)
    requires Evolves(r, r')
    ensures r.Some? ==> r'.Some?
  {
  }
}
