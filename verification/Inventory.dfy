/** The inventory service (services/inventory-service/src/inventory/service.ts). One command is
    one transaction, serialised per order; the message handler's commit hook runs inside it,
    except on the early returns, where the handler commits the answer on its own. */
module Inventory {
  import opened Contracts
  import opened Basket
  import opened Mailbox

  datatype Product = Product(active: bool, available: int)

  datatype ReservationStatus = PendingReservation | Reserved | Released | Finalized | FailedReservation

  /** A row of `reservations` with its items; `content` is the reserve fingerprint. */
  datatype Reservation = Reservation(
    sagaId: Uuid, status: ReservationStatus, content: Option<Content>, result: Option<Outcome>, items: seq<Item>)

  /** A row of `command_receipts`; it is inserted and completed in one transaction. */
  datatype Receipt = Receipt(content: Content, outcome: Outcome)

  datatype Stock = Stock(
    products: map<Uuid, Product>, reservations: map<Uuid, Reservation>, receipts: map<Key, Receipt>)

  /** The command schemas. */
  predicate WellFormed(c: Command) {
    match c.operation
    case ReserveInventory => c.payload.ItemsPayload? && ValidBasket(c.payload.items)
    case ReleaseInventory | FinalizeInventory => c.payload.EmptyPayload?
    case _ => false
  }

  /** Items are sorted before the fingerprint is taken. */
  function Normalize(c: Command): Command {
    if c.payload.ItemsPayload? then c.(payload := ItemsPayload(Sort(c.payload.items))) else c
  }

  /** Reservation ids are generated once per order, so the order stands for its reservation. */
  function ReservationId(orderId: Uuid): Uuid { orderId }

  predicate InStock(products: map<Uuid, Product>, items: seq<Item>) {
    forall i :: 0 <= i < |items| ==>
      var p := items[i].productId;
      p in products && products[p].active && items[i].quantity <= products[p].available
  }

  function Taken(products: map<Uuid, Product>, items: seq<Item>): map<Uuid, Product> {
    map p | p in products :: products[p].(available := products[p].available - Quantity(items, p))
  }

  function Returned(products: map<Uuid, Product>, items: seq<Item>): map<Uuid, Product> {
    map p | p in products :: products[p].(available := products[p].available + Quantity(items, p))
  }

  // ---------- One command ----------

  /** What a command does to the products and to its order's reservation. */
  datatype Change = Change(products: map<Uuid, Product>, reservation: Option<Reservation>, outcome: Outcome)

  function Reserve(products: map<Uuid, Product>, existing: Option<Reservation>, c: Command): Change
    requires c.payload.ItemsPayload?
  {
    if existing.Some? && existing.value.content.Some? && existing.value.content != Some(Fingerprint(c)) then
      Change(products, existing, Failed(IdempotencyConflict))
    else if existing.Some? && existing.value.status == Released
      then Change(products, existing, Failed(AlreadyCompensated))
    else if existing.Some? && existing.value.status == Finalized then Change(products, existing, Failed(InvalidState))
    else if existing.Some? && existing.value.result.Some? then Change(products, existing, existing.value.result.value)
    else if !InStock(products, c.payload.items) then
      var refused := Failed(InsufficientStock);
      Change(products, Some(Reservation(c.sagaId, FailedReservation, Some(Fingerprint(c)), Some(refused), [])), refused)
    else
      var granted := Succeeded(Applied(ReservationId(c.orderId)));
      Change(Taken(products, c.payload.items),
             Some(Reservation(c.sagaId, Reserved, Some(Fingerprint(c)), Some(granted), c.payload.items)), granted)
  }

  /** None when the code throws: a reserved order without items. */
  function Release(products: map<Uuid, Product>, existing: Option<Reservation>, c: Command): Option<Change> {
    match existing
    case None => Some(Change(products, Some(Reservation(c.sagaId, Released, None, None, [])), Succeeded(Noop)))
    case Some(r) =>
      match r.status
      case Finalized => Some(Change(products, existing, Failed(InvalidState)))
      case Reserved =>
        if r.items == [] then None
        else Some(Change(Returned(products, r.items), Some(r.(status := Released)), Succeeded(Undone)))
      case FailedReservation => Some(Change(products, Some(r.(status := Released)), Succeeded(Noop)))
      case Released => Some(Change(products, Some(r.(status := Released)), Succeeded(Noop)))
      case PendingReservation => Some(Change(products, existing, Failed(InvalidState)))
  }

  function Finalize(products: map<Uuid, Product>, existing: Option<Reservation>, c: Command): Change {
    if existing.Some? && existing.value.status in {Reserved, Finalized} then
      Change(products, Some(existing.value.(status := Finalized)), Succeeded(Applied(ReservationId(c.orderId))))
    else Change(products, existing, Failed(InvalidState))
  }

  function Decide(products: map<Uuid, Product>, existing: Option<Reservation>, c: Command): Option<Change>
    requires WellFormed(c)
  {
    if existing.Some? && existing.value.sagaId != c.sagaId
      then Some(Change(products, existing, Failed(IdempotencyConflict)))
    else
      match c.operation
      case ReserveInventory => Some(Reserve(products, existing, c))
      case ReleaseInventory => Release(products, existing, c)
      case FinalizeInventory => Some(Finalize(products, existing, c))
  }

  /** An aborted transaction, an answer that changes nothing, or a completed command. */
  datatype Tx = Aborted | Early(outcome: Outcome) | Committed(stock: Stock, outcome: Outcome)

  function Write(s: Stock, c: Command, change: Change): Stock {
    Stock(change.products,
          if change.reservation.Some? then s.reservations[c.orderId := change.reservation.value] else s.reservations,
          s.receipts[c.key := Receipt(Fingerprint(c), change.outcome)])
  }

  /** `execute` on a normalised command. */
  function Execute(s: Stock, c: Command): Tx
    requires WellFormed(c)
  {
    if c.key in s.receipts then
      Early(if s.receipts[c.key].content == Fingerprint(c) then s.receipts[c.key].outcome
            else Failed(IdempotencyConflict))
    else
      match Decide(s.products, Get(s.reservations, c.orderId), c)
      case None => Aborted
      case Some(change) => Committed(Write(s, c, change), change.outcome)
  }

  // ---------- The service behind its mailbox ----------

  datatype State = State(stock: Stock, answers: set<Return>, mail: Mail)

  datatype Event =
    | Deliver(message: Uuid, command: Command)   // a command message
    | Direct(command: Command)                   // an HTTP call
    | Acknowledge(ret: Return)
    | Lose(ret: Return)                          // a crash before the handler's own commit

  predicate Possible(e: Event) {
    (e.Deliver? || e.Direct?) ==> WellFormed(Normalize(e.command))
  }

  function Step(s: State, e: Event): State
    requires Possible(e)
  {
    match e
    case Deliver(message, command) =>
      var c := Normalize(command);
      (match Execute(s.stock, c)
       case Aborted => s
       case Early(outcome) => s.(answers := s.answers + {Return(message, c, outcome)})
       case Committed(stock, outcome) =>
         if Altered(s.mail, message, c) then s
         else State(stock, s.answers + {Return(message, c, outcome)}, Commit(s.mail, message, c, outcome)))
    case Direct(command) =>
      (match Execute(s.stock, Normalize(command))
       case Committed(stock, _) => s.(stock := stock)
       case _ => s)
    case Acknowledge(ret) =>
      if ret in s.answers
      then s.(answers := s.answers - {ret},
              mail := if Altered(s.mail, ret.message, ret.command) then s.mail
                else Commit(s.mail, ret.message, ret.command, ret.outcome))
      else s
    case Lose(ret) => s.(answers := s.answers - {ret})
  }
}
