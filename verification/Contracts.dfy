/** The vocabulary shared by the orchestrator and the participants: operations, commands,
    results and message envelopes (shared/src/contracts.ts, shared/src/messaging/contracts.ts).

    UUIDs are compared only after lower-casing and are generated fresh, so they are numbers here.
    A command fingerprint is the hash of the command without its idempotency key; hashes are taken
    to be collision-free, so the fingerprint is that content itself. */
module Contracts {

  type Uuid = nat

  datatype Option<+T> = None | Some(value: T)

  function Get<K, V>(m: map<K, V>, k: K): Option<V> {
    if k in m then Some(m[k]) else None
  }

  datatype Operation =
    | ChargePayment | RefundPayment
    | ReserveInventory | ReleaseInventory | FinalizeInventory
    | CreateShipment | CancelShipment

  datatype SagaStep = PaymentStep | InventoryStep | ShippingStep

  datatype Currency = USD | BDT

  datatype PaymentMethod = COD | BankTransfer

  datatype Item = Item(productId: Uuid, quantity: nat)

  /** A string of the language: UTF-16 code units. */
  type Unit = u: nat | u < 0x10000
  type Text = seq<Unit>

  /** AddressSchema, with its two optional fields. */
  datatype Address = Address(
    recipient: Text, line1: Text, line2: Option<Text>, city: Text, region: Option<Text>,
    postalCode: Text, countryCode: Text)

  /** An accepted order. */
  datatype OrderPayload = OrderPayload(
    customerId: Uuid,
    items: seq<Item>,
    amountMinor: nat,
    currency: Currency,
    paymentMethod: PaymentMethod,
    address: Address)

  datatype CommandPayload =
    | ChargePayload(customerId: Uuid, amountMinor: nat, currency: Currency, paymentMethod: PaymentMethod)
    | ItemsPayload(items: seq<Item>)
    | ShipmentPayload(items: seq<Item>, address: Address)
    | EmptyPayload

  /** Keys made by `commandKey` and any other text a direct caller may choose. */
  datatype Key = SagaKey(sagaId: Uuid, operation: Operation) | ClientKey(text: string)

  datatype Command = Command(orderId: Uuid, sagaId: Uuid, key: Key, operation: Operation, payload: CommandPayload)

  datatype Content = Content(orderId: Uuid, sagaId: Uuid, operation: Operation, payload: CommandPayload)

  function Fingerprint(c: Command): Content {
    Content(c.orderId, c.sagaId, c.operation, c.payload)
  }

  /** CHARGED, CREATED, RESERVED and FINALIZED carry a reference; REFUNDED, RELEASED and
      CANCELLED are `Undone`; a compensation that found nothing to undo answers NOOP. */
  datatype Data = Applied(reference: Uuid) | Undone | Noop

  datatype FailureCode =
    | PaymentDeclined | InsufficientStock | ShippingRejected
    | IdempotencyConflict | AlreadyCompensated | InvalidState

  datatype Outcome = Succeeded(data: Data) | Failed(code: FailureCode) | Unknown

  datatype Result = Result(orderId: Uuid, sagaId: Uuid, key: Key, operation: Operation, outcome: Outcome)

  function ResultFor(c: Command, outcome: Outcome): Result {
    Result(c.orderId, c.sagaId, c.key, c.operation, outcome)
  }

  /** Message ids are generated fresh. A command message gets one result, so its id determines one
      for the result: ids of command messages are taken even, ids of results odd. */
  function ResultId(command: Uuid): Uuid { 2 * command + 1 }

  datatype ResultEnvelope = ResultEnvelope(messageId: Uuid, causationId: Uuid, result: Result)

  datatype Participant = PaymentParticipant | InventoryParticipant | ShippingParticipant

  function Owner(op: Operation): Participant {
    match op
    case ChargePayment | RefundPayment => PaymentParticipant
    case CreateShipment | CancelShipment => ShippingParticipant
    case ReserveInventory | ReleaseInventory | FinalizeInventory => InventoryParticipant
  }

  /** How an orchestrator uses keys and ids: a key names the saga and the operation, an order has
      one saga, and an operation is asked of an order in one way only. */
  predicate Disciplined(sent: set<Command>) {
    && (forall c | c in sent :: c.key == SagaKey(c.sagaId, c.operation))
    && (forall c, d | c in sent && d in sent :: c.orderId == d.orderId <==> c.sagaId == d.sagaId)
    && (forall c, d | c in sent && d in sent && c.orderId == d.orderId && c.operation == d.operation :: c == d)
  }
}
