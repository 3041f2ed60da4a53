/** The external providers. The payment and the shipping provider are the same machine under
    other names, as are the two services that call them, so both carry a `Kind`
    (services/payment-service/src/providers/local-provider.ts,
     services/shipping-service/src/providers/local-provider.ts). */
module Provider {
  import opened Contracts

  datatype Kind = Payments | Shipments

  function ForwardOp(kind: Kind): Operation {
    if kind == Payments then ChargePayment else CreateShipment
  }

  function ReverseOp(kind: Kind): Operation {
    if kind == Payments then RefundPayment else CancelShipment
  }

  /** PAYMENT_DECLINED and SHIPPING_REJECTED */
  function Rejection(kind: Kind): FailureCode {
    if kind == Payments then PaymentDeclined else ShippingRejected
  }

  /** CHARGED or CREATED; REFUNDED or CANCELLED; NOOP for an order undone before it was done. */
  datatype AccountStatus = LiveAccount | UndoneAccount | NoopAccount

  datatype Account = Account(sagaId: Uuid, content: Option<Content>, status: AccountStatus, reference: Option<Uuid>)

  datatype Cached = Cached(content: Content, outcome: Outcome)

  datatype Tables = Tables(accounts: map<Uuid, Account>, requests: map<Key, Cached>)

  datatype Mode = SuccessMode | RejectMode | TimeoutAfterSuccess

  /** The transaction id is a hash of the order id, so it stands for the order. */
  function ReferenceOf(orderId: Uuid): Uuid { orderId }

  /** What the provider decides about a command whose key it has not seen. */
  function Decide(kind: Kind, account: Option<Account>, c: Command, mode: Mode): (Option<Account>, Outcome) {
    if account.Some? && account.value.sagaId != c.sagaId then (account, Failed(IdempotencyConflict))
    else if c.operation == ReverseOp(kind) then
      match account
      case None => (Some(Account(c.sagaId, None, NoopAccount, None)), Succeeded(Noop))
      case Some(a) =>
        (Some(a.(status := if a.status == NoopAccount then NoopAccount else UndoneAccount)),
         Succeeded(if a.status == LiveAccount then Undone else Noop))
    else if account.Some? && account.value.status != LiveAccount then (account, Failed(AlreadyCompensated))
    else if account.Some? && account.value.content != Some(Fingerprint(c)) then (account, Failed(IdempotencyConflict))
    else if mode == RejectMode then (account, Failed(Rejection(kind)))
    else
      var reference := if account.Some? && account.value.reference.Some? then account.value.reference.value
        else ReferenceOf(c.orderId);
      (if account.Some? then account else Some(Account(c.sagaId, Some(Fingerprint(c)), LiveAccount, Some(reference))),
       Succeeded(Applied(reference)))
  }

  /** One provider transaction and the reply to it. */
  function Execute(kind: Kind, t: Tables, c: Command, mode: Mode): (Tables, Outcome) {
    if c.key in t.requests then
      (t, if t.requests[c.key].content == Fingerprint(c) then t.requests[c.key].outcome
       else Failed(IdempotencyConflict))
    else
      var (account, outcome) := Decide(kind, Get(t.accounts, c.orderId), c, mode);
      (Tables(if account.Some? then t.accounts[c.orderId := account.value] else t.accounts,
              t.requests[c.key := Cached(Fingerprint(c), outcome)]),
       if outcome.Succeeded? && mode == TimeoutAfterSuccess then Unknown else outcome)
  }
}
