/** The saga's cursor: which operation comes next, forwards or backwards
    (services/order-orchestrator/src/saga/stateMachine.ts and compensate.ts). */
module StateMachine {
  import opened Contracts

  datatype Status = PendingPayment | InProgress | Compensating | CompletedOrder | FailedOrder

  /** The columns of `saga_instances` that place a saga in its protocol. */
  datatype Progress = Progress(
    status: Status,
    operation: Operation,
    step: SagaStep,
    completed: seq<SagaStep>,
    compensated: seq<SagaStep>,
    finalized: bool)

  predicate IsForward(op: Operation) {
    op in {ChargePayment, ReserveInventory, CreateShipment, FinalizeInventory}
  }

  /** FORWARD_OPERATIONS.indexOf */
  function ForwardIndex(op: Operation): nat
    requires IsForward(op)
  {
    match op
    case ChargePayment => 0
    case ReserveInventory => 1
    case CreateShipment => 2
    case FinalizeInventory => 3
  }

  function NextForward(op: Operation): Operation
    requires IsForward(op) && op != FinalizeInventory
  {
    match op
    case ChargePayment => ReserveInventory
    case ReserveInventory => CreateShipment
    case CreateShipment => FinalizeInventory
  }

  function StepFor(op: Operation): SagaStep
    requires IsForward(op)
  {
    match op
    case ChargePayment => PaymentStep
    case ReserveInventory => InventoryStep
    case CreateShipment | FinalizeInventory => ShippingStep
  }

  function ReverseOf(step: SagaStep): Operation {
    match step
    case PaymentStep => RefundPayment
    case InventoryStep => ReleaseInventory
    case ShippingStep => CancelShipment
  }

  const ALL_STEPS: seq<SagaStep> := [PaymentStep, InventoryStep, ShippingStep]

  /** The steps that must be complete while `op` is the current operation. */
  function ExpectedSteps(op: Operation): seq<SagaStep>
    requires IsForward(op)
  {
    ALL_STEPS[..ForwardIndex(op)]
  }

  function Reversed<T>(s: seq<T>): (r: seq<T>)
    ensures |r| == |s|
    ensures forall i :: 0 <= i < |s| ==> r[i] == s[|s| - 1 - i]
  {
    if s == [] then [] else Reversed(s[1..]) + [s[0]]
  }

  /** What `next` answers: a thrown error, no further work, or an operation for a step. */
  datatype Cursor = Inconsistent | Finished | Next(operation: Operation, step: SagaStep)

  function NextCompensation(p: Progress): Cursor {
    var expected :=
      if p.operation == ReserveInventory then [PaymentStep]
      else if p.operation == CreateShipment then [PaymentStep, InventoryStep]
      else [];
    var reverse := Reversed(expected);
    if
      || p.status != Compensating
      || p.finalized
      || expected == []
      || p.step != (if |expected| == 1 then InventoryStep else ShippingStep)
      || p.completed != expected
      || |p.compensated| > |reverse|
      || p.compensated != reverse[..|p.compensated|]
    then Inconsistent
    else if |p.compensated| == |reverse| then Finished
    else Next(ReverseOf(reverse[|p.compensated|]), reverse[|p.compensated|])
  }

  /** `BrokerOrderService.next`; a persisted operation that is not a forward one throws as well. */
  function NextOperation(p: Progress): Cursor {
    if p.status == Compensating then NextCompensation(p)
    else if !IsForward(p.operation) then Inconsistent
    else if
      || p.status != InProgress
      || p.finalized
      || p.compensated != []
      || p.step != StepFor(p.operation)
      || p.completed != ExpectedSteps(p.operation)
    then Inconsistent
    else Next(p.operation, StepFor(p.operation))
  }

  /** The cursor answers only for forward columns, and forwards only the current operation. */
  lemma NextShape(p: Progress)
    requires NextOperation(p).Next?
    ensures IsForward(p.operation)
    ensures p.status != Compensating ==> p.status == InProgress && NextOperation(p).operation == p.operation
  {
  }

  function CommandPayloadFor(op: Operation, order: OrderPayload): CommandPayload {
    match op
    case ChargePayment => ChargePayload(order.customerId, order.amountMinor, order.currency, order.paymentMethod)
    case ReserveInventory => ItemsPayload(order.items)
    case CreateShipment => ShipmentPayload(order.items, order.address)
    case _ => EmptyPayload
  }

  function BuildCommand(op: Operation, orderId: Uuid, sagaId: Uuid, order: OrderPayload): Command {
    Command(orderId, sagaId, SagaKey(sagaId, op), op, CommandPayloadFor(op, order))
  }

  // ---------- What a command asks for, in the order's own terms ----------

  predicate Charges(details: CommandPayload, order: OrderPayload) {
    && details.ChargePayload?
    && details.customerId == order.customerId && details.amountMinor == order.amountMinor
    && details.currency == order.currency && details.paymentMethod == order.paymentMethod
  }

  predicate Reserves(details: CommandPayload, order: OrderPayload) {
    details.ItemsPayload? && details.items == order.items
  }

  predicate Ships(details: CommandPayload, order: OrderPayload) {
    details.ShipmentPayload? && details.items == order.items && details.address == order.address
  }

  /** The command asks for what the order says, for no one else, and nothing more. */
  predicate Carries(c: Command, order: OrderPayload) {
    match c.operation
    case ChargePayment => Charges(c.payload, order)
    case ReserveInventory => Reserves(c.payload, order)
    case CreateShipment => Ships(c.payload, order)
    case _ => c.payload == EmptyPayload
  }

  lemma BuiltCarries(op: Operation, orderId: Uuid, sagaId: Uuid, order: OrderPayload)
    ensures
      var c := BuildCommand(op, orderId, sagaId, order);
      && c.orderId == orderId && c.sagaId == sagaId && c.operation == op && c.key == SagaKey(sagaId, op)
      && Carries(c, order)
  {
  }

  /** The failure that ends a forward operation for good; every other failure is retried. */
  function RejectionOf(op: Operation): Option<FailureCode> {
    match op
    case ChargePayment => Some(PaymentDeclined)
    case ReserveInventory => Some(InsufficientStock)
    case CreateShipment => Some(ShippingRejected)
    case _ => None
  }

  predicate IsRejection(op: Operation, code: FailureCode) {
    RejectionOf(op) == Some(code)
  }

  /** What the schema of results asks of a success: a reference exactly for a forward operation
      (shared/src/contracts.ts:90-99). */
  predicate FitsSchema(op: Operation, outcome: Outcome) {
    outcome.Succeeded? ==> (outcome.data.Applied? <==> IsForward(op))
  }

  /** The states a saga may be committed in: everything the cursor checks at run time, and more. */
  predicate Coherent(p: Progress) {
    && IsForward(p.operation)
    && p.step == StepFor(p.operation)
    && p.completed == ExpectedSteps(p.operation)
    && (p.finalized <==> p.status == CompletedOrder)
    && match p.status
       case PendingPayment => p.operation == ChargePayment && p.compensated == []
       case InProgress => p.compensated == []
       case CompletedOrder => p.operation == FinalizeInventory && p.compensated == []
       case Compensating =>
         && p.operation in {ReserveInventory, CreateShipment}
         && |p.compensated| <= |p.completed|
         && p.compensated == Reversed(p.completed)[..|p.compensated|]
       case FailedOrder =>
         p.operation != FinalizeInventory && p.compensated == Reversed(p.completed)
  }

  lemma CompensationCursor(p: Progress)
    requires Coherent(p) && p.status == Compensating
    ensures NextCompensation(p) ==
      if |p.compensated| == |p.completed| then Finished
      else
        var step := p.completed[|p.completed| - 1 - |p.compensated|];
        Next(ReverseOf(step), step)
  {
    assert p.operation == ReserveInventory ==> p.completed == [PaymentStep];
    assert p.operation == CreateShipment ==> p.completed == [PaymentStep, InventoryStep];
  }

  /** In a coherent state the cursor throws exactly when the saga is not running, forward work is
      the current operation, and compensation undoes the latest step that still stands. */
  lemma CoherentCursor(p: Progress)
    requires Coherent(p)
    ensures NextOperation(p) == Inconsistent <==> p.status !in {InProgress, Compensating}
    ensures p.status == InProgress ==> NextOperation(p) == Next(p.operation, p.step)
    ensures p.status == Compensating ==>
      NextOperation(p) ==
        if |p.compensated| == |p.completed| then Finished
        else
          var step := p.completed[|p.completed| - 1 - |p.compensated|];
          Next(ReverseOf(step), step)
  {
    hide NextCompensation, Reversed;
    if p.status == Compensating { CompensationCursor(p); }
  }

  // ---------- The abstract saga ----------

  /** The protocol both engines implement, as moves of the progress columns alone. */
  predicate Confirms(p: Progress, q: Progress) {
    p.status == PendingPayment && q == p.(status := InProgress)
  }

  predicate Advances(p: Progress, q: Progress) {
    && p.status == InProgress && IsForward(p.operation) && p.operation != FinalizeInventory
    && q == p.(
         completed := p.completed + [p.step],
         operation := NextForward(p.operation),
         step := StepFor(NextForward(p.operation)))
  }

  predicate Completes(p: Progress, q: Progress) {
    p.status == InProgress && p.operation == FinalizeInventory && q == p.(status := CompletedOrder, finalized := true)
  }

  /** A definite rejection; finalization has none. */
  predicate Rejects(p: Progress, q: Progress) {
    && p.status == InProgress && RejectionOf(p.operation).Some?
    && q == p.(status := if p.completed == [] then FailedOrder else Compensating)
  }

  predicate Undoes(p: Progress, q: Progress) {
    && p.status == Compensating && |p.compensated| < |p.completed|
    && q == p.(compensated := p.compensated + [p.completed[|p.completed| - 1 - |p.compensated|]])
  }

  predicate GivesUp(p: Progress, q: Progress) {
    p.status == Compensating && |p.compensated| == |p.completed| && q == p.(status := FailedOrder)
  }

  /** One abstract step, or none. */
  predicate AbstractStep(p: Progress, q: Progress) {
    p == q || Confirms(p, q) || Advances(p, q) || Completes(p, q) || Rejects(p, q) || Undoes(p, q) || GivesUp(p, q)
  }

  lemma AbstractStepKeepsCoherence(p: Progress, q: Progress)
    requires Coherent(p) && AbstractStep(p, q)
    ensures Coherent(q)
  {
    hide Reversed;
    if Undoes(p, q) {
      UndoingKeepsCoherence(p, q);
    } else if GivesUp(p, q) {
      GivingUpKeepsCoherence(p, q);
    }
  }

  lemma UndoingKeepsCoherence(p: Progress, q: Progress)
    requires Coherent(p) && Undoes(p, q)
    ensures Coherent(q)
  {
    var r := Reversed(p.completed);
    assert r[..|p.compensated| + 1] == r[..|p.compensated|] + [r[|p.compensated|]];
  }

  lemma GivingUpKeepsCoherence(p: Progress, q: Progress)
    requires Coherent(p) && GivesUp(p, q)
    ensures Coherent(q)
  {
    var r := Reversed(p.completed);
    assert r[..|r|] == r;
  }

  /** Terminal states are never left, and an order being finalized can no longer be undone. */
  lemma NoWayBack(p: Progress, q: Progress)
    requires Coherent(p) && AbstractStep(p, q)
    ensures p.status in {CompletedOrder, FailedOrder} ==> q == p
    ensures p.operation == FinalizeInventory ==>
      q.operation == FinalizeInventory && q.status in {InProgress, CompletedOrder}
    ensures p.status == Compensating ==> q.status in {Compensating, FailedOrder} && q.operation == p.operation
    ensures p.completed <= q.completed && p.compensated <= q.compensated
  {
  }

  // ---------- Paths of the abstract saga ----------

  /** How progress columns are related over any number of steps. */
  predicate NoReturn(p: Progress, q: Progress) {
    && (p.status in {CompletedOrder, FailedOrder} ==> q == p)
    && (p.operation == FinalizeInventory ==>
        q.operation == FinalizeInventory && q.status in {InProgress, CompletedOrder})
    && (p.status == Compensating ==> q.status in {Compensating, FailedOrder} && q.operation == p.operation)
    && p.completed <= q.completed && p.compensated <= q.compensated
  }

  lemma NoReturnChains(p: Progress, q: Progress, q': Progress)
    requires NoReturn(p, q) && NoReturn(q, q')
    ensures NoReturn(p, q')
  {
  }

  /** Consecutive progress columns are abstract steps. */
  predicate StepsOnly(path: seq<Progress>) {
    forall i :: 0 <= i < |path| - 1 ==> AbstractStep(path[i], path[i + 1])
  }

  /** The path leads from one progress to another by abstract steps. */
  predicate Leads(path: seq<Progress>, p: Progress, q: Progress) {
    path != [] && path[0] == p && path[|path| - 1] == q && StepsOnly(path)
  }

  /** However long the path, a finished saga stays, an order being finalized is never undone, and
      a compensating one only ever fails. */
  lemma {:induction false} PathsNeverGoBack(path: seq<Progress>, p: Progress, q: Progress)
    requires Leads(path, p, q) && Coherent(p)
    ensures Coherent(q) && NoReturn(p, q)
    decreases |path|
  {
    if |path| > 1 {
      var front := path[..|path| - 1];
      var last := front[|front| - 1];
      assert Leads(front, p, last);
      PathsNeverGoBack(front, p, last);
      assert AbstractStep(path[|path| - 2], path[|path| - 2 + 1]);
      AbstractStepKeepsCoherence(last, q);
      NoWayBack(last, q);
      NoReturnChains(p, last, q);
    }
  }
}
