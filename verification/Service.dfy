/** The payment and the shipping service (services/payment-service/src/payments/service.ts and
    services/shipping-service/src/shipments/service.ts).

    One execution is not one transaction: the receipt, the rows, the provider call and the final
    commit are separate steps, and the process may die between any two. A session lock admits
    one execution per order. A provider call that misses its deadline stays in flight and may
    take effect at any later time; `issued` keeps every call ever made, and any of them may
    reach the provider again and again. */
module Service {
  import opened Contracts
  import opened Provider
  import opened Mailbox

  /** PENDING; PAY_ON_DELIVERY; CHARGED or CREATED; REFUNDED or CANCELLED; FAILED. */
  datatype EffectStatus = PendingEffect | OnDelivery | Done | UndoneEffect | FailedEffect

  /** A row of `payments` or `shipments`; stored results are kept without their metadata. */
  datatype Effect = Effect(
    sagaId: Uuid, details: CommandPayload, status: EffectStatus, reference: Option<Uuid>, result: Option<Outcome>)

  datatype UndoStatus = PendingUndo | UndoneUndo | NoopUndo

  /** A row of `refunds` or `shipment_cancellations`; `linked` says it names an existing row. */
  datatype Undo = Undo(sagaId: Uuid, linked: bool, status: UndoStatus)

  /** A row of `command_receipts`; without a result it is PROCESSING. */
  datatype Receipt = Receipt(content: Content, result: Option<Outcome>)

  datatype Position =
    | Opened                          // receipt recorded, rows read
    | Resolving                       // about to settle the forward effect
    | AwaitingForward                 // forward call made
    | GotForward(outcome: Outcome)    // forward reply in hand, row not yet updated
    | Undoing                         // about to call the provider's reverse operation
    | AwaitingReverse                 // reverse call made
    | Committing(outcome: Outcome)    // about to run the final transaction

  /** An execution that holds the order's lock. `effect` and `undo` are the rows as first read. */
  datatype Execution = Execution(
    message: Option<Uuid>, command: Command, effect: Option<Effect>, undo: Option<Undo>, position: Position)

  datatype State = State(
    receipts: map<Key, Receipt>,
    effects: map<Uuid, Effect>,
    undos: map<Uuid, Undo>,
    provider: Tables,
    issued: set<Command>,
    executions: map<Uuid, Execution>,
    answers: set<Return>,
    mail: Mail)

  const EMPTY := State(map[], map[], map[], Tables(map[], map[]), {}, map[], {}, Mail(map[], []))

  /** A cash-on-delivery charge is collected later. */
  function SettledStatus(details: CommandPayload): EffectStatus {
    if details.ChargePayload? && details.paymentMethod == COD then OnDelivery else Done
  }

  function ForwardCall(kind: Kind, orderId: Uuid, e: Effect): Command {
    Command(orderId, e.sagaId, SagaKey(e.sagaId, ForwardOp(kind)), ForwardOp(kind), e.details)
  }

  function ReverseCall(kind: Kind, orderId: Uuid, sagaId: Uuid): Command {
    Command(orderId, sagaId, SagaKey(sagaId, ReverseOp(kind)), ReverseOp(kind), EmptyPayload)
  }

  /** The command schemas accept these shapes only. */
  predicate WellFormed(kind: Kind, c: Command) {
    || (c.operation == ForwardOp(kind) && if kind == Payments then c.payload.ChargePayload?
        else c.payload.ShipmentPayload?)
    || (c.operation == ReverseOp(kind) && c.payload.EmptyPayload?)
  }

  // ---------- Steps of one execution ----------

  /** `execute` returns to the message handler; a direct caller leaves no trace. */
  function Answer(s: State, message: Option<Uuid>, c: Command, outcome: Outcome): State {
    if message.Some? then s.(answers := s.answers + {Return(message.value, c, outcome)}) else s
  }

  function Leave(s: State, x: Execution, outcome: Outcome): State {
    Answer(s.(executions := s.executions - {x.command.orderId}), x.message, x.command, outcome)
  }

  function MoveTo(s: State, x: Execution, position: Position): State {
    s.(executions := s.executions[x.command.orderId := x.(position := position)])
  }

  /** Tries the lock and runs the first transaction. */
  function Begin(s: State, message: Option<Uuid>, c: Command): State {
    if c.orderId in s.executions then Answer(s, message, c, Unknown)
    else if c.key in s.receipts && s.receipts[c.key].content != Fingerprint(c) then
      Answer(s, message, c, Failed(IdempotencyConflict))
    else if c.key in s.receipts && s.receipts[c.key].result.Some? then
      Answer(s, message, c, s.receipts[c.key].result.value)
    else
      s.(receipts := s.receipts[c.key := Receipt(Fingerprint(c), None)],
         executions := s.executions[c.orderId := Execution(message, c, Get(s.effects, c.orderId),
                                                           Get(s.undos, c.orderId), Opened)])
  }

  predicate OtherSaga(x: Execution) {
    || (x.effect.Some? && x.effect.value.sagaId != x.command.sagaId)
    || (x.undo.Some? && x.undo.value.sagaId != x.command.sagaId)
  }

  function Open(kind: Kind, s: State, x: Execution): State {
    var c := x.command;
    if c.operation == ForwardOp(kind) then
      if OtherSaga(x) then MoveTo(s, x, Committing(Failed(IdempotencyConflict)))
      else if x.effect.Some? && x.effect.value.details != c.payload
        then MoveTo(s, x, Committing(Failed(IdempotencyConflict)))
      else if x.undo.Some? || (x.effect.Some? && x.effect.value.status == UndoneEffect) then
        MoveTo(s, x, Committing(Failed(AlreadyCompensated)))
      else
        var row := Effect(c.sagaId, c.payload, PendingEffect, None, None);
        MoveTo(if x.effect.Some? then s else s.(effects := s.effects[c.orderId := row]), x, Resolving)
    else if OtherSaga(x) then Leave(s, x, Failed(IdempotencyConflict))
    else
      var requested := Undo(c.sagaId, x.effect.Some?, PendingUndo);
      MoveTo(if c.orderId in s.undos then s else s.(undos := s.undos[c.orderId := requested]), x, ReverseStart(x))
  }

  /** Where a compensation begins, judged by the rows it read. */
  function ReverseStart(x: Execution): Position {
    if x.undo.Some? && x.undo.value.status == UndoneUndo then Committing(Succeeded(Undone))
    else if x.undo.Some? && x.undo.value.status == NoopUndo then Committing(Succeeded(Noop))
    else if x.effect.Some? && x.effect.value.status == PendingEffect then Resolving
    else if x.effect.None? || x.effect.value.status in {FailedEffect, OnDelivery} then Committing(Succeeded(Noop))
    else Undoing
  }

  /** After the forward effect was settled, or could not be. The reverse operation still decides
      on the row it read at first: a pending row that turned out PAY_ON_DELIVERY is undone. */
  function Afterwards(kind: Kind, c: Command, outcome: Outcome): Position {
    if c.operation == ForwardOp(kind) then Committing(outcome)
    else if outcome.Failed? then Committing(Succeeded(Noop))
    else Undoing
  }

  function AfterForward(kind: Kind, s: State, x: Execution, outcome: Outcome): State {
    if outcome.Unknown? then Leave(s, x, Unknown) else MoveTo(s, x, Afterwards(kind, x.command, outcome))
  }

  /** The row after a definite provider reply. */
  function Settled(e: Effect, outcome: Outcome): Effect {
    e.(status := if outcome.Succeeded? then SettledStatus(e.details) else FailedEffect,
       reference := if outcome.Succeeded? && outcome.data.Applied? then Some(outcome.data.reference) else None,
       result := Some(outcome))
  }

  function UndoneRow(kind: Kind, e: Effect, data: Data): Effect {
    if e.reference.Some? && (kind == Shipments || data == Undone) then e.(status := UndoneEffect) else e
  }

  /** The rows written by a successful compensation. */
  function Compensate(kind: Kind, s: State, x: Execution, data: Data): State {
    var o := x.command.orderId;
    var undone :=
      if o in s.undos
      then s.(undos := s.undos[o := s.undos[o].(status := if data == Undone then UndoneUndo else NoopUndo)])
      else s;
    if x.effect.Some? && o in s.effects
    then undone.(effects := s.effects[o := UndoneRow(kind, s.effects[o], data)])
    else undone
  }

  /** The final transaction, with the commit hook. */
  function Finalize(kind: Kind, s: State, x: Execution, outcome: Outcome): State {
    var c := x.command;
    if x.message.Some? && Altered(s.mail, x.message.value, c) then s.(executions := s.executions - {c.orderId})
    else
      var written := if c.operation == ReverseOp(kind) && outcome.Succeeded? then Compensate(kind, s, x, outcome.data)
        else s;
      var done := written.(
        receipts := s.receipts[c.key := Receipt(Fingerprint(c), Some(outcome))],
        mail := if x.message.Some? then Commit(s.mail, x.message.value, c, outcome) else s.mail);
      Leave(done, x, outcome)
  }

  /** The next step of the execution of order `o`. A provider call that is not answered in time
      counts as unknown. */
  function Advance(kind: Kind, s: State, o: Uuid, mode: Mode, timely: bool): State
    requires o in s.executions && s.executions[o].command.orderId == o
  {
    var x := s.executions[o];
    match x.position
    case Opened => Open(kind, s, x)
    case Resolving =>
      if o !in s.effects then s
      else if s.effects[o].result.Some? then AfterForward(kind, s, x, s.effects[o].result.value)
      else MoveTo(s.(issued := s.issued + {ForwardCall(kind, o, s.effects[o])}), x, AwaitingForward)
    case AwaitingForward =>
      if o !in s.effects || !timely then AfterForward(kind, s, x, Unknown)
      else
        var (tables, outcome) := Execute(kind, s.provider, ForwardCall(kind, o, s.effects[o]), mode);
        var called := s.(provider := tables);
        if outcome.Unknown? then AfterForward(kind, called, x, Unknown) else MoveTo(called, x, GotForward(outcome))
    case GotForward(outcome) =>
      if o !in s.effects then s
      else AfterForward(kind, s.(effects := s.effects[o := Settled(s.effects[o], outcome)]), x, outcome)
    case Undoing =>
      MoveTo(s.(issued := s.issued + {ReverseCall(kind, o, x.command.sagaId)}), x, AwaitingReverse)
    case AwaitingReverse =>
      if !timely then Leave(s, x, Unknown)
      else
        var (tables, outcome) := Execute(kind, s.provider, ReverseCall(kind, o, x.command.sagaId), mode);
        var called := s.(provider := tables);
        if outcome.Succeeded? then MoveTo(called, x, Committing(outcome)) else Leave(called, x, outcome)
    case Committing(outcome) => Finalize(kind, s, x, outcome)
  }

  // ---------- Events ----------

  datatype Event =
    | Start(message: Option<Uuid>, command: Command)
    | Continue(orderId: Uuid, mode: Mode, timely: bool)
    | Crash(orderId: Uuid)
    | LateCall(call: Command, mode: Mode)
    | Acknowledge(ret: Return)
    | Lose(ret: Return)

  predicate Possible(kind: Kind, s: State, e: Event) {
    match e
    case Start(_, c) => WellFormed(kind, c)
    case Continue(o, _, _) => o in s.executions && s.executions[o].command.orderId == o
    case LateCall(call, _) => call in s.issued
    case _ => true
  }

  function Step(kind: Kind, s: State, e: Event): State
    requires Possible(kind, s, e)
  {
    match e
    case Start(message, c) => Begin(s, message, c)
    case Continue(o, mode, timely) => Advance(kind, s, o, mode, timely)
    case Crash(o) => s.(executions := s.executions - {o})
    case LateCall(call, mode) => s.(provider := Execute(kind, s.provider, call, mode).0)
    case Acknowledge(ret) =>
      if ret in s.answers
      then s.(answers := s.answers - {ret},
              mail := if Altered(s.mail, ret.message, ret.command) then s.mail
                else Commit(s.mail, ret.message, ret.command, ret.outcome))
      else s
    case Lose(ret) => s.(answers := s.answers - {ret})
  }
}
