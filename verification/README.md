# Order saga: models and proofs

This project models the order saga of the repository: one orchestrator, a payment, an inventory
and a shipping service, their two external providers, and a message network that may lose, repeat,
reorder and delay. The promise it proves is the repository's own: every order ends either fully
done or fully undone, whatever is lost, repeated or interrupted, and nothing that happens later
changes that.

Verify with `dafny verify dfyconfig.toml` (Dafny 4.11).

## How it is built

* `Contracts`, `StateMachine`: operations, commands, results and keys; the cursor; the abstract
  saga, whose moves are those of the progress columns alone.
* `Broker`, `BrokerInvariant`, `BrokerTheorems`, `BrokerLinks`, `BrokerProgress`, `BrokerEnds`: one
  saga of the broker-driven orchestrator as a slice of its four tables. Each public operation is
  one transaction. The invariant covers log, progress, pending command, relay, retry budget and
  lease; the theorems are about whole runs, and the last two modules about what every run can
  still do.
* `BrokerTiming`, `BrokerSchedule`, `BrokerJournal`: when things happen, in one transaction and over
  whole runs, and what the transition log proves.
* `Provider`, `ProviderRuns`, `Service`, `ServiceInvariant`, `ServiceTheorems`, `ServiceProtocol`,
  `ServiceSettles`, `ServiceCash`, `ServiceWitness`: the payment and shipping services are one machine
  under two names, in small steps. The process may die between any two, and a provider call may take effect
  long after its deadline, any number of times. The first two proof layers hold for arbitrary
  commands under arbitrary keys; the protocol layer adds what the orchestrator guarantees, and
  `ServiceSettles` that an execution left in peace answers, and how. `ServiceCash` is about cash on
  delivery under arbitrary commands.
* `Basket`, `Inventory`, `InventoryInvariant`, `InventoryTheorems`, `InventoryProtocol`: one
  transaction per command, stock conservation, and the same two layers.
* `Mailbox`: inbox and result outbox of a participant.
* `System`, `SystemInvariant`, `SystemSteps`, `SystemOrders`, `SystemTheorems`, `SystemRuns`,
  `SystemDelivery`, `SystemRetries`, `SystemContents`, `SystemCheckout`: any number of orders over
  shared participants. The network is the growing map of commands handed to the broker, and the participants' outboxes; any member may
  be delivered at any later time, again, or never. Participants are sent orchestrator-issued
  commands only. The last two modules are about contents: what is charged, reserved and sent is what
  the request asked for, at the price list's price.
* `SystemPaths`, `SystemDrive`, `SystemEnds`, `SystemMemory`, `SystemFates`, `SystemWitness`: what can
  still happen. A history continues on a clock that does not run backwards; one exchange gets an
  order its next answer; exchanges bring it to an end; decisions are never forgotten; so which ends
  are open to an order, among all others that compete for the stock, is known exactly.
* `BrokerClass`, `OrderClass`, `ServiceClass`, `InventoryClass`, `Providers`, `MessageStore`: the
  code's own classes, updating their tables in place, with its loops and early returns. Each method
  is proved against the specification functions above; rollback of a thrown error is explicit.
* `Simulator`: the in-memory provider related to the durable one.
* `Idempotency`, `JsonReader`, `Fingerprints`, `Identifiers`, `Catalog`, `Acceptance`, `Money`: the
  canonical encoder and a reader that takes its text back, the JSON of commands and orders, UUID
  texts, basket normalisation and totals, idempotent acceptance, and the exact money parser and
  printer.

Time is a natural number, one reading per transaction. Generated ids and lease tokens are fresh.
UUIDs are numbers, which `Identifiers` justifies; a fingerprint is the content it hashes, which
`Fingerprints` justifies for a hash without collisions. Of a transaction, shipment or reservation
id the model keeps that it tells orders apart (`ProviderRuns.ReferencesTell`,
`ServiceTheorems.ReferencesTellOrders`, `InventoryTheorems.ReservationIdsTell`,
`SystemRuns.CompletedOrdersDiffer`).

## Where code and documentation disagree

* The architecture documentation (docs/ARCHITECTURE.md:49) lists the cancellation of shipments
  among the compensations. In the code a saga turns back only before a shipment exists, so
  `CANCEL_SHIPMENT` is never sent (`CancelIsNeverSent`).
* Some tests (tests/orchestrator/orders.test.mjs:170) expect `REFUNDED` for orders paid by the
  default method. In the code the default is COD, whose row stays `PAY_ON_DELIVERY` and whose
  refund is a `NOOP`. The model follows the code.
* "A COD refund is a local NOOP" fails for direct commands. A refund that finds the row still
  `PENDING` settles the charge first and then decides on the row it read before, so it calls the
  provider. `ServiceCash` says when: over every run the reverse call is made only by way of a refund
  opened on a `PENDING` row, and from every consistent state an admitted refund can make it exactly
  when it finds its saga's charge `PENDING` and the provider has not refused that charge. Once the
  provider has undone the account there are two outcomes (`ServiceCash.RefundedCashOutcomes`). If
  the reply arrived, the row becomes `REFUNDED` here and at the provider
  (`ServiceWitness.PendingCashIsRefunded`). If it missed the deadline and the call took effect late,
  the retry reads `PAY_ON_DELIVERY` and commits `NOOP`: the row stays `PAY_ON_DELIVERY` while the
  provider has undone its account (`ServiceWitness.NoopCashIsRefunded`), for good
  (`ServiceCash.DisagreementStays`). Neither can happen to the orchestrator's commands
  (`ServiceProtocol.CashIsNotRefunded`, `SystemRuns.CashIsNeverRefunded`).

## Model

| member | source | states |
|---|---|---|
| `SystemRuns.CleanFailure` | services/order-orchestrator/src/saga/brokerOrders.ts:93-239 | over every run of the whole system: once a saga is FAILED, then and at every later moment, its reservation is absent, FAILED or RELEASED, nothing was shipped or booked at the shipping provider, and its charge was refused, or refunded here and at the provider (bank transfer), or left PAY_ON_DELIVERY with a NOOP refund (COD) |
| `SystemRuns.CleanSuccess` | services/order-orchestrator/src/saga/brokerOrders.ts:169-206 | over every run: once a saga is COMPLETED it stays so, its reservation is FINALIZED, its shipment and its payment stand here and at the providers, and no release, refund or cancellation was ever enqueued for it, whatever is delivered later; payment row and account carry exactly the order's customer, amount, currency and method, shipping row and account exactly its items and address, the reservation exactly its items |
| `SystemRuns.CommandsCarryTheOrder` | services/order-orchestrator/src/saga/stateMachine.ts:33-60 | over every run: a command on the network has its order's ids and key; a charge carries exactly the order's customer, amount, currency and method, a reservation its items, a shipment its items and address, every other command nothing |
| `SystemRuns.HoldingsCarryTheOrder` | services/payment-service/src/payments/service.ts:48-50 | over every run: whatever row, account or reservation exists was opened for an order, its saga and its forward operation, and carries exactly what that order says |
| `SystemRuns.CompletedOrdersDiffer` | services/payment-service/src/providers/local-provider.ts:45-47 | over every run two COMPLETED orders hold different transaction ids, different shipment ids and different reservation ids, each row's id that of its own order's account |
| `SystemCheckout.CompletedAsRequested` | services/order-orchestrator/src/orders/service.ts:16-31 | over every run a COMPLETED order was placed by an acceptable request; its payment row charges that request's customer what its items cost by the price list, in its currency and by the method it says, cash if it says none, and its shipping row sends exactly those items to its address |
| `SystemCheckout.EveryOrderWasPlaced` | services/order-orchestrator/src/orders/service.ts:16-32 | over every run every order was placed by some accepted request and stores that request's normalised payload |
| `SystemCheckout.AcceptedStarts` | services/order-orchestrator/src/orders/service.ts:31-34 | a request without a payment method, or for cash, starts IN_PROGRESS with one message in its outbox, its charge, available at once and due one time-out later; one for a bank transfer starts PENDING_PAYMENT with nothing sent, and its confirmation sends the charge at once |
| `SystemRuns.FinalizationIsNeverUndone` | services/order-orchestrator/src/saga/brokerOrders.ts:192-206 | over every run: an order that reached FINALIZE_INVENTORY is IN_PROGRESS or COMPLETED for ever, never COMPENSATING or FAILED |
| `SystemRuns.NoConflicts` | services/order-orchestrator/src/saga/brokerOrders.ts:169-191 | over every run, under loss, duplication, reordering, delay and crashes: no participant ever answers IDEMPOTENCY_CONFLICT, ALREADY_COMPENSATED or INVALID_STATE; a failure is the operation's own rejection |
| `SystemRuns.FinishedBooks` | services/inventory-service/src/inventory/service.ts:41-101 | over every run: when every order is finished, each product's stock is the initial stock less exactly what the COMPLETED orders bought |
| `SystemRuns.CashIsNeverRefunded` | services/payment-service/src/payments/service.ts:58-64 | over every run a cash-on-delivery order, which has paid nothing yet, is never refunded here or at the provider |
| `SystemRetries.RetriesAreExcused` | services/order-orchestrator/src/saga/brokerOrders.ts:207-239 | over every run: an order spends a further attempt, sends a command again or is flagged only because the answer it awaited was UNKNOWN, because a worker found its published command past the deadline, or because an operator resumed it |
| `SystemRetries.PerformRetries` | services/order-orchestrator/src/saga/brokerOrders.ts:128-334 | for one saga, exactly which transactions consume a retry: an awaited answer that is neither success nor the operation's rejection on an unflagged saga, an effective recovery of an overdue command, a resume of a flagged saga |
| `SystemFates.EveryOrderMayEnd` | services/order-orchestrator/src/saga/brokerOrders.ts:41-334 | no order is ever stuck: from every world that any history reaches, whatever the participants were doing and have decided, every order has a continuation of that history in which it is COMPLETED or FAILED |
| `SystemFates.CompletionIsOpen` | services/inventory-service/src/inventory/service.ts:54-70 | from every such world some continuation completes the order exactly when no participant has refused it (a provider has answered its charge or shipment key without an account, or its reservation was recorded without success) and its basket is reserved, or is on sale and fits into the initial stock less what the orders with a live shipment hold |
| `SystemFates.FailureIsOpen` | services/order-orchestrator/src/saga/brokerOrders.ts:169-191 | from every such world some continuation fails the order exactly while the shipping provider holds no shipment of it |
| `SystemFates.ReceiptsShutEnds` | services/order-orchestrator/src/saga/brokerOrders.ts:169-206 | in terms of completed receipts: a refused charge, reservation or shipment shuts COMPLETED for good, a created shipment shuts FAILED |
| `SystemDrive.Exchanges` | services/order-orchestrator/src/saga/brokerOrders.ts:41-239 | from every point of every history an order that is not over gets its next answer: a resume, a confirmation or a recovery sends the command in a fresh message, a crash frees the order's lock, the participant answers as its tables and the mode of the providers foretell, and the saga moves accordingly; other orders, other participants and other keys are left as they were |
| `SystemEnds.Drives` | services/order-orchestrator/src/saga/brokerOrders.ts:41-239 | answer by answer any order ends: COMPLETED when everything left is promised and the providers accept, FAILED when they refuse and nothing was shipped; elsewhere nothing changes |
| `SystemMemory.RefusalStays` | services/payment-service/src/providers/local-provider.ts:23-44 | over every history: a charge, reservation or shipment once refused is refused for ever |
| `SystemFates.ShippedHolds` | services/order-orchestrator/src/saga/brokerOrders.ts:192-206 | in every world satisfying the invariant an order with an account at the shipping provider never turned back and holds exactly its basket |
| `SystemFates.Clears` | services/order-orchestrator/src/saga/brokerOrders.ts:225-239 | from every world all the orders that are neither shipped nor failed, but for one untouched order, can be brought to FAILED one after another, without changing that order's prospects or what the shipped orders hold |
| `SystemWitness.EveryOrderCanComplete` | services/order-orchestrator/src/saga/brokerOrders.ts:192-206 | every payable order whose basket is in stock has a history of the whole system in which it is COMPLETED |
| `SystemWitness.EveryOrderCanFail` | services/order-orchestrator/src/saga/brokerOrders.ts:169-191 | every payable order has a history in which its charge is declined and it is FAILED |
| `SystemWitness.EveryOrderCanBeUndone` | services/order-orchestrator/src/saga/compensate.ts:13-37 | every payable order whose basket is in stock has a history in which shipping refuses it after payment and reservation, its stock is released, its payment refunded, and it is FAILED |
| `SystemDelivery.EveryResultIsAccepted` | services/order-orchestrator/src/saga/brokerOrders.ts:93-126 | over every run: any result in any participant's outbox, whenever and however often delivered, is accepted: correlation, duplicate and progress checks all pass |
| `SystemDelivery.EveryResultFitsSchema` | shared/src/contracts.ts:90-112 | over every run: any result in any participant's outbox passes the result schema: a success carries a reference exactly for a forward operation |
| `SystemOrders.StepKeepsWorldOk` | services/order-orchestrator/src/saga/brokerOrders.ts:92-239 | every step of any component keeps the system invariant: progress is earned by participants' completed answers, only handed-over commands circulate, and the participants' protocols are respected |
| `SystemInvariant.OrchestratorIsReliable` | services/order-orchestrator/src/saga/brokerOrders.ts:383-425 | the commands in circulation keep the protocol towards each participant: one saga per order, keys name saga and operation, undo and finalization are asked only after a successful answer, never release and finalization of one order |
| `SystemOrders.DeliveredIsTruthful` | shared/src/messaging/participant.ts:11-29 | a result in a participant's outbox answers a command that circulated, and unless UNKNOWN it is the participant's completed receipt; a failure is the operation's rejection |
| `SystemTheorems.FailureIsClean` | services/order-orchestrator/src/saga/brokerOrders.ts:225-239 | in any world satisfying the invariant a FAILED order is fully undone (the case analysis behind the clean failure) |
| `SystemTheorems.SuccessIsClean` | services/order-orchestrator/src/saga/brokerOrders.ts:192-206 | in any world satisfying the invariant a COMPLETED order is fully done |
| `BrokerTheorems.RunsStayOk` | services/order-orchestrator/src/saga/brokerOrders.ts:41-459 | every slice of every run satisfies the invariant: faithful log, progress fixed by the current operation, pending command, relay and budget conditions |
| `BrokerInvariant.PerformKeepsOk` | services/order-orchestrator/src/saga/brokerOrders.ts:41-459 | each public operation, claim, recovery and relay step keeps that invariant |
| `BrokerInvariant.AcceptIsOk` | services/order-orchestrator/src/orders/service.ts:20-37 | a newly accepted order satisfies the invariant, with its first command dispatched unless it waits for a bank transfer |
| `BrokerInvariant.SaveKeepsLog` | services/order-orchestrator/src/saga/brokerOrders.ts:428-458 | the log stays a faithful history: sequences 1..version, each from-status the previous to-status, and folding STEP_SUCCEEDED and COMPENSATION_SUCCEEDED entries gives completedSteps and compensatedSteps |
| `BrokerInvariant.JudgeIsSound` | services/order-orchestrator/src/saga/brokerOrders.ts:127-224 | the verdict on an awaited result is an abstract step of the saga, logged as what it is, and resets or keeps the retry counters accordingly |
| `BrokerInvariant.ReceiveShape` | services/order-orchestrator/src/saga/brokerOrders.ts:118-126 | an awaited result always matches the cursor, so the progress check cannot throw |
| `BrokerInvariant.RecoverShape` | services/order-orchestrator/src/saga/brokerOrders.ts:296-334 | a recovery always finds its command and a consistent cursor; it waits for delivery, flags exhaustion or dispatches again |
| `BrokerTheorems.LogIsFaithful` | services/order-orchestrator/src/saga/brokerOrders.ts:428-458 | over every run the log has sequences exactly 1..version, each entry's from-status is the previous to-status, folding STEP_SUCCEEDED and COMPENSATION_SUCCEEDED entries rebuilds completedSteps and compensatedSteps, and recorded entries never change |
| `BrokerTheorems.ReceiveThrowsOnlyForBadMessages` | services/order-orchestrator/src/saga/brokerOrders.ts:105-126 | receive throws exactly for uncorrelated or altered messages; "Result does not match saga progress" is unreachable |
| `BrokerTheorems.RunningSagasWait` | services/order-orchestrator/src/saga/brokerOrders.ts:364-425 | in every reachable slice an unflagged running saga has a pending command in its outbox for exactly its next operation; completed steps are the prefix fixed by the operation, compensated steps a prefix of their reverse |
| `BrokerTheorems.OnlyExhaustionFlags` | services/order-orchestrator/src/saga/brokerOrders.ts:296-334 | over every run INCONSISTENT_PROGRESS and MISSING_COMMAND are never recorded; a flagged saga is running and has used up its attempts |
| `BrokerTheorems.CancelIsNeverSent` | services/order-orchestrator/src/saga/compensate.ts:13-37 | over every run no CANCEL_SHIPMENT is sent |
| `BrokerTheorems.ResumeRestartsTheStuckOperation` | services/order-orchestrator/src/saga/brokerOrders.ts:68-90 | a resume throws exactly on a saga waiting for payment, does nothing on an unflagged one, and on a flagged one sends one command for the stuck operation |
| `BrokerTiming.ResumeTimes` | services/order-orchestrator/src/saga/brokerOrders.ts:68-90 | on a flagged saga the command is available at once and all three attempts are granted anew; any other saga is left unchanged |
| `BrokerTiming.ConfirmTimes` | services/order-orchestrator/src/saga/brokerOrders.ts:47-65 | a confirmation changes exactly a saga that waits for its payment, and sends its command at once |
| `BrokerTiming.ReceiveTimes` | services/order-orchestrator/src/saga/brokerOrders.ts:127-239 | an awaited answer, in its own terms and those of the old row: after a success or one of the three rejections the next command, if any is left, is available exactly now; after anything else the same operation is sent again, available retryDelay times brokerAttempts from now, or, three attempts spent, nothing is sent, the saga is flagged and the answer kept as a dead letter; deadlines are one time-out later |
| `BrokerTiming.RecoverTimes` | services/order-orchestrator/src/saga/brokerOrders.ts:296-351 | a recovery that holds the lease sends the command again or flags exhaustion exactly if the command was published and a whole time-out has passed since; otherwise it sends and spends nothing and is due again one time-out after the publication, or after now if there was none |
| `BrokerSchedule.RetriesBackOff` | services/order-orchestrator/src/saga/brokerOrders.ts:233-237 | over every run: a retry is given to the broker only by a hand-over at least retryDelay times the attempts made later than the answer that caused it |
| `BrokerSchedule.RepeatsAreOverdue` | services/order-orchestrator/src/saga/brokerOrders.ts:312-331 | over every run: no recovery sends a command again or flags its saga before a whole time-out has passed since the relay marked the pending command as published |
| `BrokerSchedule.ClaimsAreDue` | services/order-orchestrator/src/saga/brokerOrders.ts:245-264 | over every run of an accepted order: a claim succeeds only on a running, unflagged saga whose lease is free or expired and whose pending command has been available for a whole time-out, and it holds for exactly the time asked |
| `BrokerSchedule.RecoveriesAreClaimed` | services/order-orchestrator/src/saga/brokerOrders.ts:280-295 | over every run: a recovery changes anything only under the token of an earlier claim that was due, and before that claim's time is up |
| `BrokerSchedule.AcceptedIsTimely` | services/order-orchestrator/src/orders/service.ts:20-37 | an accepted order starts such a run: nothing is due before its charge has been available for a whole time-out |
| `BrokerJournal.JournalsAreBacked` | services/order-orchestrator/src/saga/brokerOrders.ts:428-458 | over every run: each log entry of a dispatch names a command in the outbox of its step and direction; each entry of an answer names the command answered and holds a result that came in through the inbox for it and reads as the event says; a reason is recorded exactly for an intervention |
| `BrokerJournal.AcceptedJournal` | services/order-orchestrator/src/orders/service.ts:33-34 | the journal of an accepted order is backed from the start |
| `BrokerTheorems.FifteenCommands` | services/order-orchestrator/src/saga/brokerOrders.ts:383-425 | over every run at most 15 commands are dispatched for a saga, and three more for each manual resume |
| `BrokerTheorems.AcceptedOrdersStartRuns` | services/order-orchestrator/src/orders/service.ts:20-37 | every accepted order starts such a run |
| `BrokerTheorems.OneUndeliveredCommand` | shared/src/messaging/rabbit.ts:47-59 | over every run a saga has at most one command never yet handed to the broker, and it is the pending one |
| `BrokerTheorems.PerformRefines` | services/order-orchestrator/src/saga/brokerOrders.ts:41-459 | each transaction of the broker engine is at most two steps of the abstract saga |
| `BrokerTheorems.RunsNeverGoBack` | services/order-orchestrator/src/saga/brokerOrders.ts:118-123 | over every run finished sagas never change, completed and compensated steps only grow |
| `BrokerTheorems.TokensRecoverOnce` | services/order-orchestrator/src/saga/brokerOrders.ts:280-295 | over all worker interleavings a lease token causes at most one effective recovery |
| `BrokerTheorems.ResultsDisarmClaims` | services/order-orchestrator/src/saga/brokerOrders.ts:128-135 | a result applied after a claim makes that claim's recovery a no-op for ever |
| `BrokerTheorems.LeasesExclude` | services/order-orchestrator/src/saga/brokerOrders.ts:242-277 | while a token owns a saga no other claim has succeeded since its own |
| `BrokerProgress.RecoveryActs` | services/order-orchestrator/src/saga/brokerOrders.ts:242-334 | from every slice any run reaches, if the saga is running and unflagged, there is a time from which a worker's claim and recovery extend the run, whoever held the lease, and exactly one of three things happens: the deadline is set again while the command is unpublished or not overdue, the saga is left to an operator when three attempts are spent, the same command goes out as a new message otherwise; once the command is published the wait ends |
| `BrokerProgress.SilenceIsFlagged` | services/order-orchestrator/src/saga/brokerOrders.ts:296-334 | from every such slice, with no answer ever coming, relay and workers send the command exactly as often as attempts remain, in four actions each, and then leave the saga to an operator, its progress unchanged |
| `BrokerEnds.OpenEnds` | services/order-orchestrator/src/saga/brokerOrders.ts:41-239 | as far as the orchestrator alone decides, under answers of any kind that the result schema admits: from every slice any run reaches, waiting, running, compensating or flagged, some continuation completes it exactly while no compensation has begun, and some continuation fails it exactly while it has not reached its finalization; what real participants leave open is `SystemFates` |
| `StateMachine.CoherentCursor` | services/order-orchestrator/src/saga/compensate.ts:13-37 | in a coherent state the cursor throws exactly when the saga is not running, and compensation undoes the latest step that still stands |
| `StateMachine.AbstractStepKeepsCoherence` | services/order-orchestrator/src/saga/stateMachine.ts:9-30 | abstract steps keep completed steps the prefix fixed by the operation and compensated steps a prefix of their reverse |
| `StateMachine.NoWayBack` | services/order-orchestrator/src/saga/stateMachine.ts:9-30 | abstract steps never leave terminal states, never undo a finalization, and only extend completed and compensated steps |
| `StateMachine.PathsNeverGoBack` | services/order-orchestrator/src/saga/stateMachine.ts:9-30 | over any number of abstract steps a finished saga stays, a finalization is never undone and a compensating saga only ever fails |
| `BrokerClass.BrokerOrders.Save` | services/order-orchestrator/src/saga/brokerOrders.ts:428-458 | the row, the version and one log entry are written as specified for the order's slice; no other order changes |
| `BrokerClass.BrokerOrders.Dispatch` | services/order-orchestrator/src/saga/brokerOrders.ts:383-425 | throws exactly when the cursor is inconsistent, otherwise gives up or writes the row and the command as specified; the message sent asks for the next operation of this order and carries exactly what the order says, and the row waits for it until one time-out after it is available; no other order changes |
| `BrokerClass.BrokerOrders.Accept` | services/order-orchestrator/src/orders/service.ts:20-37 | the tables gain exactly the new order's slice, with its first command when it is not waiting for payment |
| `BrokerClass.BrokerOrders.ConfirmPayment` | services/order-orchestrator/src/saga/brokerOrders.ts:47-65 | commits the specified slice or throws with nothing changed |
| `BrokerClass.BrokerOrders.Run` | services/order-orchestrator/src/saga/brokerOrders.ts:68-90 | commits the specified slice or throws with nothing changed |
| `BrokerClass.BrokerOrders.Examine` | services/order-orchestrator/src/saga/brokerOrders.ts:127-224 | the branches of receive compute the verdict whose soundness is proved |
| `BrokerClass.BrokerOrders.Receive` | services/order-orchestrator/src/saga/brokerOrders.ts:93-239 | over the global tables: throws exactly for an unknown order, a message id used for another order's result, or when the slice's transaction does, rolling back; otherwise commits the slice whose times `BrokerTiming.ReceiveTimes` states, less the dead letter when another order's message has its id, and touches no other order |
| `BrokerClass.BrokerOrders.ClaimRecovery` | services/order-orchestrator/src/saga/brokerOrders.ts:242-277 | claims exactly the earliest claimable orders that no worker has locked, in order of their next attempt, all of them or as many as the limit allows, each under its own token, returns a ticket for each, and changes nothing else |
| `BrokerClass.BrokerOrders.SelectClaimable` | services/order-orchestrator/src/saga/brokerOrders.ts:245-258 | the query: distinct claimable unlocked orders, earliest first, cut off only by the limit |
| `BrokerClass.BrokerOrders.RecoverClaim` | services/order-orchestrator/src/saga/brokerOrders.ts:280-351 | commits the slice whose times `BrokerTiming.RecoverTimes` states, or rolls back; that a pending message is the saga's own is part of the class invariant, which every public method keeps |
| `BrokerClass.BrokerOrders.RelayOnce` | shared/src/messaging/rabbit.ts:47-59 | finds nothing exactly when no unlocked message is due; otherwise publishes and then marks the one available longest, with the time, and touches no other row; a crash in between leaves it published and unmarked |
| `BrokerClass.BrokerOrders.SelectDue` | shared/src/messaging/rabbit.ts:50-52 | the query: none exactly when nothing is due, otherwise a due unlocked message that no other is older than |
| `OrderClass.OrderSaga.Run` | services/order-orchestrator/src/orders/service.ts:41-96 | for every behaviour of the transport, one run makes at most 5 calls and 11 committed transitions and never throws; it moves from the old to the new progress by abstract steps only, so a finished saga stays, a compensating one only fails and a finalization is not undone; each logged step carries the answer heard that justifies it; it stops only at a finished order or at a call that did not succeed; every call it ever made asked for this order's own ids and key and exactly what the order says; it leaves no lease, keeps the last answer, and after UNKNOWN sets the next attempt a second later |
| `OrderClass.OrderSaga.Forward` | services/order-orchestrator/src/orders/service.ts:55-88 | one forward operation, by abstract steps anchored in the log, either moves to the next operation or ends the run at a finished order or an unsuccessful call, within the same bounds |
| `OrderClass.OrderSaga.Conclude` | services/order-orchestrator/src/orders/service.ts:64-88 | what each answer does to the saga: advance, complete, turn back or fail on the operation's own rejection, stay on anything else |
| `OrderClass.OrderSaga.Compensate` | services/order-orchestrator/src/orders/service.ts:113-136 | by abstract steps anchored in the log the loop undoes at most the steps that still stand, its cursor never throws, and it ends FAILED or at an undo that did not succeed; a compensating saga never returns to forward work |
| `OrderClass.OrderSaga.Call` | services/order-orchestrator/src/orders/service.ts:102-111 | the transport is asked once, for the order's own ids and key and exactly what the order says, and the answer is recorded as heard; a missing or mismatched result counts as UNKNOWN |
| `OrderClass.OrderSaga.Transition` | services/order-orchestrator/src/orders/service.ts:138-147 | the version check never fires under the lock; the log gains exactly the one entry, the history exactly the one progress |
| `OrderClass.SagaMoves` | services/order-orchestrator/src/orders/service.ts:138-147 | a committed patch keeps progress coherent, the log faithful and justified by its results, and the history made of abstract steps, each with the status and the steps its log entry tells |
| `ServiceInvariant.StepKeepsConsistent` | services/payment-service/src/payments/service.ts:13-125 | every step, crash and late provider call, for arbitrary commands and keys, keeps rows, receipts, provider and messages consistent and only evolves them |
| `ServiceTheorems.ChargedAtMostOnce` | services/payment-service/src/payments/service.ts:95-125 | over every run the provider opens at most one account per order, and its saga, details and reference never change |
| `ServiceTheorems.OneCallEver` | services/payment-service/src/payments/service.ts:95-125 | over every run, whatever client keys, crashes and late calls: all calls ever made for one order and operation are one and the same command under the saga's own provider key |
| `ServiceTheorems.UndoneForGood` | services/payment-service/src/providers/local-provider.ts:29-49 | over every run the provider's account is the one the calls asked for, and once undone it is never live again, not even by a late call |
| `ServiceTheorems.CompletedKeysAnswerAlike` | services/payment-service/src/payments/service.ts:29-36 | at every later moment a completed key is answered with the same result, with a conflict if the command differs, and with UNKNOWN while another execution holds the order's lock; nothing else changes |
| `ServiceTheorems.RowsTellTheTruth` | services/payment-service/src/payments/service.ts:95-108 | CHARGED or PAY_ON_DELIVERY is recorded only if the provider charged, FAILED only if it did not, REFUNDED only if it refunded |
| `ServiceTheorems.CompensationIsFinal` | services/payment-service/src/payments/service.ts:40-84 | once a refund is REFUNDED or NOOP the payment is never PENDING or CHARGED again; a refund before any charge prevents a row, and any provider account, for ever |
| `ServiceTheorems.AnswersAreBacked` | shared/src/messaging/participant.ts:19-29 | inbox and result outbox are coupled one to one, and a definite answer other than IDEMPOTENCY_CONFLICT is the completed receipt's for ever |
| `ServiceTheorems.RefusalsAreJust` | services/payment-service/src/payments/service.ts:41-51 | over every run, of a completed charge or shipment: IDEMPOTENCY_CONFLICT is the answer exactly when the order's rows are another saga's or of other details, or the provider found the key in use; ALREADY_COMPENSATED only when its own saga's compensation was asked for; the provider's rejection only when the row is FAILED and no account exists |
| `ServiceTheorems.StrangersUndoNothing` | services/payment-service/src/payments/service.ts:41-43 | a compensation by another saga than the order's rows is answered IDEMPOTENCY_CONFLICT, changes no row, calls no provider, frees the lock and leaves its key open |
| `ServiceTheorems.ReferencesTellOrders` | services/payment-service/src/providers/local-provider.ts:45-47 | over every run of the service: accounts with equal references are one order's, a row's reference is its own account's, and so is the reference a completed receipt answers |
| `ServiceProtocol.StepStaysInProtocol` | services/payment-service/src/payments/service.ts:35-84 | sent only the orchestrator's commands, the service never answers with a conflict or a refused undo, and every definite answer is the completed receipt's |
| `ServiceProtocol.RejectedMeansFailed` | services/payment-service/src/payments/service.ts:95-108 | a rejected charge or shipment left a FAILED row and no provider account |
| `ServiceProtocol.UndoneMeansUndone` | services/payment-service/src/payments/service.ts:58-81 | a completed refund of a collected charge is REFUNDED here and at the provider; a cash-on-delivery charge stays PAY_ON_DELIVERY with a NOOP refund |
| `ServiceProtocol.DoneMeansDone` | services/payment-service/src/payments/service.ts:95-108 | a completed charge or shipment that nobody asked to undo stands here and at the provider |
| `ServiceProtocol.CashIsNotRefunded` | services/payment-service/src/payments/service.ts:58-64 | under the orchestrator's protocol a cash-on-delivery charge is never REFUNDED here or undone at the provider: a refund never finds it pending |
| `ServiceCash.CashCallsHaveCause` | services/payment-service/src/payments/service.ts:52-66 | over every run, whatever commands under whatever keys: a cash-on-delivery order's reverse call is ever issued only if a refund execution was opened earlier while its row was PENDING |
| `ServiceCash.RefundedCashHasCause` | services/payment-service/src/providers/local-provider.ts:29-36 | over every run the provider has undone a cash-on-delivery order's account only if such a refund was opened earlier |
| `ServiceCash.CashRefundExactly` | services/payment-service/src/payments/service.ts:25-66 | from every consistent state, the order unlocked and the refund admitted: some undisturbed run of that one execution makes the reverse call exactly when it finds its own saga's cash-on-delivery charge PENDING and the provider has not answered the saga's charge key without an account |
| `ServiceCash.RefundedCashOutcomes` | services/payment-service/src/payments/service.ts:72-81 | over every run, once the provider has undone a cash-on-delivery order's account, row and refund are both REFUNDED, or the row is PAY_ON_DELIVERY beside a refund that is PENDING or NOOP |
| `ServiceCash.DisagreementStays` | services/payment-service/src/payments/service.ts:54-62 | over every run: a NOOP refund beside an account that the provider has undone stays so for good, the row PAY_ON_DELIVERY |
| `ServiceWitness.PendingCashIsRefunded` | services/payment-service/src/payments/service.ts:58-64 | one outcome: a run by direct commands in which a refund finds a cash-on-delivery charge PENDING, settles it, and refunds it here and at the provider |
| `ServiceWitness.NoopCashIsRefunded` | services/payment-service/src/payments/service.ts:58-68 | the other outcome: the reverse call misses its deadline and takes effect later, the retry reads PAY_ON_DELIVERY and commits NOOP; the row stays while the provider has refunded |
| `ServiceSettles.AdvanceGoesOn` | services/payment-service/src/payments/service.ts:95-125 | under the orchestrator's protocol an execution left in peace, its provider answering in time, comes nearer to its final transaction with every step, keeps its mailbox, touches no other order or key at the provider, and does not change the answer to expect |
| `ServiceSettles.CommitIsForetold` | services/payment-service/src/payments/service.ts:68-85 | what such an execution commits is never UNKNOWN; a forward operation succeeds exactly when the provider's tables and mode said so, an undo always |
| `ServiceSettles.ReceiptIsForetold` | services/payment-service/src/payments/service.ts:35-36 | what a completed receipt answers agrees in the same way with the provider's tables |
| `ServiceClass.ProviderService.Begin` | services/payment-service/src/payments/service.ts:23-39 | taking the lock and the receipt is one step of the machine; an early answer is UNKNOWN when the lock is taken, the completed result, or a conflict, and is reported |
| `ServiceClass.ProviderService.OpenRows` | services/payment-service/src/payments/service.ts:38-63 | the branches on the rows as first read are one step of the machine |
| `ServiceClass.ProviderService.Resolve` | services/payment-service/src/payments/service.ts:95-100 | resolveCharge reuses a stored result or issues the saga's own forward call |
| `ServiceClass.ProviderService.AwaitForward` | services/payment-service/src/payments/service.ts:110-125 | a provider call is one step of the machine: the reply in time goes on, a late or unknown one ends the execution with UNKNOWN, the lock free and the receipt open |
| `ServiceClass.ProviderService.StoreReply` | services/payment-service/src/payments/service.ts:101-108 | the row is updated with the reply and the execution goes on as specified |
| `ServiceClass.ProviderService.AwaitReverse` | services/payment-service/src/payments/service.ts:63-71 | the refund call is one step: success goes on to the final transaction; anything else is returned as it is, the lock free, the refund still pending and the receipt open |
| `ServiceClass.ProviderService.Complete` | services/payment-service/src/payments/service.ts:72-85 | refund, payment, receipt and commit hook are written together and the outcome is returned; the hook throws exactly for an altered message, and then rows, receipt and messages are as before |
| `ServiceClass.ProviderService.Execute` | services/shipping-service/src/shipments/service.ts:27-198 | its effect on the tables is a run of the machine made of this execution only; locks and executions are as before; the returned outcome is the one reported; success is returned only with the completed receipt, UNKNOWN leaves it open, a refusal completes it or, of a compensation, may leave it open, and a throw means an altered message with receipt, refund and messages undecided |
| `InventoryTheorems.StockIsConserved` | services/inventory-service/src/inventory/service.ts:53-87 | over every run, for arbitrary commands: available stock plus what RESERVED and FINALIZED reservations hold equals the initial stock, and stock is never negative |
| `InventoryTheorems.ClosedStaysClosed` | services/inventory-service/src/inventory/service.ts:77-98 | over every run a RELEASED or FINALIZED reservation never changes again and completed keys are answered alike |
| `InventoryTheorems.AllOrNothing` | services/inventory-service/src/inventory/service.ts:54-70 | a new basket is reserved exactly when every product is known, active and has enough, and then each gives exactly its quantity and no other product changes; otherwise the answer is INSUFFICIENT_STOCK and nothing is taken |
| `InventoryTheorems.ReleaseGivesBack` | services/inventory-service/src/inventory/service.ts:73-93 | a release says RELEASED exactly when its saga's reservation holds stock and then gives back exactly its quantities; otherwise no stock moves; it is refused exactly for a foreign or finalized reservation and otherwise leaves it RELEASED |
| `InventoryTheorems.FinalizeMovesNothing` | services/inventory-service/src/inventory/service.ts:95-101 | a finalization moves no stock, succeeds exactly when its saga's reservation holds stock, answers the id the reservation was answered, and is otherwise refused with nothing changed |
| `InventoryTheorems.RefusalsAreJust` | services/inventory-service/src/inventory/service.ts:42-53 | over every run, of a completed command: a reservation is a conflict exactly when the order's reservation is another saga's or another basket's, ALREADY_COMPENSATED only when released, INVALID_STATE only when finalized; a release is refused exactly for a foreign or a finalized reservation; a finalization succeeds only on its own finalized one |
| `InventoryTheorems.ReservationIdsTell` | services/inventory-service/src/inventory/service.ts:69-97 | over every run two answers with a reservation id, to reservations or finalizations, have the same id exactly when they concern the same order |
| `InventoryTheorems.DuplicatesWouldOversell` | shared/src/contracts.ts:19-25 | without the rule that a basket names each product once, a basket passing the stock check would make stock negative |
| `InventoryTheorems.ReorderedBasketIsReplay` | services/inventory-service/src/inventory/service.ts:25-36 | a reservation repeated with its items in another order gets the first answer, under the same key or another, and moves no stock |
| `InventoryTheorems.ResultsAreBacked` | shared/src/messaging/participant.ts:19-29 | over every run inbox and result outbox are coupled one to one, and an answer other than IDEMPOTENCY_CONFLICT is the completed receipt's for ever |
| `InventoryTheorems.StepKeepsConsistent` | services/inventory-service/src/inventory/service.ts:22-106 | every delivery, direct call, acknowledgement and crash keeps books, stock and messages consistent |
| `InventoryInvariant.DecideIsSound` | services/inventory-service/src/inventory/service.ts:39-101 | on rows the service wrote no command throws, and each keeps the balance, the row conditions and a truthful receipt |
| `InventoryInvariant.HeldSplits` | services/inventory-service/src/inventory/service.ts:65-70 | stock held by all reservations is one reservation's share plus the others' |
| `InventoryProtocol.StepStaysInProtocol` | services/inventory-service/src/inventory/service.ts:35-101 | sent only the orchestrator's commands, the service never throws and its only refusal is INSUFFICIENT_STOCK |
| `InventoryProtocol.ExecuteGrants` | services/inventory-service/src/inventory/service.ts:39-101 | the answer to an orchestrator's command: always definite, refused exactly when a reservation was recorded without success, or is asked for the first time and the basket is not in stock |
| `InventoryProtocol.ClosedMeansClosed` | services/inventory-service/src/inventory/service.ts:73-98 | a completed release or finalization is the reservation's last word |
| `InventoryClass.InventoryService.AnyShort` | services/inventory-service/src/inventory/service.ts:57-61 | the scan finds exactly whether some product is missing, inactive or short |
| `InventoryClass.InventoryService.TakeAll` | services/inventory-service/src/inventory/service.ts:65-67 | the decrement loop takes each product's whole quantity |
| `InventoryClass.InventoryService.ReturnAll` | services/inventory-service/src/inventory/service.ts:83-85 | the increment loop gives back each product's whole quantity |
| `InventoryClass.InventoryService.Execute` | services/inventory-service/src/inventory/service.ts:22-106 | one transaction: early answers change nothing, a throw in the business part or the hook rolls back, otherwise tables and mailbox are as specified |
| `InventoryClass.InventoryService.Handle` | shared/src/messaging/participant.ts:11-29 | the message handler acknowledges a known message without any change; a new one leaves tables, stock and mailbox exactly as the specified transaction says, its answer committed, or throws with everything as it was |
| `Providers.LocalProvider.Execute` | services/payment-service/src/providers/local-provider.ts:18-56 | the account table, the request cache and the possibly lost reply are as specified, for which `ProviderRuns` says whose a reference is, who is refused and what stays undone |
| `ProviderRuns.ReferencesTell` | services/payment-service/src/providers/local-provider.ts:45-47 | over any calls in any modes: accounts with equal transaction ids are one order's, and a success answers the id of its own order's account |
| `ProviderRuns.AnswersTell` | services/payment-service/src/providers/local-provider.ts:45-47 | two answers with the same transaction id, however far apart, are about the same order |
| `ProviderRuns.NewOrdersAreDone` | services/payment-service/src/providers/local-provider.ts:42-54 | a charge or shipment of a new order under a new key opens its live account and answers its id, unless rejected; when the reply is lost the account is there nevertheless |
| `ProviderRuns.UndosAreDone` | services/payment-service/src/providers/local-provider.ts:30-37 | a compensation by the account's own saga, or before any, is never refused, answers that it undid something exactly when the account was live, and leaves nothing live |
| `ProviderRuns.UndoneIsFinal` | services/payment-service/src/providers/local-provider.ts:38-39 | over any calls: after a compensation that was not refused the account is never live again, and its saga's forward command under a new key is ALREADY_COMPENSATED, another saga's IDEMPOTENCY_CONFLICT |
| `ProviderRuns.StrangersAreRefused` | services/payment-service/src/providers/local-provider.ts:28-29 | over any calls: an account stays its saga's; another saga's command under a new key is IDEMPOTENCY_CONFLICT and changes no account |
| `ProviderRuns.SimulatedReferencesTell` | shared/src/testing/providers.ts:55-62 | tables of the in-memory provider related to the durable one's have one order for each generated id |
| `Providers.SimulatedProvider.Execute` | shared/src/testing/providers.ts:16-69 | results, orders and tombstones are as specified; a foreign operation throws and changes nothing |
| `Simulator.Bisimilar` | shared/src/testing/providers.ts:16-69 | in success and reject modes, with one saga per order, no command sequence tells the in-memory provider from the durable one |
| `Simulator.AnswersAgree` | services/payment-service/src/providers/local-provider.ts:23-54 | from related tables the two answers agree exactly when the key is known, or the call neither clashes with a foreign saga nor repeats a success whose reply is lost |
| `Simulator.CallsStayRelated` | shared/src/testing/providers.ts:35-62 | tombstones and orders together keep matching the account status, in every mode |
| `Simulator.ForeignRefundsDiffer` | shared/src/testing/providers.ts:38-44 | with two sagas on one order and commands the schema accepts, the providers differ: a foreign refund is refused by one and carried out by the other |
| `MessageStore.Store.Remember` | shared/src/messaging/store.ts:8-15 | true the first time, false for a duplicate, refused on changed content |
| `MessageStore.Store.CommitResult` | shared/src/messaging/participant.ts:19-24 | remembers the command and enqueues its one result the first time, changes nothing when it throws |
| `Mailbox.CommitKeepsCoupled` | shared/src/messaging/participant.ts:19-24 | a command is in the inbox exactly when one result with that causation is in the outbox; committed answers never change |
| `Idempotency.CanonicalTells` | shared/src/idempotency.ts:8-16 | two validated values have equal canonical text exactly when they are equal up to key order and dropped undefined fields |
| `JsonReader.CanonicalReads` | shared/src/idempotency.ts:8-16 | the canonical text is JSON: a reader of RFC 8259 texts reads it back, to its end, as a value that is the same up to key order and dropped undefined fields, with its keys in order at every level |
| `JsonReader.ValueReads` | shared/src/idempotency.ts:8-16 | every value in normal form is read back from its text, whatever delimiter follows |
| `JsonReader.StringReads` | shared/src/idempotency.ts:12-15 | every string, lone surrogates included, is read back from its quoted form |
| `JsonReader.BeforeIsLexicographic` | shared/src/idempotency.ts:12-12 | the order of the keys is the language's order of strings by code units |
| `Fingerprints.CommandTextTells` | shared/src/idempotency.ts:18-22 | for all commands with UUID ids: the canonical texts behind two command fingerprints are equal exactly when the commands agree in order, saga, operation and payload, whatever their keys |
| `Fingerprints.OrderTextTells` | shared/src/idempotency.ts:24-27 | the canonical texts behind two order fingerprints are equal exactly when the payloads are |
| `Fingerprints.AcceptedTextTells` | services/order-orchestrator/src/orders/service.ts:16-28 | for two valid requests the hashed texts are equal exactly when the requests mean the same order, up to item order, id case and a defaulted payment method |
| `Idempotency.EncodeTells` | shared/src/idempotency.ts:8-16 | a value in normal form is determined by its text, whatever delimiter follows |
| `Idempotency.QuotesTell` | shared/src/idempotency.ts:8-16 | quoted strings, with the escapes of section 7 of RFC 8259 and escaped lone surrogates, end where they say and determine their content |
| `Idempotency.NumbersTell` | shared/src/idempotency.ts:15-15 | decimal integers are determined by their text |
| `Idempotency.KeyParts` | shared/src/idempotency.ts:4-6 | a command key is the word saga, the lower-case saga id and the operation's schema name at fixed places, with colons between |
| `Idempotency.KeysTell` | shared/src/idempotency.ts:4-6 | a command key names exactly one saga and one operation, whatever the case of the id |
| `Idempotency.KeysAreValid` | shared/src/idempotency.ts:4-6 | every command key passes the idempotency key schema |
| `Catalog.NormalFormsMeet` | services/order-orchestrator/src/orders/service.ts:18-19 | two baskets have the same normal form exactly when they are permutations of each other up to the case of their ids |
| `Catalog.SameBasketSameCharge` | shared/src/catalog.ts:12-20 | total and acceptance do not depend on the order of items or the case of ids |
| `Catalog.CalculateOrderTotal` | shared/src/catalog.ts:12-20 | the loop returns exactly what the pieces cost by the price list, 2,500.00, 850.00 and 32,000.00, and throws exactly for a product that is not sold or a total outside 1 to 9,999,999,999 |
| `Catalog.TotalIsAmountDue` | shared/src/catalog.ts:5-18 | the loop's sum over the items is the sum over the three products of price times pieces ordered |
| `Acceptance.SamePayload` | services/order-orchestrator/src/orders/service.ts:16-20 | fingerprints of two requests match exactly when they mean the same order, up to item order, id case and a defaulted payment method |
| `Acceptance.PayloadsAreNormal` | services/order-orchestrator/src/orders/service.ts:18-19 | an accepted payload's basket is valid and sorted, which is what the system relies on |
| `Acceptance.OrderBook.Accept` | services/order-orchestrator/src/orders/service.ts:16-31 | one order per customer and key: created with exactly the request's customer, currency, address, items, price-list total and method, cash if left out; replayed exactly when what is stored is what this request asks, refused as a conflict otherwise; invalid requests change nothing |
| `Acceptance.AcceptableMeans` | services/order-orchestrator/src/orders/service.ts:17-18 | what is accepted, spelled out: a UUID customer, one to a hundred different products of the price list up to case, each one to ten thousand times, for at most 99,999,999.99 |
| `Acceptance.PayloadStores` | services/order-orchestrator/src/orders/service.ts:18-19 | the stored payload is determined by what a request says: ids, sorted items, price-list total, currency, address, method |
| `Acceptance.LeftOutMeansCash` | services/order-orchestrator/src/orders/service.ts:18-18 | a request without a payment method is the same order as with COD and another order than with BANK_TRANSFER |
| `Acceptance.OrderBook.AcceptAgain` | services/order-orchestrator/src/orders/service.ts:22-31 | a second request under the same key gets the first order exactly when it means the same order, and a conflict otherwise |
| `Basket.SameNormalForm` | services/order-orchestrator/src/orders/service.ts:18-19 | sorting identifies exactly the permutations of a basket without duplicates |
| `Identifiers.ValueIdentifies` | services/inventory-service/src/inventory/service.ts:25-27 | two UUID texts are equal up to case exactly when they are the same number |
| `Identifiers.TextsAreNumbers` | services/inventory-service/src/inventory/service.ts:25-27 | numbers below 2 to the 128th and lower-case UUID texts are the same thing, both ways |
| `Money.RoundTrip` | apps/web/src/lib/checkout/form.ts:16-25 | for every amount in 1..9,999,999,999 parsing its printed form gives it back |
| `Money.PrintingTells` | apps/web/src/lib/checkout/form.ts:23-25 | printing is injective |
| `Money.ParsesExactly` | apps/web/src/lib/checkout/form.ts:16-22 | a text is accepted exactly when, trimmed, it is a well-written amount in range, and it denotes exactly the returned number of minor units |

## Left out

- Liveness under every schedule: `SystemFates` proves that an end stays reachable from every world and which ends do; that it is reached needs fair delivery and providers that reply, which the code cannot ensure.
- SystemFates.EveryOrderMayEnd: the continuation may use crashes, an operator's resume, the confirmation of a bank transfer, and other orders' failures; how long it takes is not bounded.
- ServiceClass.ProviderService.Execute: is one undisturbed execution; interleaving with other orders and crashes are covered by the machine it is proved to follow.
- ServiceTheorems.CompletedKeysAnswerAlike: takes commands in the normal form the service gives them before anything else (lower-case ids, sorted items, a payment method filled in).
- OrderClass.OrderSaga.Run: is one order's saga under its session lock; the lookup by order id and the return when the lock is taken are not modelled.
- Idempotency.CanonicalTells: numbers are integers, as all validated numbers are; the text of fractions and exponents is not modelled.
- Identifiers.ValueIdentifies: accepts any version digit, where the schema restricts it; products are sorted by number, where the code compares lower-case texts.
- InventoryTheorems.StepKeepsConsistent: the mailbox keeps a command in normal form, so a message id reused for the same basket in another order is not told apart.
- The handler's early look into its inbox, in the machines: it only skips an execution that would repeat the stored answer (`InventoryClass.InventoryService.Handle` has it).
- Two readings of the clock inside one transaction, and clocks that differ between workers.
- Database mechanics: SQL, lock timeouts, check constraints, advisory lock hashing; transactions are atomic and per-order locks exclude each other.
- Direct participant commands competing with an active saga, at the system level; the service and inventory theorems cover them.
- Changes of price, activity or stock made outside the saga.
- Cloning of the in-memory provider's replies, and the text of generated transaction ids.
- `normalizeDraft` and `validateCheckoutDraft` of the checkout form, and the limits and trimming of address fields: the model takes them as validated.
- HTTP routing, authentication, metrics, logging, RabbitMQ connections and topology, and the web client.
