/** `BrokerOrderService` as an object over the orchestrator's four tables
    (services/order-orchestrator/src/saga/brokerOrders.ts, shared/src/messaging/rabbit.ts).

    Every public method is one transaction: it commits what `Broker` specifies for the slice of
    one order and touches no other order, or throws and rolls everything back. */
module BrokerClass {
  import opened Contracts
  import opened StateMachine
  import opened Broker

  /** The order a message belongs to. */
  function OrderOf(body: Body): Uuid {
    match body
    case CommandBody(c) => c.orderId
    case DeadLetter(env) => env.result.orderId
  }

  function OutboxOf(outbox: map<Uuid, Outgoing>, o: Uuid): map<Uuid, Outgoing> {
    map m | m in outbox && OrderOf(outbox[m].body) == o :: outbox[m]
  }

  function InboxOf(inbox: map<Uuid, ResultEnvelope>, o: Uuid): map<Uuid, ResultEnvelope> {
    map k | k in inbox && inbox[k].result.orderId == o :: inbox[k]
  }

  /** Messages belong to orders that exist. */
  predicate Known(outbox: map<Uuid, Outgoing>, inbox: map<Uuid, ResultEnvelope>, orders: set<Uuid>) {
    && (forall m | m in outbox :: OrderOf(outbox[m].body) in orders)
    && (forall k | k in inbox :: inbox[k].result.orderId in orders)
  }

  lemma KnownSends(outbox: map<Uuid, Outgoing>, inbox: map<Uuid, ResultEnvelope>, orders: set<Uuid>, id: Uuid,
                   sent: Outgoing)
    requires Known(outbox, inbox, orders) && OrderOf(sent.body) in orders
    ensures Known(outbox[id := sent], inbox, orders)
  {
  }

  lemma KnownReceives(outbox: map<Uuid, Outgoing>, inbox: map<Uuid, ResultEnvelope>, orders: set<Uuid>,
                      env: ResultEnvelope)
    requires Known(outbox, inbox, orders) && env.result.orderId in orders
    ensures Known(outbox, inbox[env.messageId := env], orders)
  {
  }

  lemma KnownGrows(outbox: map<Uuid, Outgoing>, inbox: map<Uuid, ResultEnvelope>, orders: set<Uuid>, o: Uuid)
    requires Known(outbox, inbox, orders)
    ensures Known(outbox, inbox, orders + {o})
  {
  }

  /** An order that does not exist has no messages. */
  lemma StrangersHaveNone(outbox: map<Uuid, Outgoing>, inbox: map<Uuid, ResultEnvelope>, orders: set<Uuid>, o: Uuid)
    requires Known(outbox, inbox, orders) && o !in orders
    ensures OutboxOf(outbox, o) == map[] && InboxOf(inbox, o) == map[]
  {
  }

  lemma OutboxInserts(outbox: map<Uuid, Outgoing>, id: Uuid, sent: Outgoing, o: Uuid)
    requires id !in outbox
    ensures OutboxOf(outbox[id := sent], o)
         == if OrderOf(sent.body) == o then OutboxOf(outbox, o)[id := sent] else OutboxOf(outbox, o)
  {
  }

  lemma InboxInserts(inbox: map<Uuid, ResultEnvelope>, env: ResultEnvelope, o: Uuid)
    requires env.messageId !in inbox
    ensures InboxOf(inbox[env.messageId := env], o)
         == if env.result.orderId == o then InboxOf(inbox, o)[env.messageId := env] else InboxOf(inbox, o)
  {
  }

  lemma Projected(outbox: map<Uuid, Outgoing>, id: Uuid, o: Uuid)
    ensures id in OutboxOf(outbox, o) <==> id in outbox && OrderOf(outbox[id].body) == o
    ensures id in OutboxOf(outbox, o) ==> OutboxOf(outbox, o)[id] == outbox[id]
  {
  }

  lemma OutboxTicks(outbox: map<Uuid, Outgoing>, id: Uuid, sent: Outgoing, o: Uuid)
    requires id in outbox && sent.body == outbox[id].body
    ensures OutboxOf(outbox[id := sent], o)
         == if OrderOf(sent.body) == o then OutboxOf(outbox, o)[id := sent] else OutboxOf(outbox, o)
  {
  }

  /** What is left of a transaction whose new message id another order already used: the insert of
      the message does nothing. */
  function Landed(d: Slice, foreign: bool, id: Uuid): Slice {
    if foreign then d.(outbox := d.outbox - {id}) else d
  }

  lemma DeadLetterLands(d: Slice, foreign: bool, env: ResultEnvelope, now: nat)
    requires foreign ==> env.messageId !in d.outbox
    ensures Landed(Broker.Enqueue(d, env.messageId, DeadLetter(env), now), foreign, env.messageId)
         == if foreign then d else Broker.Enqueue(d, env.messageId, DeadLetter(env), now)
  {
    if foreign {
      assert d.outbox[env.messageId := Outgoing(DeadLetter(env), now, false, None)] - {env.messageId} == d.outbox;
    }
  }

  lemma NothingDropped(d: Slice, foreign: bool, id: Uuid)
    requires foreign ==> id !in d.outbox
    ensures Landed(d, foreign, id) == d
  {
    assert foreign ==> d.outbox - {id} == d.outbox;
  }

  lemma InterventionSendsNothing(d: Slice, saga: Row)
    ensures Broker.Intervene(d, saga, CommandRetriesExhausted).outbox == d.outbox
  {
  }

  /** What follows once the verdict is saved. */
  function Ending(cfg: Config, d: Slice, retry: bool, env: ResultEnvelope, now: nat, mid: Uuid): Tx {
    if Terminal(d.row.progress.status) then Committed(d)
    else if retry && d.row.brokerAttempts >= 3 then
      var flagged := Broker.Intervene(d, d.row, CommandRetriesExhausted);
      Committed(Broker.Enqueue(flagged, env.messageId, DeadLetter(env), now))
    else
      Broker.Dispatch(cfg, d, d.row, if retry then now + cfg.retryDelay * d.row.brokerAttempts else now, mid)
  }

  lemma ResolveEnds(cfg: Config, d: Slice, v: Verdict, env: ResultEnvelope, now: nat, mid: Uuid)
    ensures Resolve(cfg, d, v, env, now, mid)
         == Ending(cfg, Broker.Save(d, d.row, v.row, v.event, Some(env.result), v.direction, v.step), v.retry, env,
                   now, mid)
  {
    hide Broker.Dispatch, Broker.Intervene, Broker.Enqueue;
  }

  lemma DispatchSends(cfg: Config, d: Slice, saga: Row, availableAt: nat, mid: Uuid)
    ensures Broker.Dispatch(cfg, d, saga, availableAt, mid).Committed? ==>
      Broker.Dispatch(cfg, d, saga, availableAt, mid).slice.outbox.Keys <= d.outbox.Keys + {mid}
  {
    hide NextOperation;
  }

  /** The message is a command of this saga for this operation: under the saga's own key, asking for
      exactly what was ordered, ready from this time on and not yet handed over. */
  predicate Sends(sent: Outgoing, saga: Row, operation: Operation, availableAt: nat) {
    && sent.body.CommandBody? && sent.availableAt == availableAt && !sent.handed && sent.publishedAt.None?
    && var c := sent.body.command;
       && c.orderId == saga.orderId && c.sagaId == saga.id && c.operation == operation
       && c.key == SagaKey(saga.id, operation) && Carries(c, saga.payload)
  }

  /** It is answered within the time-out, or recovery may act. */
  predicate WaitsFor(cfg: Config, row: Row, mid: Uuid, availableAt: nat) {
    && row.pending == Some(mid) && row.lease.None?
    && row.responseDeadlineAt == Some(availableAt + cfg.commandTimeout)
    && row.nextAttemptAt == availableAt + cfg.commandTimeout
  }

  lemma DispatchTells(cfg: Config, d: Slice, saga: Row, availableAt: nat, mid: Uuid)
    requires mid !in d.outbox && NextOperation(saga.progress).Next?
    ensures
      var tx := Broker.Dispatch(cfg, d, saga, availableAt, mid);
      && tx.Committed? && mid in tx.slice.outbox
      && Sends(tx.slice.outbox[mid], saga, NextOperation(saga.progress).operation, availableAt)
      && WaitsFor(cfg, tx.slice.row, mid, availableAt)
  {
    hide NextOperation, Carries;
    BuiltCarries(NextOperation(saga.progress).operation, saga.orderId, saga.id, saga.payload);
  }

  lemma VerdictKeepsOrder(saga: Row, result: Result, step: SagaStep)
    requires IsForward(saga.progress.operation)
    requires saga.progress.status != Compensating ==> result.operation == saga.progress.operation
    ensures Judge(saga, result, step).row.orderId == saga.orderId
  {
  }

  /** The orders after these claims, one after the other. */
  function ClaimedSlices(slices: map<Uuid, Slice>, candidates: seq<Uuid>, tokens: seq<Uuid>, now: nat,
                         leaseMs: nat): (r: map<Uuid, Slice>)
    requires |tokens| == |candidates| && forall o | o in candidates :: o in slices
    ensures r.Keys == slices.Keys
  {
    if candidates == [] then slices
    else
      var n := |candidates| - 1;
      var before := ClaimedSlices(slices, candidates[..n], tokens[..n], now, leaseMs);
      before[candidates[n] := Claim(before[candidates[n]], now, tokens[n], leaseMs)]
  }

  /** Candidates are distinct orders whose saga may be claimed. */
  predicate Candidates(slices: map<Uuid, Slice>, candidates: seq<Uuid>, now: nat) {
    && (forall i :: 0 <= i < |candidates| ==> candidates[i] in slices && Claimable(slices[candidates[i]].row, now))
    && (forall i, j :: 0 <= i < j < |candidates| ==> candidates[i] != candidates[j])
  }

  /** The orders that the query of `claimRecovery` may see: those a worker has locked are skipped. */
  function Open(sagas: map<Uuid, Row>, locked: set<Uuid>, now: nat): set<Uuid> {
    set o | o in sagas && Claimable(sagas[o], now) && o !in locked
  }

  /** The earliest of the open orders, in order; the others are the rest. */
  predicate Earliest(sagas: map<Uuid, Row>, open: set<Uuid>, candidates: seq<Uuid>, rest: set<Uuid>) {
    && open <= sagas.Keys && (forall c | c in candidates :: c in open) && rest <= open
    && (forall i, j :: 0 <= i < j < |candidates| ==> candidates[i] != candidates[j])
    && (forall o | o in open :: o in rest <==> o !in candidates)
    && (forall i, j :: 0 <= i < j < |candidates| ==>
          sagas[candidates[i]].nextAttemptAt <= sagas[candidates[j]].nextAttemptAt)
    && (forall c, o | c in candidates && o in rest :: sagas[c].nextAttemptAt <= sagas[o].nextAttemptAt)
  }

  lemma OpenIsEarliest(sagas: map<Uuid, Row>, locked: set<Uuid>, now: nat)
    ensures Earliest(sagas, Open(sagas, locked, now), [], Open(sagas, locked, now))
  {
  }

  lemma EarliestExist(sagas: map<Uuid, Row>, open: set<Uuid>, candidates: seq<Uuid>, rest: set<Uuid>)
    requires Earliest(sagas, open, candidates, rest)
    ensures rest <= sagas.Keys
  {
  }

  lemma NextIsEarliest(sagas: map<Uuid, Row>, open: set<Uuid>, candidates: seq<Uuid>, rest: set<Uuid>, first: Uuid)
    requires Earliest(sagas, open, candidates, rest) && first in rest
    requires forall o | o in rest :: sagas[first].nextAttemptAt <= sagas[o].nextAttemptAt
    ensures Earliest(sagas, open, candidates + [first], rest - {first})
  {
    var more := candidates + [first];
    forall i, j | 0 <= i < j < |more|
      ensures more[i] != more[j] && sagas[more[i]].nextAttemptAt <= sagas[more[j]].nextAttemptAt
    {
      assert more[i] == candidates[i] && more[i] in candidates;
    }
  }

  /** What the query answers: the earliest open orders in order, all of them or as many as allowed. */
  ghost predicate Selected(sagas: map<Uuid, Row>, locked: set<Uuid>, limit: nat, now: nat, candidates: seq<Uuid>) {
    exists rest ::
      && Earliest(sagas, Open(sagas, locked, now), candidates, rest)
      && |candidates| <= limit && (rest != {} ==> |candidates| == limit)
  }

  datatype Ticket = Ticket(orderId: Uuid, sagaId: Uuid, message: Option<Uuid>, token: Uuid)

  /** One claim for every candidate, under a token of its own. */
  predicate Tickets(sagas: map<Uuid, Row>, candidates: seq<Uuid>, tokens: seq<Uuid>, claims: seq<Ticket>) {
    && |claims| == |candidates| <= |tokens|
    && forall i :: 0 <= i < |claims| ==>
         && candidates[i] in sagas
         && claims[i] == TicketFor(sagas, candidates[i], tokens[i])
  }

  lemma {:induction false} UnclaimedSlices(slices: map<Uuid, Slice>, candidates: seq<Uuid>, tokens: seq<Uuid>,
                                           now: nat, leaseMs: nat, o: Uuid)
    requires |tokens| == |candidates| && (forall p | p in candidates :: p in slices) && o in slices && o !in candidates
    ensures ClaimedSlices(slices, candidates, tokens, now, leaseMs)[o] == slices[o]
  {
    if candidates != [] {
      var n := |candidates| - 1;
      UnclaimedSlices(slices, candidates[..n], tokens[..n], now, leaseMs, o);
    }
  }

  lemma NoClaims(slices: map<Uuid, Slice>, now: nat, leaseMs: nat)
    ensures ClaimedSlices(slices, [], [], now, leaseMs) == slices
  {
  }

  /** One more claim: the candidate is still as the query found it. */
  lemma ClaimsSoFar(slices: map<Uuid, Slice>, candidates: seq<Uuid>, tokens: seq<Uuid>, i: nat, now: nat, leaseMs: nat)
    requires Candidates(slices, candidates, now) && |tokens| == |candidates| && i < |candidates|
    ensures var before := ClaimedSlices(slices, candidates[..i], tokens[..i], now, leaseMs);
      && candidates[i] in before && before[candidates[i]] == slices[candidates[i]]
      && Claimable(before[candidates[i]].row, now)
      && ClaimedSlices(slices, candidates[..i + 1], tokens[..i + 1], now, leaseMs)
         == before[candidates[i] := Claim(before[candidates[i]], now, tokens[i], leaseMs)]
  {
    hide Claim, Claimable;
    assert candidates[i] !in candidates[..i];
    UnclaimedSlices(slices, candidates[..i], tokens[..i], now, leaseMs, candidates[i]);
    assert candidates[..i + 1][..i] == candidates[..i] && tokens[..i + 1][..i] == tokens[..i];
  }

  lemma NoTickets(sagas: map<Uuid, Row>, tokens: seq<Uuid>)
    ensures Tickets(sagas, [], tokens, [])
  {
  }

  function TicketFor(sagas: map<Uuid, Row>, o: Uuid, token: Uuid): Ticket
    requires o in sagas
  {
    Ticket(o, sagas[o].id, sagas[o].pending, token)
  }

  lemma TicketAdds(sagas: map<Uuid, Row>, candidates: seq<Uuid>, tokens: seq<Uuid>, i: nat, claims: seq<Ticket>)
    requires i < |candidates| == |tokens| && Tickets(sagas, candidates[..i], tokens, claims) && candidates[i] in sagas
    ensures Tickets(sagas, candidates[..i + 1], tokens, claims + [TicketFor(sagas, candidates[i], tokens[i])])
  {
  }

  // ---------- The pending message is the saga's own ----------

  /** Every transaction leaves this so, though not every step within one does. */
  predicate Pends(d: Slice) {
    d.row.pending.Some? ==> d.row.pending.value in d.outbox
  }

  lemma DispatchPends(cfg: Config, d: Slice, saga: Row, availableAt: nat, mid: Uuid)
    ensures
      var tx := Broker.Dispatch(cfg, d, saga, availableAt, mid);
      tx.Committed? ==> Pends(tx.slice)
  {
    hide NextOperation;
  }

  lemma AcceptPends(cfg: Config, id: Uuid, o: Uuid, payload: OrderPayload, now: nat, mid: Uuid)
    ensures Pends(Broker.Accept(cfg, id, o, payload, now, mid))
  {
    hide Broker.Dispatch;
    var status := if payload.paymentMethod == BankTransfer then PendingPayment else InProgress;
    var row := Row(id, o, payload, Progress(status, ChargePayment, PaymentStep, [], [], false),
                   None, None, now, 0, 0, 0, None, None, None, 1);
    var d := Slice(row, [Entry(1, None, status, PaymentStep, ForwardDirection, OrderAccepted, None, None, None)],
                   map[], map[]);
    DispatchPends(cfg, d, row, now, mid);
  }

  lemma ConfirmPends(cfg: Config, d: Slice, now: nat, mid: Uuid)
    requires Pends(d) && Broker.ConfirmPayment(cfg, d, now, mid).Committed?
    ensures Pends(Broker.ConfirmPayment(cfg, d, now, mid).slice)
  {
    hide Broker.Dispatch;
    var saga := d.row;
    var confirmed := Broker.Save(d, saga, saga.(progress := saga.progress.(status := InProgress), nextAttemptAt := now),
                                 PaymentConfirmed, None, ForwardDirection, saga.progress.step);
    DispatchPends(cfg, confirmed, confirmed.row, now, mid);
  }

  lemma ResumePends(cfg: Config, d: Slice, now: nat, mid: Uuid)
    requires Pends(d) && Resume(cfg, d, now, mid).Committed?
    ensures Pends(Resume(cfg, d, now, mid).slice)
  {
    hide Broker.Dispatch;
    DispatchPends(cfg, d, d.row.(brokerAttempts := 0, recoveryAttempts := 0, reason := None), now, mid);
  }

  lemma JudgedPends(saga: Row, result: Result, step: SagaStep)
    requires IsForward(saga.progress.operation)
    requires saga.progress.status != Compensating ==> result.operation == saga.progress.operation
    ensures Judge(saga, result, step).row.pending.None?
  {
  }

  lemma ResolvePends(cfg: Config, d: Slice, v: Verdict, env: ResultEnvelope, now: nat, mid: Uuid)
    requires v.row.pending.None? && Resolve(cfg, d, v, env, now, mid).Committed?
    ensures
      var d' := Resolve(cfg, d, v, env, now, mid).slice;
      Pends(d') && (d'.row.pending.Some? ==> d'.row.pending.value == mid)
  {
    hide NextOperation;
  }

  /** Not even a dead letter that another order displaces is the pending message. */
  lemma ReceivePends(cfg: Config, d: Slice, env: ResultEnvelope, now: nat, mid: Uuid, foreign: bool)
    requires Pends(d) && Broker.Receive(cfg, d, env, now, mid).Committed?
    requires foreign ==> env.messageId !in d.outbox && env.messageId != mid
    ensures Pends(Landed(Broker.Receive(cfg, d, env, now, mid).slice, foreign, env.messageId))
  {
    hide Resolve, Judge, Correlated;
    if NextOperation(d.row.progress).Next? {
      NextShape(d.row.progress);
      var step := NextOperation(d.row.progress).step;
      hide NextOperation;
      if NextOperation(d.row.progress).operation == env.result.operation {
        JudgedPends(d.row, env.result, step);
        var v := Judge(d.row, env.result, step);
        if Resolve(cfg, Remembered(d, env), v, env, now, mid).Committed? {
          ResolvePends(cfg, Remembered(d, env), v, env, now, mid);
        }
      }
    }
  }

  lemma RecoverPends(cfg: Config, d: Slice, token: Uuid, now: nat, mid: Uuid)
    requires Pends(d) && Recover(cfg, d, token, now, mid).Committed?
    ensures Pends(Recover(cfg, d, token, now, mid).slice)
  {
    hide Broker.Dispatch, NextOperation, AwaitingDelivery, ResponseDeadline, HoldsLease;
    var recovered := Broker.Save(d, d.row, d.row.(pending := None, recoveryAttempts := d.row.recoveryAttempts + 1,
                                                  lease := None),
                                 RecoveryResumed, None, ForwardDirection, d.row.progress.step);
    DispatchPends(cfg, recovered, recovered.row, now, mid);
  }

  lemma RelayPends(d: Slice, m: Uuid, now: nat)
    requires Pends(d)
    ensures Pends(HandOver(d, m, now)) && Pends(MarkPublished(HandOver(d, m, now), m, now))
  {
  }

  lemma CandidatesExist(slices: map<Uuid, Slice>, candidates: seq<Uuid>, now: nat)
    requires Candidates(slices, candidates, now)
    ensures forall o | o in candidates :: o in slices
  {
  }

  lemma {:induction false} ClaimsPend(slices: map<Uuid, Slice>, candidates: seq<Uuid>, tokens: seq<Uuid>, now: nat,
                                      leaseMs: nat)
    requires |tokens| == |candidates| && (forall o | o in candidates :: o in slices)
    requires forall o | o in slices :: Pends(slices[o])
    ensures forall o | o in slices :: Pends(ClaimedSlices(slices, candidates, tokens, now, leaseMs)[o])
  {
    hide Claimable;
    if candidates != [] {
      var n := |candidates| - 1;
      ClaimsPend(slices, candidates[..n], tokens[..n], now, leaseMs);
    }
  }

  /** A message to publish that no other worker has locked. */
  predicate Due(outbox: map<Uuid, Outgoing>, m: Uuid, locked: set<Uuid>, now: nat) {
    m in outbox && outbox[m].publishedAt.None? && outbox[m].availableAt <= now && m !in locked
  }

  class BrokerOrders {
    const cfg: Config
    var sagas: map<Uuid, Row>
    var transitions: map<Uuid, seq<Entry>>
    var outbox: map<Uuid, Outgoing>
    var inbox: map<Uuid, ResultEnvelope>

    constructor (cfg: Config)
      ensures this.cfg == cfg && Valid() && sagas == map[] && outbox == map[] && inbox == map[]
    {
      this.cfg := cfg;
      sagas, transitions, outbox, inbox := map[], map[], map[], map[];
    }

    /** Rows, logs and messages belong to their orders. */
    ghost predicate Tabular()
      reads this
    {
      && transitions.Keys == sagas.Keys
      && (forall o | o in sagas :: sagas[o].orderId == o)
      && Known(outbox, inbox, sagas.Keys)
    }

    /** Everything the tables hold about one order. */
    ghost function SliceOf(o: Uuid): Slice
      reads this
      requires Tabular() && o in sagas
    {
      Slice(sagas[o], transitions[o], OutboxOf(outbox, o), InboxOf(inbox, o))
    }

    /** And a saga waits for a message of its own. */
    ghost predicate Valid()
      reads this
    {
      Tabular() && forall o | o in sagas :: Pends(SliceOf(o))
    }

    /** A message of another order has this id. */
    predicate Foreign(id: Uuid, o: Uuid)
      reads this
    {
      id in outbox && OrderOf(outbox[id].body) != o
    }

    /** The broker was given this message, which was due, and unless the process died its row is
        marked; no other row is touched. */
    twostate predicate Published(m: Uuid, now: nat, crash: bool)
      reads this
    {
      && m in old(outbox) && old(outbox)[m].publishedAt.None? && old(outbox)[m].availableAt <= now
      && outbox == old(outbox)[m := old(outbox)[m].(handed := true,
                                                    publishedAt := if crash then None else Some(now))]
    }

    /** The order's slice is now `d`, and every other order is as it was. */
    twostate predicate Becomes(new o: Uuid, new d: Slice)
      reads this
    {
      && old(Tabular()) && Tabular() && sagas.Keys == old(sagas).Keys + {o}
      && SliceOf(o) == d
      && forall p | p in old(sagas) && p != o :: SliceOf(p) == old(SliceOf(p))
    }

    lemma IsTabular()
      requires Valid()
      ensures Tabular()
    {
    }

    lemma PendsAt(o: Uuid)
      requires Valid() && o in sagas
      ensures Tabular() && Pends(SliceOf(o))
    {
    }

    lemma OwnMessage(o: Uuid)
      requires Valid() && o in sagas && sagas[o].pending.Some?
      ensures sagas[o].pending.value in outbox && OrderOf(outbox[sagas[o].pending.value].body) == o
    {
      assert Pends(SliceOf(o));
      Projected(outbox, sagas[o].pending.value, o);
    }

    /** A transaction on one order that leaves its pending message in place. */
    twostate lemma StaysValid(new o: Uuid, new d: Slice)
      requires old(Valid())
      requires Becomes(o, d)
      requires Pends(d)
      ensures Valid()
    {
      hide Known, OutboxOf, InboxOf, Pends;
      forall p | p in sagas ensures Pends(SliceOf(p)) {
        if p != o { assert SliceOf(p) == old(SliceOf(p)) && old(Pends(SliceOf(p))); }
      }
    }

    // ---------- Private methods ----------

    method Save(o: Uuid, saga: Row, row: Row, event: EventKind, result: Option<Result>, direction: Direction,
                step: SagaStep)
      requires Tabular() && o in sagas && row.orderId == o
      modifies this`sagas, this`transitions
      ensures Becomes(o, Broker.Save(old(SliceOf(o)), saga, row, event, result, direction, step))
    {
      hide Known, OutboxOf, InboxOf;
      var updated := row.(version := saga.version + 1);
      sagas := sagas[o := updated];
      assert sagas.Keys == old(sagas).Keys;
      transitions := transitions[o := transitions[o] + [
        Entry(updated.version, Some(saga.progress.status), updated.progress.status, step, direction, event,
              if updated.pending.Some? then updated.pending else saga.pending, updated.reason, result)]];
    }

    method Enqueue(o: Uuid, id: Uuid, body: Body, availableAt: nat)
      requires Tabular() && o in sagas && OrderOf(body) == o
      modifies this`outbox
      ensures !old(Foreign(id, o)) ==> Becomes(o, Broker.Enqueue(old(SliceOf(o)), id, body, availableAt))
      ensures old(Foreign(id, o)) ==> unchanged(this)
    {
      hide Known, OutboxOf, InboxOf;
      Projected(outbox, id, o);
      if id !in outbox {
        KnownSends(outbox, inbox, sagas.Keys, id, Outgoing(body, availableAt, false, None));
        forall p { OutboxInserts(outbox, id, Outgoing(body, availableAt, false, None), p); }
        outbox := outbox[id := Outgoing(body, availableAt, false, None)];
      }
    }

    method Remember(o: Uuid, env: ResultEnvelope)
      requires Tabular() && o in sagas && env.result.orderId == o && env.messageId !in inbox
      modifies this`inbox
      ensures Becomes(o, Remembered(old(SliceOf(o)), env))
    {
      hide Known, OutboxOf, InboxOf;
      KnownReceives(outbox, inbox, sagas.Keys, env);
      forall p { InboxInserts(inbox, env, p); }
      inbox := inbox[env.messageId := env];
    }

    method Intervene(o: Uuid, saga: Row, reason: Reason)
      requires Tabular() && o in sagas
      modifies this`sagas, this`transitions
      ensures Becomes(o, Broker.Intervene(old(SliceOf(o)), saga, reason))
    {
      hide Known, OutboxOf, InboxOf;
      Save(o, saga, sagas[o].(reason := Some(reason), lease := None), ManualInterventionRequired, None,
           ForwardDirection, saga.progress.step);
    }

    /** Records a delivery of the next operation and enqueues its command. */
    method Send(o: Uuid, saga: Row, operation: Operation, step: SagaStep, availableAt: nat, mid: Uuid)
      requires Tabular() && o in sagas && saga.orderId == o && mid !in outbox
      requires NextOperation(saga.progress) == Next(operation, step)
      modifies this`sagas, this`transitions, this`outbox
      ensures Broker.Dispatch(cfg, old(SliceOf(o)), saga, availableAt, mid).Committed?
      ensures Becomes(o, Broker.Dispatch(cfg, old(SliceOf(o)), saga, availableAt, mid).slice)
    {
      hide Known, OutboxOf, InboxOf, NextOperation, Broker.Save, Broker.Enqueue;
      var back := saga.progress.status == Compensating;
      var row := sagas[o].(
        pending := Some(mid),
        attempts := saga.attempts + 1,
        brokerAttempts := saga.brokerAttempts + 1,
        recoveryAttempts := saga.recoveryAttempts,
        reason := saga.reason,
        responseDeadlineAt := Some(availableAt + cfg.commandTimeout),
        nextAttemptAt := availableAt + cfg.commandTimeout,
        lease := None);
      Save(o, saga, row, if back then CompensationDispatched else CommandDispatched, None,
           if back then CompensationDirection else ForwardDirection, step);
      Enqueue(o, mid, CommandBody(BuildCommand(operation, saga.orderId, saga.id, saga.payload)), availableAt);
    }

    /** False when the cursor throws. */
    method Dispatch(o: Uuid, saga: Row, availableAt: nat, mid: Uuid) returns (ok: bool)
      requires Tabular() && o in sagas && saga.orderId == o && mid !in outbox
      modifies this`sagas, this`transitions, this`outbox
      ensures ok <==> Broker.Dispatch(cfg, old(SliceOf(o)), saga, availableAt, mid).Committed?
      ensures ok ==> Becomes(o, Broker.Dispatch(cfg, old(SliceOf(o)), saga, availableAt, mid).slice)
      ensures ok && NextOperation(saga.progress).Next? ==>
        && mid in outbox && Sends(outbox[mid], saga, NextOperation(saga.progress).operation, availableAt)
        && WaitsFor(cfg, sagas[o], mid, availableAt)
      ensures !ok ==> unchanged(this)
    {
      hide Known, OutboxOf, InboxOf, NextOperation, Broker.Save, Broker.Enqueue, Sends, WaitsFor;
      Projected(outbox, mid, o);
      var next := NextOperation(saga.progress);
      match next {
        case Inconsistent => return false;
        case Finished =>
          Save(o, saga, sagas[o].(progress := sagas[o].progress.(status := FailedOrder), pending := None,
                                  responseDeadlineAt := None, lease := None),
               CompensationCompleted, None, CompensationDirection, saga.progress.step);
        case Next(operation, step) =>
          DispatchTells(cfg, SliceOf(o), saga, availableAt, mid);
          Send(o, saga, operation, step, availableAt, mid);
          Projected(outbox, mid, o);
      }
      ok := true;
    }

    // ---------- Accepting and confirming ----------

    /** The new order's rows, and its first command unless it waits for its payment. */
    method Insert(id: Uuid, o: Uuid, payload: OrderPayload, now: nat, mid: Uuid)
      requires Tabular() && o !in sagas && mid !in outbox
      modifies this
      ensures Becomes(o, Broker.Accept(cfg, id, o, payload, now, mid))
    {
      hide Known, OutboxOf, InboxOf, Broker.Dispatch, NextOperation, Landed;
      StrangersHaveNone(outbox, inbox, sagas.Keys, o);
      KnownGrows(outbox, inbox, sagas.Keys, o);
      var status := if payload.paymentMethod == BankTransfer then PendingPayment else InProgress;
      var saga := Row(id, o, payload, Progress(status, ChargePayment, PaymentStep, [], [], false),
                      None, None, now, 0, 0, 0, None, None, None, 1);
      sagas := sagas[o := saga];
      transitions := transitions[o := [Entry(1, None, status, PaymentStep, ForwardDirection, OrderAccepted, None, None,
                                             None)]];
      assert sagas.Keys == old(sagas).Keys + {o};
      if status == InProgress {
        var ok := Dispatch(o, saga, now, mid);
      }
    }

    /** `accept` for a new order, with the generated ids as parameters. */
    method Accept(id: Uuid, o: Uuid, payload: OrderPayload, now: nat, mid: Uuid)
      requires Valid() && o !in sagas && mid !in outbox
      modifies this
      ensures Valid() && Becomes(o, Broker.Accept(cfg, id, o, payload, now, mid))
    {
      hide Tabular, Valid, Pends, Broker.Accept, OutboxOf, InboxOf, Known;
      IsTabular();
      Insert(id, o, payload, now, mid);
      AcceptPends(cfg, id, o, payload, now, mid);
      StaysValid(o, Broker.Accept(cfg, id, o, payload, now, mid));
    }

    method ConfirmPayment(o: Uuid, now: nat, mid: Uuid) returns (ok: bool)
      requires Valid() && mid !in outbox
      modifies this
      ensures Valid()
      ensures o !in old(sagas) ==> !ok
      ensures o in old(sagas) ==> (ok <==> Broker.ConfirmPayment(cfg, old(SliceOf(o)), now, mid).Committed?)
      ensures ok ==> Becomes(o, Broker.ConfirmPayment(cfg, old(SliceOf(o)), now, mid).slice)
      ensures !ok ==> unchanged(this)
    {
      hide Known, OutboxOf, InboxOf, NextOperation, Valid, Pends;
      IsTabular();
      if o !in sagas { return false; }
      PendsAt(o);
      var saga := sagas[o];
      if saga.progress.status != PendingPayment || saga.payload.paymentMethod != BankTransfer { return true; }
      var sagas0, transitions0 := sagas, transitions;
      Save(o, saga, saga.(progress := saga.progress.(status := InProgress), nextAttemptAt := now),
           PaymentConfirmed, None, ForwardDirection, saga.progress.step);
      ok := Dispatch(o, sagas[o], now, mid);
      if ok {
        ConfirmPends(cfg, old(SliceOf(o)), now, mid);
        StaysValid(o, Broker.ConfirmPayment(cfg, old(SliceOf(o)), now, mid).slice);
      } else {
        sagas, transitions := sagas0, transitions0;
      }
    }

    /** `run`: a resume by hand. */
    method Run(o: Uuid, now: nat, mid: Uuid) returns (ok: bool)
      requires Valid() && mid !in outbox
      modifies this
      ensures Valid()
      ensures o !in old(sagas) ==> ok && unchanged(this)
      ensures o in old(sagas) ==> (ok <==> Resume(cfg, old(SliceOf(o)), now, mid).Committed?)
      ensures o in old(sagas) && ok ==> Becomes(o, Resume(cfg, old(SliceOf(o)), now, mid).slice)
      ensures !ok ==> unchanged(this)
    {
      hide Known, OutboxOf, InboxOf, NextOperation, Valid, Pends;
      IsTabular();
      if o !in sagas { return true; }
      PendsAt(o);
      var saga := sagas[o];
      if Terminal(saga.progress.status) || (saga.pending.Some? && saga.reason.None?) { return true; }
      ok := Dispatch(o, saga.(brokerAttempts := 0, recoveryAttempts := 0, reason := None), now, mid);
      if ok {
        ResumePends(cfg, old(SliceOf(o)), now, mid);
        StaysValid(o, Resume(cfg, old(SliceOf(o)), now, mid).slice);
      }
    }

    // ---------- Results ----------

    /** The branches of `receive` on an awaited result. */
    static method Examine(saga: Row, result: Result, step: SagaStep) returns (v: Verdict)
      requires IsForward(saga.progress.operation)
      requires saga.progress.status != Compensating ==> result.operation == saga.progress.operation
      ensures v == Judge(saga, result, step)
    {
      var p := saga.progress;
      var row := saga.(pending := None, responseDeadlineAt := None, reason := None, lastResult := Some(result),
                       lease := None);
      if p.status == Compensating {
        if result.outcome.Succeeded? {
          row := row.(brokerAttempts := 0, recoveryAttempts := 0,
                      progress := p.(compensated := p.compensated + [step]));
          return Verdict(row, CompensationSucceeded, CompensationDirection, step, false);
        }
        return Verdict(row, CompensationRetryRequired, CompensationDirection, step, true);
      }
      if result.outcome.Unknown? { return Verdict(row, RetryRequired, ForwardDirection, p.step, true); }
      if result.outcome.Failed? {
        var rejected :=
          || (result.operation == ChargePayment && result.outcome.code == PaymentDeclined)
          || (result.operation == ReserveInventory && result.outcome.code == InsufficientStock)
          || (result.operation == CreateShipment && result.outcome.code == ShippingRejected);
        var status := if !rejected then InProgress else if p.completed != [] then Compensating else FailedOrder;
        row := row.(progress := p.(status := status),
                    recoveryAttempts := if rejected then 0 else saga.recoveryAttempts,
                    brokerAttempts := if rejected then 0 else saga.brokerAttempts);
        return Verdict(row, StepRejected, ForwardDirection, p.step, !rejected);
      }
      row := row.(brokerAttempts := 0, recoveryAttempts := 0);
      if result.operation == FinalizeInventory {
        row := row.(progress := p.(status := CompletedOrder, finalized := true));
        return Verdict(row, OrderCompleted, ForwardDirection, p.step, false);
      }
      var next := NextForward(result.operation);
      row := row.(progress := p.(completed := p.completed + [step], operation := next, step := StepFor(next)));
      v := Verdict(row, StepSucceeded, ForwardDirection, p.step, false);
    }

    /** Leaves the saga to an operator and keeps the result that exhausted it as a dead letter. */
    method Bury(o: Uuid, saga: Row, env: ResultEnvelope, now: nat)
      requires Tabular() && o in sagas && env.result.orderId == o
      modifies this`sagas, this`transitions, this`outbox
      ensures
        var flagged := Broker.Intervene(old(SliceOf(o)), saga, CommandRetriesExhausted);
        Becomes(o, Landed(Broker.Enqueue(flagged, env.messageId, DeadLetter(env), now),
                          old(Foreign(env.messageId, o)), env.messageId))
    {
      hide Known, OutboxOf, InboxOf, Landed, Broker.Intervene, Broker.Enqueue;
      Projected(outbox, env.messageId, o);
      ghost var foreign := Foreign(env.messageId, o);
      InterventionSendsNothing(SliceOf(o), saga);
      Intervene(o, saga, CommandRetriesExhausted);
      DeadLetterLands(SliceOf(o), foreign, env, now);
      Enqueue(o, env.messageId, DeadLetter(env), now);
    }

    /** How `receive` ends once the verdict is saved. */
    method Finish(o: Uuid, retry: bool, env: ResultEnvelope, now: nat, mid: Uuid) returns (ok: bool)
      requires Tabular() && o in sagas && env.result.orderId == o && mid !in outbox
      modifies this`sagas, this`transitions, this`outbox
      ensures ok <==> Ending(cfg, old(SliceOf(o)), retry, env, now, mid).Committed?
      ensures ok ==> Becomes(o, Landed(Ending(cfg, old(SliceOf(o)), retry, env, now, mid).slice,
                                       old(Foreign(env.messageId, o)), env.messageId))
    {
      hide Known, OutboxOf, InboxOf, NextOperation, Broker.Dispatch, Landed, Broker.Enqueue, Broker.Intervene;
      Projected(outbox, env.messageId, o);
      ghost var foreign := Foreign(env.messageId, o);
      var updated := sagas[o];
      if Terminal(updated.progress.status) {
        NothingDropped(SliceOf(o), foreign, env.messageId);
        return true;
      }
      if retry && updated.brokerAttempts >= 3 {
        Bury(o, updated, env, now);
        return true;
      }
      var availableAt := if retry then now + cfg.retryDelay * updated.brokerAttempts else now;
      DispatchSends(cfg, SliceOf(o), updated, availableAt, mid);
      ok := Dispatch(o, updated, availableAt, mid);
      if ok { NothingDropped(SliceOf(o), foreign, env.messageId); }
    }

    /** The verdict is saved, and the transaction ends as it must. */
    method Conclude(o: Uuid, v: Verdict, env: ResultEnvelope, now: nat, mid: Uuid) returns (ok: bool)
      requires Tabular() && o in sagas && v.row.orderId == o && env.result.orderId == o && mid !in outbox
      modifies this`sagas, this`transitions, this`outbox
      ensures ok <==> Resolve(cfg, old(SliceOf(o)), v, env, now, mid).Committed?
      ensures ok ==> Becomes(o, Landed(Resolve(cfg, old(SliceOf(o)), v, env, now, mid).slice,
                                       old(Foreign(env.messageId, o)), env.messageId))
    {
      hide Known, OutboxOf, InboxOf, Resolve, Ending, Landed, Broker.Save;
      ResolveEnds(cfg, SliceOf(o), v, env, now, mid);
      Save(o, sagas[o], v.row, v.event, Some(env.result), v.direction, v.step);
      ok := Finish(o, v.retry, env, now, mid);
    }

    /** The cursor check and the verdict, once the awaited result is remembered. False when the
        check throws. */
    method Apply(o: Uuid, env: ResultEnvelope, now: nat, mid: Uuid) returns (ok: bool)
      requires Tabular() && o in sagas && env.result.orderId == o && mid !in outbox
      modifies this`sagas, this`transitions, this`outbox
      ensures
        var d := old(SliceOf(o));
        match NextOperation(d.row.progress)
        case Next(operation, step) =>
          if operation != env.result.operation then !ok
          else
            var tx := Resolve(cfg, d, Judge(d.row, env.result, step), env, now, mid);
            && (ok <==> tx.Committed?)
            && (ok ==> Becomes(o, Landed(tx.slice, old(Foreign(env.messageId, o)), env.messageId)))
        case _ => !ok
    {
      hide Known, OutboxOf, InboxOf, Resolve, Judge, NextOperation, Landed;
      var saga := sagas[o];
      var expected := NextOperation(saga.progress);
      if !expected.Next? || expected.operation != env.result.operation { return false; }
      NextShape(saga.progress);
      var v := Examine(saga, env.result, expected.step);
      VerdictKeepsOrder(saga, env.result, expected.step);
      ok := Conclude(o, v, env, now, mid);
    }

    /** `receive` from the inbox on, for a correlated result seen for the first time. */
    method Consume(o: Uuid, env: ResultEnvelope, now: nat, mid: Uuid) returns (ok: bool)
      requires Tabular() && o in sagas && env.result.orderId == o && mid !in outbox && env.messageId !in inbox
      requires Correlated(SliceOf(o), env) && env.messageId !in SliceOf(o).inbox
      modifies this
      ensures ok <==> Broker.Receive(cfg, old(SliceOf(o)), env, now, mid).Committed?
      ensures ok ==> Becomes(o, Landed(Broker.Receive(cfg, old(SliceOf(o)), env, now, mid).slice,
                                       old(Foreign(env.messageId, o)), env.messageId))
      ensures !ok ==> unchanged(this)
    {
      hide Known, OutboxOf, InboxOf, Correlated, Resolve, Judge, NextOperation, Landed;
      var saga := sagas[o];
      Projected(outbox, env.messageId, o);
      var sagas0, transitions0, outbox0, inbox0 := sagas, transitions, outbox, inbox;
      Remember(o, env);
      if saga.pending != Some(env.causationId) || Terminal(saga.progress.status) {
        NothingDropped(SliceOf(o), Foreign(env.messageId, o), env.messageId);
        return true;
      }
      ok := Apply(o, env, now, mid);
      if !ok { sagas, transitions, outbox, inbox := sagas0, transitions0, outbox0, inbox0; }
    }

    /** A message id that was used for another order's result makes `remember` throw. */
    method Receive(env: ResultEnvelope, now: nat, mid: Uuid) returns (ok: bool)
      requires Valid() && mid !in outbox
      modifies this
      ensures Valid()
      ensures env.result.orderId !in old(sagas) ==> !ok
      ensures env.result.orderId in old(sagas) ==>
        (ok <==>
          && (env.messageId in old(inbox) ==> old(inbox)[env.messageId].result.orderId == env.result.orderId)
          && Broker.Receive(cfg, old(SliceOf(env.result.orderId)), env, now, mid).Committed?)
      ensures ok ==>
        Becomes(env.result.orderId,
                Landed(Broker.Receive(cfg, old(SliceOf(env.result.orderId)), env, now, mid).slice,
                       old(Foreign(env.messageId, env.result.orderId)), env.messageId))
      ensures !ok ==> unchanged(this)
    {
      hide Resolve, Judge, NextOperation, Valid, Pends;
      IsTabular();
      var o, result := env.result.orderId, env.result;
      if o !in sagas || env.causationId !in outbox || !outbox[env.causationId].body.CommandBody? { return false; }
      var saga, command := sagas[o], outbox[env.causationId].body.command;
      if
        || result.sagaId != saga.id
        || result.orderId != command.orderId
        || result.operation != command.operation
        || result.key != command.key
        || result.key != SagaKey(saga.id, result.operation)
      { return false; }
      assert Correlated(SliceOf(o), env);
      hide OutboxOf;
      if env.messageId in inbox { return inbox[env.messageId] == env; }
      hide InboxOf, Correlated;
      PendsAt(o);
      Projected(outbox, env.messageId, o);
      ok := Consume(o, env, now, mid);
      if ok {
        ghost var foreign := old(Foreign(env.messageId, o));
        ReceivePends(cfg, old(SliceOf(o)), env, now, mid, foreign);
        StaysValid(o, Landed(Broker.Receive(cfg, old(SliceOf(o)), env, now, mid).slice, foreign, env.messageId));
      }
    }

    // ---------- Recovery ----------

    /** All orders at once. */
    ghost function Slices(): (r: map<Uuid, Slice>)
      reads this
      requires Tabular()
      ensures r.Keys == sagas.Keys
    {
      map o | o in sagas :: SliceOf(o)
    }

    method ClaimOne(o: Uuid, token: Uuid, now: nat, leaseMs: nat)
      requires Tabular() && o in sagas && Claimable(Slices()[o].row, now)
      modifies this`sagas, this`transitions
      ensures Tabular() && Slices() == old(Slices())[o := Claim(old(Slices())[o], now, token, leaseMs)]
    {
      hide Known, OutboxOf, InboxOf;
      var saga := sagas[o];
      Save(o, saga, saga.(lease := Some(Lease(token, now + leaseMs))), RecoveryClaimed, None, ForwardDirection,
           saga.progress.step);
    }

    method First(open: set<Uuid>) returns (first: Uuid)
      requires open != {} && open <= sagas.Keys
      ensures first in open
      ensures forall o | o in open :: sagas[first].nextAttemptAt <= sagas[o].nextAttemptAt
    {
      first :| first in open;
      var rest := open - {first};
      while rest != {}
        invariant rest <= open && first in open
        invariant forall o | o in open - rest :: sagas[first].nextAttemptAt <= sagas[o].nextAttemptAt
        decreases |rest|
      {
        var o :| o in rest;
        rest := rest - {o};
        if sagas[o].nextAttemptAt < sagas[first].nextAttemptAt { first := o; }
      }
    }

    /** The query of `claimRecovery`. */
    method SelectClaimable(locked: set<Uuid>, limit: nat, now: nat) returns (candidates: seq<Uuid>)
      ensures Selected(sagas, locked, limit, now, candidates)
    {
      hide Claimable, Open, Earliest;
      candidates := [];
      ghost var open := Open(sagas, locked, now);
      var rest := Open(sagas, locked, now);
      OpenIsEarliest(sagas, locked, now);
      while rest != {} && |candidates| < limit
        invariant |candidates| <= limit && Earliest(sagas, open, candidates, rest)
        decreases |rest|
      {
        EarliestExist(sagas, open, candidates, rest);
        var first := First(rest);
        NextIsEarliest(sagas, open, candidates, rest, first);
        candidates := candidates + [first];
        rest := rest - {first};
      }
    }

    /** Each candidate is claimed under its own token. */
    method ClaimEach(candidates: seq<Uuid>, tokens: seq<Uuid>, now: nat, leaseMs: nat) returns (claims: seq<Ticket>)
      requires Tabular() && Candidates(Slices(), candidates, now) && |tokens| == |candidates|
      modifies this`sagas, this`transitions
      ensures Tabular() && Slices() == ClaimedSlices(old(Slices()), candidates, tokens, now, leaseMs)
      ensures Tickets(old(sagas), candidates, tokens, claims)
    {
      hide Slices, Claim, Claimable, ClaimedSlices, Known, Tickets;
      ghost var slices := Slices();
      var rows := sagas;
      claims := [];
      NoClaims(slices, now, leaseMs);
      NoTickets(rows, tokens);
      for i := 0 to |candidates|
        invariant Tabular() && sagas.Keys == rows.Keys
        invariant Slices() == ClaimedSlices(slices, candidates[..i], tokens[..i], now, leaseMs)
        invariant Tickets(rows, candidates[..i], tokens, claims)
      {
        ClaimsSoFar(slices, candidates, tokens, i, now, leaseMs);
        TicketAdds(rows, candidates, tokens, i, claims);
        claims := claims + [TicketFor(rows, candidates[i], tokens[i])];
        ClaimOne(candidates[i], tokens[i], now, leaseMs);
      }
      assert candidates[..|candidates|] == candidates && tokens[..|tokens|] == tokens;
    }

    lemma SelectedAreCandidates(locked: set<Uuid>, limit: nat, now: nat, candidates: seq<Uuid>)
      requires Tabular() && Selected(sagas, locked, limit, now, candidates)
      ensures Candidates(Slices(), candidates, now) && |candidates| <= limit
    {
      hide Known, OutboxOf, InboxOf, Claimable;
      var rest :| Earliest(sagas, Open(sagas, locked, now), candidates, rest);
      forall i | 0 <= i < |candidates|
        ensures candidates[i] in Slices() && Claimable(Slices()[candidates[i]].row, now)
      {
        assert candidates[i] in candidates;
        assert candidates[i] in Open(sagas, locked, now);
        assert Slices()[candidates[i]] == SliceOf(candidates[i]);
      }
    }

    lemma ValidSlices()
      requires Tabular()
      ensures Valid() <==> forall o | o in Slices() :: Pends(Slices()[o])
    {
      hide Known, OutboxOf, InboxOf, Pends;
      assert forall o | o in sagas :: Slices()[o] == SliceOf(o);
    }

    /** `claimRecovery`: the earliest claimable orders, at most `limit` of them, are each claimed
        under a fresh token; nothing else changes. */
    method ClaimRecovery(locked: set<Uuid>, limit: nat, tokens: seq<Uuid>, now: nat, leaseMs: nat)
        returns (candidates: seq<Uuid>, claims: seq<Ticket>)
      requires Valid() && |tokens| == limit
      modifies this`sagas, this`transitions
      ensures Selected(old(sagas), locked, limit, now, candidates) && |candidates| <= limit
      ensures Tickets(old(sagas), candidates, tokens[..|candidates|], claims)
      ensures Valid() && Slices() == ClaimedSlices(old(Slices()), candidates, tokens[..|candidates|], now, leaseMs)
    {
      hide Known, Slices, Claim, Claimable, ClaimedSlices, Candidates, Selected, Tickets, Valid, Pends;
      IsTabular();
      candidates := SelectClaimable(locked, limit, now);
      SelectedAreCandidates(locked, limit, now, candidates);
      ValidSlices();
      CandidatesExist(Slices(), candidates, now);
      ClaimsPend(Slices(), candidates, tokens[..|candidates|], now, leaseMs);
      claims := ClaimEach(candidates, tokens[..|candidates|], now, leaseMs);
      ValidSlices();
    }

    /** What a pending command still allows: missing, wait until a deadline, or recover now. */
    method CheckDelivery(saga: Row, now: nat) returns (missing: bool, wait: Option<nat>)
      requires Valid() && saga.orderId in sagas && saga == sagas[saga.orderId]
      ensures var d := SliceOf(saga.orderId);
        && (missing <==> saga.pending.Some? && (saga.pending.value !in d.outbox
                                                || !d.outbox[saga.pending.value].body.CommandBody?))
        && (wait.Some? <==> saga.pending.Some? && !missing && AwaitingDelivery(cfg, d.outbox[saga.pending.value], now))
        && (wait.Some? ==> wait.value == ResponseDeadline(cfg, d.outbox[saga.pending.value], now))
    {
      hide Valid, Pends;
      IsTabular();
      missing, wait := false, None;
      if saga.pending.Some? {
        var id := saga.pending.value;
        OwnMessage(saga.orderId);
        Projected(outbox, id, saga.orderId);
        hide Known, OutboxOf, InboxOf;
        if id !in outbox || !outbox[id].body.CommandBody? { return true, None; }
        var sent := outbox[id];
        var deadline := (if sent.publishedAt.Some? then sent.publishedAt.value else now) + cfg.commandTimeout;
        if sent.publishedAt.None? || deadline > now { wait := Some(deadline); }
      }
    }

    /** A new delivery of the pending operation. */
    method Redispatch(o: Uuid, now: nat, mid: Uuid) returns (ok: bool)
      requires Tabular() && o in sagas && mid !in outbox
      modifies this
      ensures var d := old(SliceOf(o));
        var recovered := Broker.Save(d, d.row, d.row.(pending := None, recoveryAttempts := d.row.recoveryAttempts + 1,
                                                      lease := None),
                                     RecoveryResumed, None, ForwardDirection, d.row.progress.step);
        var tx := Broker.Dispatch(cfg, recovered, recovered.row, now, mid);
        && (ok <==> tx.Committed?)
        && (ok ==> Becomes(o, tx.slice))
        && (!ok ==> unchanged(this))
    {
      hide Known, OutboxOf, InboxOf, Broker.Dispatch;
      var saga := sagas[o];
      var sagas0, transitions0 := sagas, transitions;
      Save(o, saga, saga.(pending := None, recoveryAttempts := saga.recoveryAttempts + 1, lease := None),
           RecoveryResumed, None, ForwardDirection, saga.progress.step);
      ok := Dispatch(o, sagas[o], now, mid);
      if !ok { sagas, transitions := sagas0, transitions0; }
    }

    method RecoverClaim(o: Uuid, token: Uuid, now: nat, mid: Uuid) returns (ok: bool)
      requires Valid() && mid !in outbox
      modifies this
      ensures Valid()
      ensures o !in old(sagas) ==> ok && unchanged(this)
      ensures o in old(sagas) ==> (ok <==> Recover(cfg, old(SliceOf(o)), token, now, mid).Committed?)
      ensures o in old(sagas) && ok ==> Becomes(o, Recover(cfg, old(SliceOf(o)), token, now, mid).slice)
      ensures !ok ==> unchanged(this)
    {
      hide Known, OutboxOf, InboxOf, NextOperation, Broker.Dispatch, AwaitingDelivery, ResponseDeadline, HoldsLease;
      hide Valid, Pends;
      IsTabular();
      if o !in sagas { return true; }
      PendsAt(o);
      var saga := sagas[o];
      if !HoldsLease(saga, token, now) { return true; }
      var next := NextOperation(saga.progress);
      var missing, wait := CheckDelivery(saga, now);
      ok := true;
      if next.Inconsistent? {
        Intervene(o, saga, InconsistentProgress);
      } else if missing {
        Intervene(o, saga, MissingCommand);
      } else if wait.Some? {
        Save(o, saga, saga.(responseDeadlineAt := wait, nextAttemptAt := wait.value, lease := None),
             DeliveryWait, None, ForwardDirection, saga.progress.step);
      } else if saga.recoveryAttempts >= 3 || saga.brokerAttempts >= 3 {
        Intervene(o, saga, RecoveryRetriesExhausted);
      } else {
        ok := Redispatch(o, now, mid);
      }
      if ok {
        RecoverPends(cfg, old(SliceOf(o)), token, now, mid);
        StaysValid(o, Recover(cfg, old(SliceOf(o)), token, now, mid).slice);
      }
    }

    // ---------- The relay ----------

    /** The query of `relayOnce`: the due message that has been available longest. */
    method SelectDue(locked: set<Uuid>, now: nat) returns (found: Option<Uuid>)
      ensures found.None? ==> forall m :: !Due(outbox, m, locked, now)
      ensures found.Some? ==> Due(outbox, found.value, locked, now)
      ensures found.Some? ==> forall m | Due(outbox, m, locked, now) ::
        outbox[found.value].availableAt <= outbox[m].availableAt
    {
      found := None;
      var rest := outbox.Keys;
      while rest != {}
        invariant rest <= outbox.Keys
        invariant found.None? ==> forall m | m in outbox.Keys - rest :: !Due(outbox, m, locked, now)
        invariant found.Some? ==> Due(outbox, found.value, locked, now)
        invariant found.Some? ==>
          forall m | m in outbox.Keys - rest && Due(outbox, m, locked, now) ::
            outbox[found.value].availableAt <= outbox[m].availableAt
        decreases |rest|
      {
        var m :| m in rest;
        rest := rest - {m};
        if Due(outbox, m, locked, now) && (found.None? || outbox[m].availableAt < outbox[found.value].availableAt) {
          found := Some(m);
        }
      }
    }

    /** `relayOnce`: select, publish, wait for the broker's confirmation, mark. A crash after the
        confirmation rolls the mark back, not the publication. */
    method RelayOnce(locked: set<Uuid>, now: nat, crash: bool) returns (found: Option<Uuid>)
      requires Valid()
      modifies this`outbox
      ensures Valid()
      ensures found.None? ==> unchanged(this) && forall m :: !Due(old(outbox), m, locked, now)
      ensures found.Some? ==>
        && Due(old(outbox), found.value, locked, now)
        && (forall m | Due(old(outbox), m, locked, now) ::
            old(outbox)[found.value].availableAt <= old(outbox)[m].availableAt)
        && Published(found.value, now, crash)
        && var o := OrderOf(old(outbox)[found.value].body);
           var handed := HandOver(old(SliceOf(o)), found.value, now);
           Becomes(o, if crash then handed else MarkPublished(handed, found.value, now))
    {
      hide Valid, Pends;
      IsTabular();
      found := SelectDue(locked, now);
      if found.Some? {
        Publish(found.value, now, crash);
      }
    }

    method Publish(m: Uuid, now: nat, crash: bool)
      requires Valid() && m in outbox && outbox[m].publishedAt.None? && outbox[m].availableAt <= now
      modifies this`outbox
      ensures Valid() && Published(m, now, crash)
      ensures
        var o := OrderOf(old(outbox)[m].body);
        var handed := HandOver(old(SliceOf(o)), m, now);
        Becomes(o, if crash then handed else MarkPublished(handed, m, now))
    {
      hide Valid, Pends;
      IsTabular();
      var o := OrderOf(outbox[m].body);
      assert o in sagas;
      PendsAt(o);
      hide Known;
      Projected(outbox, m, o);
      var sent := outbox[m].(handed := true, publishedAt := if crash then None else Some(now));
      KnownSends(outbox, inbox, sagas.Keys, m, sent);
      forall p { OutboxTicks(outbox, m, sent, p); }
      hide OutboxOf, InboxOf;
      outbox := outbox[m := sent];
      RelayPends(old(SliceOf(o)), m, now);
      var handed := HandOver(old(SliceOf(o)), m, now);
      StaysValid(o, if crash then handed else MarkPublished(handed, m, now));
    }
  }
}
