/** Two runs the code allows and the orchestrator never causes: a refund that finds a cash-on-delivery
    charge still PENDING settles the charge, and then, judging by the row it read before, asks the
    provider for the money back (services/payment-service/src/payments/service.ts:58-64). If the
    reply comes in time, row and refund end REFUNDED; if it comes too late, NOOP. */
module ServiceWitness {
  import opened Contracts
  import opened Provider
  import opened Mailbox
  import opened Service
  import opened ServiceTheorems

  const CASH := ChargePayload(1, 100, USD, COD)
  const CHARGE := Command(1, 1, SagaKey(1, ChargePayment), ChargePayment, CASH)
  const REFUND := Command(1, 1, SagaKey(1, RefundPayment), RefundPayment, EmptyPayload)
  const PENDING := Effect(1, CASH, PendingEffect, None, None)
  const COLLECTED := Effect(1, CASH, OnDelivery, Some(1), Some(Succeeded(Applied(1))))
  const OPEN_CHARGE := map[CHARGE.key := Receipt(Fingerprint(CHARGE), None)]
  const OPEN_BOTH := OPEN_CHARGE[REFUND.key := Receipt(Fingerprint(REFUND), None)]

  /** One order's tables, with what the witness needs of the provider. */
  function Now(
    receipts: map<Key, Receipt>, effects: map<Uuid, Effect>, undos: map<Uuid, Undo>, provider: Tables,
    issued: set<Command>, executions: map<Uuid, Execution>
  ): State {
    State(receipts, effects, undos, provider, issued, executions, {}, Mail(map[], []))
  }

  function ChargingAt(position: Position): map<Uuid, Execution> {
    map[1 := Execution(None, CHARGE, None, None, position)]
  }

  function RefundingAt(position: Position): map<Uuid, Execution> {
    map[1 := Execution(None, REFUND, Some(PENDING), None, position)]
  }

  lemma Extend(r: Run, e: Event, s: State) returns (longer: Run)
    requires IsRun(Payments, r)
    requires Possible(Payments, r.states[|r.states| - 1], e) && Step(Payments, r.states[|r.states| - 1], e) == s
    ensures IsRun(Payments, longer) && longer.states[|longer.states| - 1] == s
  {
    longer := Run(r.states + [s], r.events + [e]);
  }

  const NONE := Tables(map[], map[])

  /** A charge whose provider call misses its deadline leaves the row PENDING. */
  lemma ChargeTimesOut() returns (r: Run)
    ensures IsRun(Payments, r)
    ensures r.states[|r.states| - 1] == Now(OPEN_CHARGE, map[1 := PENDING], map[], NONE, {CHARGE}, map[])
  {
    hide IsRun;
    r := Run([EMPTY], []);
    assert IsRun(Payments, r) by { RunOfNothing(r); }
    assert map[][CHARGE.key := Receipt(Fingerprint(CHARGE), None)] == OPEN_CHARGE;
    r := Extend(r, Start(None, CHARGE), Now(OPEN_CHARGE, map[], map[], NONE, {}, ChargingAt(Opened)));
    r := Extend(r, Continue(1, SuccessMode, true),
                Now(OPEN_CHARGE, map[1 := PENDING], map[], NONE, {}, ChargingAt(Resolving)));
    r := Extend(r, Continue(1, SuccessMode, true),
                Now(OPEN_CHARGE, map[1 := PENDING], map[], NONE, {CHARGE}, ChargingAt(AwaitingForward)));
    assert ChargingAt(AwaitingForward) - {1} == map[];
    r := Extend(r, Continue(1, SuccessMode, false), Now(OPEN_CHARGE, map[1 := PENDING], map[], NONE, {CHARGE}, map[]));
  }

  lemma RunOfNothing(r: Run)
    requires r == Run([EMPTY], [])
    ensures IsRun(Payments, r)
  {
  }

  const REQUESTED := Undo(1, true, PendingUndo)
  const CHARGED :=
    Tables(map[1 := Account(1, Some(Fingerprint(CHARGE)), LiveAccount, Some(1))],
           map[CHARGE.key := Cached(Fingerprint(CHARGE), Succeeded(Applied(1)))])
  const REFUNDED :=
    Tables(map[1 := Account(1, Some(Fingerprint(CHARGE)), UndoneAccount, Some(1))],
           map[CHARGE.key := Cached(Fingerprint(CHARGE), Succeeded(Applied(1))),
               REFUND.key := Cached(Fingerprint(REFUND), Succeeded(Undone))])

  lemma ProviderCharges()
    ensures Execute(Payments, NONE, CHARGE, SuccessMode) == (CHARGED, Succeeded(Applied(1)))
  {
  }

  lemma ProviderRefunds()
    ensures Execute(Payments, CHARGED, REFUND, SuccessMode) == (REFUNDED, Succeeded(Undone))
  {
    assert CHARGED.requests[REFUND.key := Cached(Fingerprint(REFUND), Succeeded(Undone))] == REFUNDED.requests;
    assert CHARGED.accounts[1 := CHARGED.accounts[1].(status := UndoneAccount)] == REFUNDED.accounts;
  }

  /** The refund finds the charge pending. */
  lemma RefundFindsCharge() returns (r: Run)
    ensures IsRun(Payments, r)
    ensures r.states[|r.states| - 1]
         == Now(OPEN_BOTH, map[1 := PENDING], map[1 := REQUESTED], NONE, {CHARGE}, RefundingAt(Resolving))
  {
    hide IsRun, Execute;
    r := ChargeTimesOut();
    r := Extend(r, Start(None, REFUND),
                Now(OPEN_BOTH, map[1 := PENDING], map[], NONE, {CHARGE}, RefundingAt(Opened)));
    r := Extend(r, Continue(1, SuccessMode, true),
                Now(OPEN_BOTH, map[1 := PENDING], map[1 := REQUESTED], NONE, {CHARGE}, RefundingAt(Resolving)));
  }

  /** It settles the charge first. */
  lemma RefundSettlesCharge() returns (r: Run)
    ensures IsRun(Payments, r)
    ensures r.states[|r.states| - 1]
         == Now(OPEN_BOTH, map[1 := COLLECTED], map[1 := REQUESTED], CHARGED, {CHARGE}, RefundingAt(Undoing))
  {
    hide IsRun, Execute;
    ProviderCharges();
    r := RefundFindsCharge();
    r := Extend(r, Continue(1, SuccessMode, true),
                Now(OPEN_BOTH, map[1 := PENDING], map[1 := REQUESTED], NONE, {CHARGE}, RefundingAt(AwaitingForward)));
    var got := GotForward(Succeeded(Applied(1)));
    r := Extend(r, Continue(1, SuccessMode, true),
                Now(OPEN_BOTH, map[1 := PENDING], map[1 := REQUESTED], CHARGED, {CHARGE}, RefundingAt(got)));
    r := Extend(r, Continue(1, SuccessMode, true),
                Now(OPEN_BOTH, map[1 := COLLECTED], map[1 := REQUESTED], CHARGED, {CHARGE}, RefundingAt(Undoing)));
  }

  /** It asks the provider for the refund, and gets it. */
  lemma RefundIsPaid() returns (r: Run)
    ensures IsRun(Payments, r)
    ensures r.states[|r.states| - 1]
         == Now(OPEN_BOTH, map[1 := COLLECTED], map[1 := REQUESTED], REFUNDED, {CHARGE, REFUND},
                RefundingAt(Committing(Succeeded(Undone))))
  {
    hide IsRun, Execute;
    ProviderRefunds();
    r := RefundSettlesCharge();
    r := Extend(r, Continue(1, SuccessMode, true),
                Now(OPEN_BOTH, map[1 := COLLECTED], map[1 := REQUESTED], CHARGED, {CHARGE, REFUND},
                    RefundingAt(AwaitingReverse)));
    r := Extend(r, Continue(1, SuccessMode, true),
                Now(OPEN_BOTH, map[1 := COLLECTED], map[1 := REQUESTED], REFUNDED, {CHARGE, REFUND},
                    RefundingAt(Committing(Succeeded(Undone)))));
  }

  /** A direct refund of a pending cash-on-delivery charge ends REFUNDED, here and at the provider,
      although nothing was collected. */
  lemma PendingCashIsRefunded() returns (r: Run)
    ensures IsRun(Payments, r)
    ensures
      var s := r.states[|r.states| - 1];
      && s.effects == map[1 := COLLECTED.(status := UndoneEffect)]
      && s.undos == map[1 := REQUESTED.(status := UndoneUndo)]
      && s.provider == REFUNDED && s.executions == map[]
  {
    hide IsRun, Execute;
    r := RefundIsPaid();
    assert RefundingAt(Committing(Succeeded(Undone))) - {1} == map[];
    var s := Now(OPEN_BOTH, map[1 := COLLECTED], map[1 := REQUESTED], REFUNDED, {CHARGE, REFUND},
                 RefundingAt(Committing(Succeeded(Undone))));
    r := Extend(r, Continue(1, SuccessMode, true), Step(Payments, s, Continue(1, SuccessMode, true)));
  }

  const CLOSED := REQUESTED.(status := NoopUndo)
  const NOOP_BOTH := OPEN_BOTH[REFUND.key := Receipt(Fingerprint(REFUND), Some(Succeeded(Noop)))]

  function RetryingAt(position: Position): map<Uuid, Execution> {
    map[1 := Execution(None, REFUND, Some(COLLECTED), Some(REQUESTED), position)]
  }

  /** The refund call misses its deadline and takes effect later. */
  lemma RefundIsLate() returns (r: Run)
    ensures IsRun(Payments, r)
    ensures r.states[|r.states| - 1]
         == Now(OPEN_BOTH, map[1 := COLLECTED], map[1 := REQUESTED], REFUNDED, {CHARGE, REFUND}, map[])
  {
    hide IsRun, Execute;
    ProviderRefunds();
    r := RefundSettlesCharge();
    r := Extend(r, Continue(1, SuccessMode, true),
                Now(OPEN_BOTH, map[1 := COLLECTED], map[1 := REQUESTED], CHARGED, {CHARGE, REFUND},
                    RefundingAt(AwaitingReverse)));
    assert RefundingAt(AwaitingReverse) - {1} == map[];
    r := Extend(r, Continue(1, SuccessMode, false),
                Now(OPEN_BOTH, map[1 := COLLECTED], map[1 := REQUESTED], CHARGED, {CHARGE, REFUND}, map[]));
    r := Extend(r, LateCall(REFUND, SuccessMode),
                Now(OPEN_BOTH, map[1 := COLLECTED], map[1 := REQUESTED], REFUNDED, {CHARGE, REFUND}, map[]));
  }

  /** The retry finds cash that was not collected yet, and answers NOOP. */
  lemma RefundFindsCash() returns (r: Run)
    ensures IsRun(Payments, r)
    ensures r.states[|r.states| - 1]
         == Now(OPEN_BOTH, map[1 := COLLECTED], map[1 := REQUESTED], REFUNDED, {CHARGE, REFUND},
                RetryingAt(Committing(Succeeded(Noop))))
  {
    hide IsRun, Execute;
    r := RefundIsLate();
    assert OPEN_BOTH[REFUND.key := Receipt(Fingerprint(REFUND), None)] == OPEN_BOTH;
    r := Extend(r, Start(None, REFUND),
                Now(OPEN_BOTH, map[1 := COLLECTED], map[1 := REQUESTED], REFUNDED, {CHARGE, REFUND},
                    RetryingAt(Opened)));
    r := Extend(r, Continue(1, SuccessMode, true),
                Now(OPEN_BOTH, map[1 := COLLECTED], map[1 := REQUESTED], REFUNDED, {CHARGE, REFUND},
                    RetryingAt(Committing(Succeeded(Noop)))));
  }

  /** The other outcome: the refund is answered NOOP and the row stays PAY_ON_DELIVERY, while the
      provider has given the money back. */
  lemma NoopCashIsRefunded() returns (r: Run)
    ensures IsRun(Payments, r)
    ensures r.states[|r.states| - 1]
         == Now(NOOP_BOTH, map[1 := COLLECTED], map[1 := CLOSED], REFUNDED, {CHARGE, REFUND}, map[])
  {
    hide IsRun, Execute;
    r := RefundFindsCash();
    assert RetryingAt(Committing(Succeeded(Noop))) - {1} == map[];
    r := Extend(r, Continue(1, SuccessMode, true),
                Now(NOOP_BOTH, map[1 := COLLECTED], map[1 := CLOSED], REFUNDED, {CHARGE, REFUND}, map[]));
  }
}
