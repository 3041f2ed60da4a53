/** The durable provider over any sequence of calls in any modes: what its references tell, whom an
    account belongs to, and that an undone order stays undone. */
module ProviderRuns {
  import opened Contracts
  import opened Provider
  import opened Simulator

  datatype Call = Call(command: Command, mode: Mode)

  /** The tables after these calls, from empty ones. */
  function After(kind: Kind, calls: seq<Call>): Tables {
    if calls == [] then Tables(map[], map[])
    else
      var last := calls[|calls| - 1];
      Execute(kind, After(kind, calls[..|calls| - 1]), last.command, last.mode).0
  }

  function ReplyTo(kind: Kind, calls: seq<Call>, call: Call): Outcome {
    Execute(kind, After(kind, calls), call.command, call.mode).1
  }

  lemma AfterOne(kind: Kind, calls: seq<Call>, call: Call)
    ensures After(kind, calls + [call]) == Execute(kind, After(kind, calls), call.command, call.mode).0
  {
    assert (calls + [call])[..|calls|] == calls;
  }

  // ---------- References ----------

  /** An account has a reference unless it was undone before it was done, and a cached success has
      its account's. */
  predicate Booked(t: Tables) {
    && (forall o | o in t.accounts ::
          t.accounts[o].reference == if t.accounts[o].status == NoopAccount then None else Some(ReferenceOf(o)))
    && (forall k | k in t.requests && t.requests[k].outcome.Succeeded? && t.requests[k].outcome.data.Applied? ::
          && t.requests[k].content.orderId in t.accounts
          && t.accounts[t.requests[k].content.orderId].reference == Some(t.requests[k].outcome.data.reference))
  }

  lemma CallsStayBooked(kind: Kind, t: Tables, c: Command, mode: Mode)
    requires Booked(t)
    ensures
      var (t', reply) := Execute(kind, t, c, mode);
      && Booked(t')
      && (reply.Succeeded? && reply.data.Applied? ==>
            c.orderId in t'.accounts && t'.accounts[c.orderId].reference == Some(reply.data.reference))
  {
  }

  lemma {:induction false} RunsStayBooked(kind: Kind, calls: seq<Call>)
    ensures Booked(After(kind, calls))
  {
    hide Booked;
    if calls == [] {
      EmptyIsBooked();
    } else {
      var last := calls[|calls| - 1];
      RunsStayBooked(kind, calls[..|calls| - 1]);
      CallsStayBooked(kind, After(kind, calls[..|calls| - 1]), last.command, last.mode);
    }
  }

  lemma EmptyIsBooked()
    ensures Booked(Tables(map[], map[]))
  {
  }

  /** Over any calls, a transaction id belongs to one order: accounts with equal references are the
      same order's, and a success answers the reference of its own order's account. */
  lemma ReferencesTell(kind: Kind, calls: seq<Call>, o: Uuid, p: Uuid, call: Call)
    ensures
      var t := After(kind, calls);
      (&& o in t.accounts && p in t.accounts && t.accounts[o].reference.Some?
       && t.accounts[o].reference == t.accounts[p].reference) ==> o == p
    ensures
      var reply, t' := ReplyTo(kind, calls, call), After(kind, calls + [call]);
      reply.Succeeded? && reply.data.Applied? ==>
        && call.command.orderId in t'.accounts
        && t'.accounts[call.command.orderId].reference == Some(reply.data.reference)
  {
    RunsStayBooked(kind, calls);
    hide Execute;
    AfterOne(kind, calls, call);
    CallsStayBooked(kind, After(kind, calls), call.command, call.mode);
  }

  /** Two answers with the same reference, however far apart, are about the same order. */
  lemma AnswersTell(kind: Kind, calls: seq<Call>, first: Call, more: seq<Call>, second: Call, reference: Uuid)
    requires ReplyTo(kind, calls, first) == Succeeded(Applied(reference))
    requires ReplyTo(kind, calls + more, second) == Succeeded(Applied(reference))
    ensures first.command.orderId == second.command.orderId
  {
    ReferencesTell(kind, calls, 0, 0, first);
    ReferencesTell(kind, calls + more, 0, 0, second);
    RunsStayBooked(kind, calls + [first]);
    RunsStayBooked(kind, calls + more + [second]);
    hide After, ReplyTo;
  }

  /** So it is at the in-memory provider. */
  lemma SimulatedReferencesTell(t: Tables, s: SimTables, o: Uuid, p: Uuid)
    requires Related(t, s) && o in s.orders && p in s.orders && s.orders[o].reference == s.orders[p].reference
    ensures o == p
  {
    assert SameOrder(o, Get(t.accounts, o), Get(s.orders, o), o in s.tombstones);
    assert SameOrder(p, Get(t.accounts, p), Get(s.orders, p), p in s.tombstones);
  }

  // ---------- Ownership and undoing ----------

  /** An account keeps its saga, its content and its reference; undone it stays undone. */
  predicate AccountKept(a: Account, a': Account) {
    a' == a.(status := a'.status) && (a.status != LiveAccount ==> a'.status == a.status)
  }

  predicate AccountsKept(t: Tables, t': Tables) {
    forall o | o in t.accounts :: o in t'.accounts && AccountKept(t.accounts[o], t'.accounts[o])
  }

  lemma CallKeepsAccounts(kind: Kind, t: Tables, c: Command, mode: Mode)
    ensures AccountsKept(t, Execute(kind, t, c, mode).0)
  {
  }

  lemma {:induction false} RunKeepsAccounts(kind: Kind, calls: seq<Call>, more: seq<Call>)
    ensures AccountsKept(After(kind, calls), After(kind, calls + more))
    decreases |more|
  {
    if more == [] {
      assert calls + more == calls;
    } else {
      var front, last := more[..|more| - 1], more[|more| - 1];
      RunKeepsAccounts(kind, calls, front);
      assert calls + more == calls + front + [last];
      AfterOne(kind, calls + front, last);
      hide Execute;
      CallKeepsAccounts(kind, After(kind, calls + front), last.command, last.mode);
    }
  }

  /** Undoing an order is final: once a compensation was not refused, even if its reply was lost, the
      order's account is never live again, and its saga's forward command under any new key is refused as already
      compensated, whatever happened in between. */
  lemma UndoneIsFinal(kind: Kind, calls: seq<Call>, undo: Call, more: seq<Call>, again: Call)
    requires undo.command.operation == ReverseOp(kind) && undo.command.key !in After(kind, calls).requests
    requires !ReplyTo(kind, calls, undo).Failed?
    requires again.command.orderId == undo.command.orderId && again.command.operation != ReverseOp(kind)
    ensures
      var t := After(kind, calls + [undo] + more);
      && again.command.orderId in t.accounts && t.accounts[again.command.orderId].status != LiveAccount
      && t.accounts[again.command.orderId].sagaId == undo.command.sagaId
      && (again.command.key !in t.requests ==>
            ReplyTo(kind, calls + [undo] + more, again) ==
              Failed(if again.command.sagaId == undo.command.sagaId then AlreadyCompensated else IdempotencyConflict))
  {
    AfterOne(kind, calls, undo);
    RunKeepsAccounts(kind, calls + [undo], more);
    UndoCloses(kind, After(kind, calls), undo.command, undo.mode);
    hide After;
  }

  lemma UndoCloses(kind: Kind, t: Tables, c: Command, mode: Mode)
    requires c.operation == ReverseOp(kind) && c.key !in t.requests && !Execute(kind, t, c, mode).1.Failed?
    ensures
      var t' := Execute(kind, t, c, mode).0;
      && c.orderId in t'.accounts && t'.accounts[c.orderId].sagaId == c.sagaId
      && t'.accounts[c.orderId].status != LiveAccount
  {
  }

  /** An account belongs to the saga that opened it: any other saga's command for the order, under a
      new key, is a conflict and changes no account, then and at every later time. */
  lemma StrangersAreRefused(kind: Kind, calls: seq<Call>, more: seq<Call>, call: Call)
    requires
      var t := After(kind, calls);
      call.command.orderId in t.accounts && t.accounts[call.command.orderId].sagaId != call.command.sagaId
    requires call.command.key !in After(kind, calls + more).requests
    ensures ReplyTo(kind, calls + more, call) == Failed(IdempotencyConflict)
    ensures After(kind, calls + more + [call]).accounts == After(kind, calls + more).accounts
  {
    RunKeepsAccounts(kind, calls, more);
    AfterOne(kind, calls + more, call);
    hide After;
  }

  /** A forward command for a new order opens its account unless it is rejected; the account is there
      even when the reply is lost. */
  lemma NewOrdersAreDone(kind: Kind, calls: seq<Call>, call: Call)
    requires call.command.orderId !in After(kind, calls).accounts
    requires call.command.key !in After(kind, calls).requests && call.command.operation != ReverseOp(kind)
    ensures
      var c, reply, t' := call.command, ReplyTo(kind, calls, call), After(kind, calls + [call]);
      if call.mode == RejectMode then
        && reply == Failed(if kind == Payments then PaymentDeclined else ShippingRejected)
        && t'.accounts == After(kind, calls).accounts
      else
        && c.orderId in t'.accounts && t'.accounts[c.orderId].status == LiveAccount
        && t'.accounts[c.orderId].sagaId == c.sagaId && t'.accounts[c.orderId].content == Some(Fingerprint(c))
        && if call.mode == TimeoutAfterSuccess then reply.Unknown?
           else reply.Succeeded? && reply.data.Applied?
                && t'.accounts[c.orderId].reference == Some(reply.data.reference)
  {
    AfterOne(kind, calls, call);
    hide After;
  }

  /** A compensation by the order's own saga, or before any, is never refused. It says it undid
      something exactly when there was something to undo, and leaves nothing live. */
  lemma UndosAreDone(kind: Kind, calls: seq<Call>, call: Call)
    requires call.command.operation == ReverseOp(kind) && call.command.key !in After(kind, calls).requests
    requires call.command.orderId in After(kind, calls).accounts ==>
      After(kind, calls).accounts[call.command.orderId].sagaId == call.command.sagaId
    ensures
      var o, reply := call.command.orderId, ReplyTo(kind, calls, call);
      var t, t' := After(kind, calls), After(kind, calls + [call]);
      && o in t'.accounts
      && (if o in t.accounts && t.accounts[o].status != NoopAccount then
            t'.accounts[o] == t.accounts[o].(status := UndoneAccount)
          else t'.accounts[o].status == NoopAccount && t'.accounts[o].sagaId == call.command.sagaId)
      && reply == if call.mode == TimeoutAfterSuccess then Unknown
                  else if o in t.accounts && t.accounts[o].status == LiveAccount then Succeeded(Undone)
                  else Succeeded(Noop)
  {
    AfterOne(kind, calls, call);
    hide After;
  }
}
