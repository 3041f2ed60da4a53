/** The two provider implementations as the objects they are: the durable one over its accounts
    and request tables, the in-memory one over its maps and tombstones. */
module Providers {
  import opened Contracts
  import opened Provider
  import opened Simulator

  /** services/payment-service/src/providers/local-provider.ts and its shipping twin. */
  class LocalProvider {
    const kind: Kind
    const mode: Mode
    var accounts: map<Uuid, Account>
    var requests: map<Key, Cached>

    constructor (kind: Kind, mode: Mode)
      ensures this.kind == kind && this.mode == mode && Value() == Tables(map[], map[])
    {
      this.kind, this.mode := kind, mode;
      accounts, requests := map[], map[];
    }

    ghost function Value(): Tables
      reads this
    {
      Tables(accounts, requests)
    }

    /** One serialised transaction, and the reply, which may be lost after a success. */
    method Execute(c: Command) returns (reply: Outcome)
      modifies this
      ensures (Value(), reply) == Provider.Execute(kind, old(Value()), c, mode)
    {
      if c.key in requests {
        return if requests[c.key].content == Fingerprint(c) then requests[c.key].outcome
          else Failed(IdempotencyConflict);
      }
      var known := c.orderId in accounts;
      var result;
      if known && accounts[c.orderId].sagaId != c.sagaId {
        result := Failed(IdempotencyConflict);
      } else if c.operation == ReverseOp(kind) {
        if !known {
          accounts := accounts[c.orderId := Account(c.sagaId, None, NoopAccount, None)];
          result := Succeeded(Noop);
        } else {
          var account := accounts[c.orderId];
          accounts := accounts[c.orderId := account.(status := if account.status == NoopAccount then NoopAccount
                                                     else UndoneAccount)];
          result := Succeeded(if account.status == LiveAccount then Undone else Noop);
        }
      } else if known && accounts[c.orderId].status != LiveAccount {
        result := Failed(AlreadyCompensated);
      } else if known && accounts[c.orderId].content != Some(Fingerprint(c)) {
        result := Failed(IdempotencyConflict);
      } else if mode == RejectMode {
        result := Failed(Rejection(kind));
      } else {
        var reference := if known && accounts[c.orderId].reference.Some? then accounts[c.orderId].reference.value
          else ReferenceOf(c.orderId);
        if !known {
          accounts := accounts[c.orderId := Account(c.sagaId, Some(Fingerprint(c)), LiveAccount, Some(reference))];
        }
        result := Succeeded(Applied(reference));
      }
      assert known ==> accounts == old(accounts)[c.orderId := accounts[c.orderId]];
      requests := requests[c.key := Cached(Fingerprint(c), result)];
      reply := if result.Succeeded? && mode == TimeoutAfterSuccess then Unknown else result;
    }
  }

  /** shared/src/testing/providers.ts. */
  class SimulatedProvider {
    const kind: Kind
    const mode: Mode
    var results: map<Key, Cached>
    var orders: map<Uuid, SimOrder>
    var tombstones: set<Uuid>

    constructor (kind: Kind, mode: Mode)
      ensures this.kind == kind && this.mode == mode && Value() == SimTables(map[], map[], {})
    {
      this.kind, this.mode := kind, mode;
      results, orders, tombstones := map[], map[], {};
    }

    ghost function Value(): SimTables
      reads this
    {
      SimTables(results, orders, tombstones)
    }

    /** None when the operation is not one of this provider's: the code throws. */
    method Execute(c: Command) returns (reply: Option<Outcome>)
      modifies this
      ensures c.operation !in {ForwardOp(kind), ReverseOp(kind)} ==> reply == None && Value() == old(Value())
      ensures c.operation in {ForwardOp(kind), ReverseOp(kind)} ==>
        reply.Some? && (Value(), reply.value) == SimExecute(kind, old(Value()), c, mode)
    {
      if c.operation != ForwardOp(kind) && c.operation != ReverseOp(kind) { return None; }
      if c.key in results {
        return Some(if results[c.key].content == Fingerprint(c) then results[c.key].outcome
                    else Failed(IdempotencyConflict));
      }
      var known := c.orderId in orders;
      var result;
      var applied := false;
      if c.operation == ReverseOp(kind) {
        tombstones := tombstones + {c.orderId};
        var changed := known && !orders[c.orderId].compensated;
        if known { orders := orders[c.orderId := orders[c.orderId].(compensated := true)]; }
        result := Succeeded(if changed then Undone else Noop);
      } else if c.orderId in tombstones {
        result := Failed(AlreadyCompensated);
      } else if known && orders[c.orderId].content != Fingerprint(c) {
        result := Failed(IdempotencyConflict);
      } else if mode == RejectMode {
        result := Failed(Rejection(kind));
      } else {
        var reference := if known then orders[c.orderId].reference else ReferenceOf(c.orderId);
        if !known {
          orders := orders[c.orderId := SimOrder(Fingerprint(c), reference, false)];
          applied := true;
        }
        result := Succeeded(Applied(reference));
      }
      results := results[c.key := Cached(Fingerprint(c), result)];
      reply := Some(if applied && mode == TimeoutAfterSuccess then Unknown else result);
    }
  }
}
