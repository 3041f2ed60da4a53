/** `InventoryService` as an object that updates its tables in place
    (services/inventory-service/src/inventory/service.ts). */
module InventoryClass {
  import opened Contracts
  import opened Mailbox
  import opened Inventory
  import opened InventoryTheorems
  import MS = MessageStore

  lemma TakeOneMore(products: map<Uuid, Product>, items: seq<Item>, i: nat)
    requires i < |items|
    ensures
      var p := items[i].productId;
      var before, after := Taken(products, items[..i]), Taken(products, items[..i + 1]);
      after == if p in before then before[p := before[p].(available := before[p].available - items[i].quantity)]
        else before
  {
    assert items[..i + 1][..i] == items[..i];
  }

  lemma ReturnOneMore(products: map<Uuid, Product>, items: seq<Item>, i: nat)
    requires i < |items|
    ensures
      var p := items[i].productId;
      var before, after := Returned(products, items[..i]), Returned(products, items[..i + 1]);
      after == if p in before then before[p := before[p].(available := before[p].available + items[i].quantity)]
        else before
  {
    assert items[..i + 1][..i] == items[..i];
  }

  class InventoryService {
    const store: MS.Store
    var products: map<Uuid, Product>
    var reservations: map<Uuid, Reservation>
    var receipts: map<Key, Receipt>

    constructor (products: map<Uuid, Product>)
      ensures Value() == Stock(products, map[], map[]) && store.Value() == Mail(map[], []) && fresh(store)
    {
      store := new MS.Store();
      this.products, reservations, receipts := products, map[], map[];
    }

    ghost function Value(): Stock
      reads this
    {
      Stock(products, reservations, receipts)
    }

    /** Is any product missing, inactive or short? */
    method AnyShort(items: seq<Item>) returns (short: bool)
      ensures short <==> !InStock(products, items)
    {
      short := false;
      for i := 0 to |items|
        invariant short <==> !InStock(products, items[..i])
      {
        var p := items[i].productId;
        assert items[..i + 1] == items[..i] + [items[i]];
        if p !in products || !products[p].active || products[p].available < items[i].quantity { short := true; }
      }
      assert items[..|items|] == items;
    }

    method TakeAll(items: seq<Item>)
      modifies this`products
      ensures products == Taken(old(products), items)
    {
      for i := 0 to |items|
        invariant products == Taken(old(products), items[..i])
      {
        var p := items[i].productId;
        TakeOneMore(old(products), items, i);
        if p in products {
          products := products[p := products[p].(available := products[p].available - items[i].quantity)];
        }
      }
      assert items[..|items|] == items;
    }

    method ReturnAll(items: seq<Item>)
      modifies this`products
      ensures products == Returned(old(products), items)
    {
      for i := 0 to |items|
        invariant products == Returned(old(products), items[..i])
      {
        var p := items[i].productId;
        ReturnOneMore(old(products), items, i);
        if p in products {
          products := products[p := products[p].(available := products[p].available + items[i].quantity)];
        }
      }
      assert items[..|items|] == items;
    }

    /** The order's rows say what this change says. */
    twostate predicate Changed(c: Command, change: Change)
      reads this
    {
      && products == change.products
      && reservations == (if change.reservation.Some? then old(reservations)[c.orderId := change.reservation.value]
                          else old(reservations))
      && receipts == old(receipts)
    }

    method ReserveItems(c: Command) returns (result: Outcome)
      requires c.payload.ItemsPayload?
      modifies this`products, this`reservations
      ensures var change := Inventory.Reserve(old(products), Get(old(reservations), c.orderId), c);
        Changed(c, change) && result == change.outcome
    {
      var existing := Get(reservations, c.orderId);
      assert existing.Some? ==> reservations == reservations[c.orderId := existing.value];
      if existing.Some? && existing.value.content.Some? && existing.value.content != Some(Fingerprint(c)) {
        return Failed(IdempotencyConflict);
      } else if existing.Some? && existing.value.status == Released {
        return Failed(AlreadyCompensated);
      } else if existing.Some? && existing.value.status == Finalized {
        return Failed(InvalidState);
      } else if existing.Some? && existing.value.result.Some? {
        return existing.value.result.value;
      }
      var requested := c.payload.items;
      var short := AnyShort(requested);
      if short {
        result := Failed(InsufficientStock);
        reservations := reservations[c.orderId := Reservation(c.sagaId, FailedReservation, Some(Fingerprint(c)),
                                                              Some(result), [])];
      } else {
        TakeAll(requested);
        result := Succeeded(Applied(ReservationId(c.orderId)));
        reservations := reservations[c.orderId := Reservation(c.sagaId, Reserved, Some(Fingerprint(c)), Some(result),
                                                              requested)];
      }
    }

    /** None when a reserved order has no items: the code throws. */
    method ReleaseItems(c: Command) returns (result: Option<Outcome>)
      modifies this`products, this`reservations
      ensures var change := Inventory.Release(old(products), Get(old(reservations), c.orderId), c);
        if change.None? then result == None && unchanged(this)
        else Changed(c, change.value) && result == Some(change.value.outcome)
    {
      if c.orderId !in reservations {
        reservations := reservations[c.orderId := Reservation(c.sagaId, Released, None, None, [])];
        return Some(Succeeded(Noop));
      }
      var existing := reservations[c.orderId];
      assert reservations == reservations[c.orderId := existing];
      match existing.status {
        case Finalized => result := Some(Failed(InvalidState));
        case Reserved =>
          if existing.items == [] { return None; }
          ReturnAll(existing.items);
          reservations := reservations[c.orderId := existing.(status := Released)];
          result := Some(Succeeded(Undone));
        case FailedReservation =>
          reservations := reservations[c.orderId := existing.(status := Released)];
          result := Some(Succeeded(Noop));
        case Released =>
          reservations := reservations[c.orderId := existing.(status := Released)];
          result := Some(Succeeded(Noop));
        case PendingReservation => result := Some(Failed(InvalidState));
      }
    }

    method FinalizeItems(c: Command) returns (result: Outcome)
      modifies this`reservations
      ensures var change := Inventory.Finalize(old(products), Get(old(reservations), c.orderId), c);
        Changed(c, change) && result == change.outcome
    {
      if c.orderId in reservations && (reservations[c.orderId].status == Reserved
                                       || reservations[c.orderId].status == Finalized) {
        reservations := reservations[c.orderId := reservations[c.orderId].(status := Finalized)];
        return Succeeded(Applied(ReservationId(c.orderId)));
      }
      assert c.orderId in reservations ==> reservations == reservations[c.orderId := reservations[c.orderId]];
      result := Failed(InvalidState);
    }

    /** The business part of the transaction; None when it throws. */
    method Apply(c: Command) returns (result: Option<Outcome>)
      requires WellFormed(c)
      modifies this`products, this`reservations
      ensures var change := Decide(old(products), Get(old(reservations), c.orderId), c);
        if change.None? then result == None && unchanged(this)
        else Changed(c, change.value) && result == Some(change.value.outcome)
    {
      if c.orderId in reservations && reservations[c.orderId].sagaId != c.sagaId {
        assert reservations == reservations[c.orderId := reservations[c.orderId]];
        return Some(Failed(IdempotencyConflict));
      }
      match c.operation {
        case ReserveInventory => var r := ReserveItems(c); result := Some(r);
        case ReleaseInventory => result := ReleaseItems(c);
        case FinalizeInventory => var r := FinalizeItems(c); result := Some(r);
      }
    }

    /** `execute`: one transaction. Early answers leave the tables alone; a thrown error, in the
        business part or in the commit hook, rolls everything back. */
    method Execute(message: Option<Uuid>, input: Command) returns (tx: Tx)
      requires WellFormed(input)
      modifies this, store
      ensures WellFormed(Normalize(input))
      ensures
        var c := Normalize(input);
        var expected := Inventory.Execute(old(Value()), c);
        var refused := message.Some? && Altered(old(store.Value()), message.value, c);
        match expected
        case Committed(stock, outcome) =>
          if refused then tx == Aborted && Value() == old(Value()) && store.Value() == old(store.Value())
          else
            && tx == expected && Value() == stock
            && store.Value() == if message.Some? then Commit(old(store.Value()), message.value, c, outcome)
              else old(store.Value())
        case _ => tx == expected && Value() == old(Value()) && store.Value() == old(store.Value())
    {
      NormalFormsAreWellFormed(input);
      var c := Normalize(input);
      if c.key in receipts {
        return Early(if receipts[c.key].content == Fingerprint(c) then receipts[c.key].outcome
                     else Failed(IdempotencyConflict));
      }
      var products0, reservations0, receipts0 := products, reservations, receipts;
      var result := Apply(c);
      if result.None? { return Aborted; }
      receipts := receipts[c.key := Receipt(Fingerprint(c), result.value)];
      var ok := true;
      if message.Some? { ok := store.CommitResult(message.value, c, result.value); }
      if !ok {
        products, reservations, receipts := products0, reservations0, receipts0;
        return Aborted;
      }
      tx := Committed(Stock(products, reservations, receipts), result.value);
    }

    /** `participantHandler`: a known message is acknowledged without work; otherwise the command is
        executed and its answer, also an early one, is committed before the acknowledgement. False
        when something throws, and the message will come again. */
    method Handle(message: Uuid, input: Command) returns (ok: bool)
      requires WellFormed(input) && Coupled(store.Value())
      modifies this, store
      ensures Coupled(store.Value())
      ensures ok ==> message in store.inbox && Answered(store.outbox, message)
      ensures message in old(store.inbox) ==>
        Value() == old(Value()) && store.Value() == old(store.Value())
          && (ok <==> old(store.inbox)[message] == Normalize(input))
      ensures WellFormed(Normalize(input))
      ensures message !in old(store.inbox) ==>
        var c := Normalize(input);
        match Inventory.Execute(old(Value()), c)
        case Aborted => !ok
        case Early(outcome) =>
          ok && Value() == old(Value()) && store.Value() == Commit(old(store.Value()), message, c, outcome)
        case Committed(stock, outcome) =>
          ok && Value() == stock && store.Value() == Commit(old(store.Value()), message, c, outcome)
      ensures !ok ==> Value() == old(Value()) && store.Value() == old(store.Value())
    {
      NormalFormsAreWellFormed(input);
      var c := Normalize(input);
      if message in store.inbox {
        CoupledAnswers(store.Value(), message);
        return store.inbox[message] == c;
      }
      hide Inventory.Execute, Coupled, Answered;
      ghost var before := store.Value();
      var tx := Execute(Some(message), input);
      if tx.Aborted? { return false; }
      CommitKeepsCoupled(before, message, c, tx.outcome);
      ghost var between := store.Value();
      CommitKeepsCoupled(between, message, c, tx.outcome);
      ok := store.CommitResult(message, c, tx.outcome);
      CoupledAnswers(store.Value(), message);
    }
  }

  lemma CoupledAnswers(mail: Mail, message: Uuid)
    requires Coupled(mail) && message in mail.inbox
    ensures Answered(mail.outbox, message)
  {
  }
}
