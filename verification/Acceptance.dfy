/** `accept`: one order per customer and key (services/order-orchestrator/src/orders/service.ts).
    The order fingerprint is taken to be collision-free, so it is the normalised payload. */
module Acceptance {
  import opened Contracts
  import opened Basket
  import opened Identifiers
  import opened Catalog

  /** A request as a client sends it; its submitted amount is ignored. */
  datatype Request = Request(
    customer: string, key: string, items: seq<RawItem>, currency: Currency, paymentMethod: Option<PaymentMethod>,
    address: Address)

  /** CreateOrderRequestSchema, as far as the model's fields go. */
  predicate Schema(r: Request) {
    IsUuid(r.customer) && HasUuids(r.items) && ValidBasket(ItemsOf(r.items))
  }

  predicate Payable(r: Request) {
    Priced(r.items) && 1 <= Total(r.items) <= MAX_AMOUNT
  }

  function MethodOf(r: Request): PaymentMethod {
    if r.paymentMethod.Some? then r.paymentMethod.value else COD
  }

  function PayloadOf(r: Request): OrderPayload
    requires Schema(r)
  {
    OrderPayload(Value(r.customer), Normalized(r.items), Total(r.items), r.currency, MethodOf(r), r.address)
  }

  /** Two requests mean the same order: equal up to the order of items, the case of ids, and a
      payment method left out for COD. */
  ghost predicate SameOrder(a: Request, b: Request) {
    && Lower(a.customer) == Lower(b.customer) && SameBasket(a.items, b.items)
    && a.currency == b.currency && a.address == b.address
    && (a.paymentMethod == Some(BankTransfer) <==> b.paymentMethod == Some(BankTransfer))
  }

  lemma MethodMeans(r: Request)
    ensures MethodOf(r) == if r.paymentMethod == Some(BankTransfer) then BankTransfer else COD
  {
  }

  /** The fingerprint match means the same order, and nothing less. */
  lemma SamePayload(a: Request, b: Request)
    requires Schema(a) && Schema(b)
    ensures PayloadOf(a) == PayloadOf(b) <==> SameOrder(a, b)
    ensures SameOrder(a, b) ==> (Payable(a) <==> Payable(b))
  {
    hide Normalized, Value, Lower, SameBasket, Total, Priced, IsUuid, HasUuids, ItemsOf;
    MethodMeans(a);
    MethodMeans(b);
    ValueIdentifies(a.customer, b.customer);
    NormalFormsMeet(a.items, b.items);
    if SameBasket(a.items, b.items) {
      SameBasketSameCharge(a.items, b.items);
    }
  }

  /** What a request asks for, as it is stored: its customer, currency and address; its items, each
      once and sorted; what they cost by the price list; and cash on delivery unless it says that a
      bank transfer is meant. */
  ghost predicate Stores(p: OrderPayload, r: Request)
    requires Schema(r)
  {
    && p.customerId == Value(r.customer) && p.currency == r.currency && p.address == r.address
    && Sorted(p.items) && multiset(p.items) == multiset(ItemsOf(r.items))
    && p.amountMinor == AmountDue(r.items)
    && p.paymentMethod == if r.paymentMethod == Some(BankTransfer) then BankTransfer else COD
  }

  /** That determines the stored payload. */
  lemma PayloadStores(p: OrderPayload, r: Request)
    requires Schema(r)
    ensures Stores(p, r) <==> p == PayloadOf(r)
  {
    hide Value, AmountDue, Total, IsUuid, ItemsOf;
    SortSorts(ItemsOf(r.items));
    TotalIsAmountDue(r.items);
    if Sorted(p.items) && multiset(p.items) == multiset(ItemsOf(r.items)) {
      PermutedDistinct(ItemsOf(r.items), p.items);
      SortedIsUnique(p.items, Normalized(r.items));
    }
  }

  /** What the service accepts: a customer, one to a hundred different products of the price list,
      each up to ten thousand times, for at most 99,999,999.99. */
  predicate Acceptable(r: Request) {
    && IsUuid(r.customer) && 1 <= |r.items| <= 100
    && (forall i :: 0 <= i < |r.items| ==> IsUuid(r.items[i].productId) && 1 <= r.items[i].quantity <= 10_000)
    && (forall i, j :: 0 <= i < j < |r.items| ==> Lower(r.items[i].productId) != Lower(r.items[j].productId))
    && AllSold(r.items) && 1 <= AmountDue(r.items) <= 9_999_999_999
  }

  lemma AcceptableMeans(r: Request)
    ensures Acceptable(r) <==> Schema(r) && Payable(r)
  {
    hide AmountDue, Total, AllSold, Priced, IsUuid, Lower, Value;
    TotalIsAmountDue(r.items);
    PricedMeansSold(r.items);
    if HasUuids(r.items) {
      forall i, j | 0 <= i < j < |r.items|
        ensures ItemsOf(r.items)[i].productId != ItemsOf(r.items)[j].productId
          <==> Lower(r.items[i].productId) != Lower(r.items[j].productId)
      {
        ValueIdentifies(r.items[i].productId, r.items[j].productId);
      }
      forall i | 0 <= i < |r.items| ensures ItemsOf(r.items)[i].quantity == r.items[i].quantity {
      }
    }
  }

  /** A method left out means cash, and never a bank transfer. */
  lemma LeftOutMeansCash(r: Request)
    requires Schema(r) && r.paymentMethod.None?
    ensures SameOrder(r, r.(paymentMethod := Some(COD))) && !SameOrder(r, r.(paymentMethod := Some(BankTransfer)))
    ensures PayloadOf(r) == PayloadOf(r.(paymentMethod := Some(COD)))
    ensures PayloadOf(r) != PayloadOf(r.(paymentMethod := Some(BankTransfer)))
  {
    hide PayloadOf, Schema, SameBasket;
    assert SameBasket(r.items, r.items) by { SameAsItself(r.items); }
    assert Schema(r.(paymentMethod := Some(COD))) && Schema(r.(paymentMethod := Some(BankTransfer))) by {
      SchemaIgnoresMethod(r);
    }
    SamePayload(r, r.(paymentMethod := Some(COD)));
    SamePayload(r, r.(paymentMethod := Some(BankTransfer)));
  }

  lemma SchemaIgnoresMethod(r: Request)
    ensures forall m :: Schema(r.(paymentMethod := m)) <==> Schema(r)
  {
  }

  lemma SameAsItself(items: seq<RawItem>)
    ensures SameBasket(items, items)
  {
  }

  /** The accepted payload is what the rest of the system relies on. */
  lemma PayloadsAreNormal(r: Request)
    requires Schema(r)
    ensures ValidBasket(PayloadOf(r).items) && Sorted(PayloadOf(r).items)
  {
    SortKeepsValid(ItemsOf(r.items));
  }

  datatype Answer = Invalid | Conflict | Accepted(orderId: Uuid, created: bool)

  datatype OrderRow = OrderRow(id: Uuid, payload: OrderPayload)

  class OrderBook {
    var orders: map<(Uuid, string), OrderRow>

    constructor ()
      ensures orders == map[]
    {
      orders := map[];
    }

    /** Insert first; on a conflict of customer and key, compare fingerprints. */
    method Accept(r: Request, freshId: Uuid) returns (answer: Answer)
      modifies this
      ensures answer == Invalid <==> !Acceptable(r)
      ensures Acceptable(r) ==> Schema(r)
      ensures answer == Invalid || answer == Conflict ==> orders == old(orders)
      ensures answer != Invalid ==>
        var id := (Value(r.customer), r.key);
        if id !in old(orders) then
          && answer == Accepted(freshId, true) && id in orders && orders[id].id == freshId
          && orders == old(orders)[id := orders[id]] && Stores(orders[id].payload, r)
        else
          && orders == old(orders)
          && (answer == Accepted(old(orders)[id].id, false) <==> Stores(old(orders)[id].payload, r))
          && (answer == Conflict <==> !Stores(old(orders)[id].payload, r))
    {
      hide Acceptable, Stores, Value, Normalized, ItemsOf, Priced, Total, AllSold, AmountDue, IsUuid, HasUuids;
      AcceptableMeans(r);
      if !Schema(r) { return Invalid; }
      var total := CalculateOrderTotal(r.items);
      if total.None? { return Invalid; }
      var payload := OrderPayload(Value(r.customer), Normalized(r.items), total.value, r.currency, MethodOf(r),
                                  r.address);
      var id := (Value(r.customer), r.key);
      PayloadStores(payload, r);
      if id !in orders {
        orders := orders[id := OrderRow(freshId, payload)];
        return Accepted(freshId, true);
      }
      PayloadStores(orders[id].payload, r);
      answer := if orders[id].payload == payload then Accepted(orders[id].id, false) else Conflict;
    }

    /** A second request under the same key: the first order again, exactly when it means the same
        order, whatever its order of items and case of ids; a conflict otherwise. */
    method AcceptAgain(first: Request, second: Request, id: Uuid, otherId: Uuid) returns (answer: Answer)
      requires Acceptable(first) && Acceptable(second)
      requires first.key == second.key && Lower(first.customer) == Lower(second.customer)
      requires (Value(first.customer), first.key) !in orders
      modifies this
      ensures answer == if SameOrder(first, second) then Accepted(id, false) else Conflict
    {
      var created := Accept(first, id);
      ValueIdentifies(first.customer, second.customer);
      AcceptableMeans(first);
      AcceptableMeans(second);
      SamePayload(first, second);
      PayloadStores(orders[(Value(first.customer), first.key)].payload, first);
      PayloadStores(PayloadOf(first), second);
      hide SameOrder, Schema, Acceptable, PayloadOf, Stores;
      answer := Accept(second, otherId);
    }
  }
}
