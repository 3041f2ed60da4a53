/** Accepting a request: the total is recomputed from the catalog, the basket is normalised, and a
    repeated key is a replay or a conflict (shared/src/catalog.ts,
    services/order-orchestrator/src/orders/service.ts). */
module Catalog {
  import opened Contracts
  import opened Basket
  import opened Identifiers

  /** An item as a client writes it. */
  datatype RawItem = RawItem(productId: string, quantity: nat)

  predicate HasUuids(items: seq<RawItem>) {
    forall i :: 0 <= i < |items| ==> IsUuid(items[i].productId)
  }

  function LowerItem(item: RawItem): RawItem { RawItem(Lower(item.productId), item.quantity) }

  function LowerAll(items: seq<RawItem>): (r: seq<RawItem>)
    ensures |r| == |items| && forall i :: 0 <= i < |items| ==> r[i] == LowerItem(items[i])
  {
    seq(|items|, i requires 0 <= i < |items| => LowerItem(items[i]))
  }

  function ItemOf(item: RawItem): Item
    requires IsUuid(item.productId)
  {
    Item(Value(item.productId), item.quantity)
  }

  function ItemsOf(items: seq<RawItem>): (r: seq<Item>)
    requires HasUuids(items)
    ensures |r| == |items| && forall i :: 0 <= i < |items| ==> r[i] == ItemOf(items[i])
  {
    seq(|items|, i requires 0 <= i < |items| => ItemOf(items[i]))
  }

  /** Lower-cased ids, sorted by product. */
  function Normalized(items: seq<RawItem>): seq<Item>
    requires HasUuids(items)
  {
    Sort(ItemsOf(items))
  }

  /** The same basket up to the order of its items and the case of their ids. */
  ghost predicate SameBasket(a: seq<RawItem>, b: seq<RawItem>) {
    multiset(LowerAll(a)) == multiset(LowerAll(b))
  }

  // ---------- The normal form identifies baskets ----------

  /** Where an element of a sequence stands, and the rest without it. */
  lemma Extract<T>(s: seq<T>, x: T) returns (i: nat)
    requires x in multiset(s)
    ensures i < |s| && s[i] == x
    ensures multiset(s) == multiset{x} + multiset(s[..i] + s[i + 1..])
  {
    i :| 0 <= i < |s| && s[i] == x;
    assert s == s[..i] + [s[i]] + s[i + 1..];
  }

  lemma ItemsOfSplits(items: seq<RawItem>, i: nat)
    requires HasUuids(items) && i < |items|
    ensures HasUuids(items[..i] + items[i + 1..])
    ensures multiset(ItemsOf(items)) == multiset{ItemOf(items[i])} + multiset(ItemsOf(items[..i] + items[i + 1..]))
  {
    var rest := items[..i] + items[i + 1..];
    forall k | 0 <= k < |rest| ensures IsUuid(rest[k].productId) {
      assert rest[k] == items[if k < i then k else k + 1];
    }
    var all := ItemsOf(items);
    assert ItemsOf(rest) == all[..i] + all[i + 1..];
    assert all == all[..i] + [all[i]] + all[i + 1..];
  }

  lemma LowerAllSplits(items: seq<RawItem>, i: nat)
    requires i < |items|
    ensures multiset(LowerAll(items)) == multiset{LowerItem(items[i])} + multiset(LowerAll(items[..i] + items[i + 1..]))
  {
    var rest := items[..i] + items[i + 1..];
    var all := LowerAll(items);
    assert LowerAll(rest) == all[..i] + all[i + 1..];
    assert all == all[..i] + [all[i]] + all[i + 1..];
  }

  lemma SameItem(x: RawItem, y: RawItem)
    requires IsUuid(x.productId) && IsUuid(y.productId)
    ensures ItemOf(x) == ItemOf(y) <==> LowerItem(x) == LowerItem(y)
  {
    ValueIdentifies(x.productId, y.productId);
  }

  lemma {:induction false} SameItems(a: seq<RawItem>, b: seq<RawItem>)
    requires HasUuids(a) && HasUuids(b)
    ensures multiset(ItemsOf(a)) == multiset(ItemsOf(b)) <==> SameBasket(a, b)
    decreases |a|
  {
    assert |multiset(LowerAll(a))| == |a| && |multiset(LowerAll(b))| == |b|;
    assert |multiset(ItemsOf(a))| == |a| && |multiset(ItemsOf(b))| == |b|;
    if a != [] {
      if SameBasket(a, b) {
        assert LowerAll(a)[0] in multiset(LowerAll(a));
        var j := Extract(LowerAll(b), LowerItem(a[0]));
        RemoveSame(a, b, j);
      } else if multiset(ItemsOf(a)) == multiset(ItemsOf(b)) {
        assert ItemsOf(a)[0] in multiset(ItemsOf(a));
        var j := Extract(ItemsOf(b), ItemOf(a[0]));
        RemoveSame(a, b, j);
      }
    }
  }

  /** Removing an item both baskets have. */
  lemma {:induction false} RemoveSame(a: seq<RawItem>, b: seq<RawItem>, j: nat)
    requires HasUuids(a) && HasUuids(b) && a != [] && j < |b|
    requires ItemOf(a[0]) == ItemOf(b[j]) || LowerItem(a[0]) == LowerItem(b[j])
    ensures multiset(ItemsOf(a)) == multiset(ItemsOf(b)) <==> SameBasket(a, b)
    decreases |a|, 0
  {
    hide LowerAll, ItemsOf, ItemOf, LowerItem, IsUuid;
    var a', b' := a[..0] + a[1..], b[..j] + b[j + 1..];
    SameItem(a[0], b[j]);
    ItemsOfSplits(a, 0);
    ItemsOfSplits(b, j);
    LowerAllSplits(a, 0);
    LowerAllSplits(b, j);
    SameItems(a', b');
    Cancel(ItemOf(a[0]), multiset(ItemsOf(a)), multiset(ItemsOf(a')), multiset(ItemsOf(b)), multiset(ItemsOf(b')));
    Cancel(LowerItem(a[0]), multiset(LowerAll(a)), multiset(LowerAll(a')), multiset(LowerAll(b)),
           multiset(LowerAll(b')));
  }

  lemma Cancel<T>(x: T, a: multiset<T>, a': multiset<T>, b: multiset<T>, b': multiset<T>)
    requires a == multiset{x} + a' && b == multiset{x} + b'
    ensures a == b <==> a' == b'
  {
    assert a' == a - multiset{x};
    assert b' == b - multiset{x};
  }

  /** Two baskets without duplicates have the same normal form exactly when they are permutations
      of each other up to the case of their ids. */
  lemma NormalFormsMeet(a: seq<RawItem>, b: seq<RawItem>)
    requires HasUuids(a) && HasUuids(b) && Distinct(ItemsOf(a))
    ensures Normalized(a) == Normalized(b) <==> SameBasket(a, b)
  {
    SameNormalForm(ItemsOf(a), ItemsOf(b));
    SameItems(a, b);
  }

  // ---------- The total ----------

  const KEYBOARD := "44444444-4444-4444-8444-444444444444"
  const MOUSE := "55555555-5555-4555-8555-555555555555"
  const MONITOR := "66666666-6666-4666-8666-666666666666"

  /** The catalog's price of a lower-case id. */
  function Price(id: string): Option<nat> {
    if id == KEYBOARD then Some(250_000) else if id == MOUSE then Some(85_000)
      else if id == MONITOR then Some(3_200_000) else None
  }

  predicate IsPriced(item: RawItem) { Price(Lower(item.productId)).Some? }

  predicate Priced(items: seq<RawItem>) {
    forall i :: 0 <= i < |items| ==> IsPriced(items[i])
  }

  function Cost(item: RawItem): nat {
    var price := Price(Lower(item.productId));
    if price.Some? then price.value * item.quantity else 0
  }

  function Total(items: seq<RawItem>): nat {
    if items == [] then 0 else Total(items[..|items| - 1]) + Cost(items[|items| - 1])
  }

  lemma TotalGrows(items: seq<RawItem>, last: RawItem)
    ensures Total(items + [last]) == Total(items) + Cost(last)
  {
    assert (items + [last])[..|items|] == items;
  }

  lemma {:induction false} TotalSplits(items: seq<RawItem>, i: nat)
    requires i < |items|
    ensures Total(items) == Cost(items[i]) + Total(items[..i] + items[i + 1..])
  {
    hide Cost;
    var n := |items| - 1;
    var front, last := items[..n], items[n];
    assert items == front + [last];
    if i == n {
      assert items[..i] + items[i + 1..] == front;
    } else {
      TotalSplits(front, i);
      assert items[..i] + items[i + 1..] == (front[..i] + front[i + 1..]) + [last];
      TotalGrows(front[..i] + front[i + 1..], last);
    }
    TotalGrows(front, last);
  }

  lemma PricedSplits(items: seq<RawItem>, i: nat)
    requires i < |items|
    ensures Priced(items) <==> IsPriced(items[i]) && Priced(items[..i] + items[i + 1..])
  {
    hide IsPriced;
    var rest := items[..i] + items[i + 1..];
    if IsPriced(items[i]) && Priced(rest) {
      forall k | 0 <= k < |items| ensures IsPriced(items[k]) {
        if k != i { assert items[k] == rest[if k < i then k else k - 1]; }
      }
    }
    if Priced(items) {
      forall k | 0 <= k < |rest| ensures IsPriced(rest[k]) {
        assert rest[k] == items[if k < i then k else k + 1];
      }
    }
  }

  predicate SameCharge(a: seq<RawItem>, b: seq<RawItem>) {
    Total(a) == Total(b) && (Priced(a) <==> Priced(b))
  }

  lemma SameChargeWith(a: seq<RawItem>, b: seq<RawItem>, i: nat, j: nat)
    requires i < |a| && j < |b| && LowerItem(a[i]) == LowerItem(b[j])
    requires SameCharge(a[..i] + a[i + 1..], b[..j] + b[j + 1..])
    ensures SameCharge(a, b)
  {
    assert Lower(a[i].productId) == Lower(b[j].productId) && a[i].quantity == b[j].quantity;
    assert Cost(a[i]) == Cost(b[j]) && (IsPriced(a[i]) <==> IsPriced(b[j]));
    hide Lower, Total, Priced, Cost, Price, IsPriced;
    TotalSplits(a, i);
    TotalSplits(b, j);
    PricedSplits(a, i);
    PricedSplits(b, j);
  }

  /** The total and the acceptance of a basket do not depend on order or case. */
  lemma {:induction false} SameBasketSameCharge(a: seq<RawItem>, b: seq<RawItem>)
    requires SameBasket(a, b)
    ensures SameCharge(a, b)
    decreases |a|
  {
    hide SameCharge;
    assert |multiset(LowerAll(a))| == |a| && |multiset(LowerAll(b))| == |b|;
    if a != [] {
      assert LowerAll(a)[0] in multiset(LowerAll(a));
      var j := Extract(LowerAll(b), LowerItem(a[0]));
      RestIsSame(a, b, j);
      SameBasketSameCharge(a[..0] + a[1..], b[..j] + b[j + 1..]);
      SameChargeWith(a, b, 0, j);
    } else {
      assert b == [];
      EmptyCharge(a, b);
    }
  }

  lemma EmptyCharge(a: seq<RawItem>, b: seq<RawItem>)
    requires a == [] && b == []
    ensures SameCharge(a, b)
  {
  }

  lemma RestIsSame(a: seq<RawItem>, b: seq<RawItem>, j: nat)
    requires SameBasket(a, b) && a != [] && j < |b| && LowerItem(a[0]) == LowerItem(b[j])
    ensures SameBasket(a[..0] + a[1..], b[..j] + b[j + 1..])
  {
    hide LowerAll, LowerItem;
    LowerAllSplits(a, 0);
    LowerAllSplits(b, j);
    Cancel(LowerItem(a[0]), multiset(LowerAll(a)), multiset(LowerAll(a[..0] + a[1..])),
           multiset(LowerAll(b)), multiset(LowerAll(b[..j] + b[j + 1..])));
  }

  // ---------- The price list ----------

  /** How many pieces of one product, given by its lower-case id, the items ask for. */
  function Pieces(items: seq<RawItem>, id: string): nat {
    if items == [] then 0
    else Pieces(items[1..], id) + if Lower(items[0].productId) == id then items[0].quantity else 0
  }

  /** What a basket costs in minor units: keyboards at 2,500.00, mice at 850.00, monitors at
      32,000.00. */
  function AmountDue(items: seq<RawItem>): nat {
    250_000 * Pieces(items, "44444444-4444-4444-8444-444444444444")
    + 85_000 * Pieces(items, "55555555-5555-4555-8555-555555555555")
    + 3_200_000 * Pieces(items, "66666666-6666-4666-8666-666666666666")
  }

  predicate IsSold(item: RawItem) {
    Lower(item.productId) in {"44444444-4444-4444-8444-444444444444", "55555555-5555-4555-8555-555555555555",
                              "66666666-6666-4666-8666-666666666666"}
  }

  predicate AllSold(items: seq<RawItem>) {
    forall i :: 0 <= i < |items| ==> IsSold(items[i])
  }

  /** The price list has exactly these three products. */
  lemma SoldIsPriced(item: RawItem)
    ensures IsPriced(item) <==> IsSold(item)
    ensures Cost(item) == AmountDue([item])
  {
    hide Lower, Pieces;
    Unlike();
    forall id: string { PiecesOfOne(item, id); }
  }

  lemma PiecesOfOne(item: RawItem, id: string)
    ensures Pieces([item], id) == if Lower(item.productId) == id then item.quantity else 0
  {
    hide Lower;
    assert [item][1..] == [];
  }

  lemma Unlike()
    ensures "44444444-4444-4444-8444-444444444444" != "55555555-5555-4555-8555-555555555555"
    ensures "44444444-4444-4444-8444-444444444444" != "66666666-6666-4666-8666-666666666666"
    ensures "55555555-5555-4555-8555-555555555555" != "66666666-6666-4666-8666-666666666666"
  {
    assert "44444444-4444-4444-8444-444444444444"[0] == '4';
    assert "55555555-5555-4555-8555-555555555555"[0] == '5';
    assert "66666666-6666-4666-8666-666666666666"[0] == '6';
  }

  lemma PiecesAdd(items: seq<RawItem>, id: string)
    requires items != []
    ensures Pieces(items, id) == Pieces([items[0]], id) + Pieces(items[1..], id)
  {
    hide Lower;
    assert [items[0]][1..] == [];
  }

  lemma AmountsAdd(items: seq<RawItem>)
    requires items != []
    ensures AmountDue(items) == AmountDue([items[0]]) + AmountDue(items[1..])
  {
    hide Pieces;
    forall id: string { PiecesAdd(items, id); }
  }

  /** The loop's total is what the pieces of each product cost. */
  lemma {:induction false} TotalIsAmountDue(items: seq<RawItem>)
    ensures Total(items) == AmountDue(items)
  {
    hide Total, AmountDue, Cost;
    if items == [] {
      NothingIsFree(items);
    } else {
      TotalIsAmountDue(items[1..]);
      TotalSplits(items, 0);
      assert items[..0] + items[1..] == items[1..];
      SoldIsPriced(items[0]);
      AmountsAdd(items);
    }
  }

  lemma NothingIsFree(items: seq<RawItem>)
    requires items == []
    ensures Total(items) == 0 && AmountDue(items) == 0
  {
  }

  /** A basket has a price exactly when every product in it is sold. */
  lemma PricedMeansSold(items: seq<RawItem>)
    ensures Priced(items) <==> AllSold(items)
  {
    forall i | 0 <= i < |items| ensures IsPriced(items[i]) <==> IsSold(items[i]) {
      SoldIsPriced(items[i]);
    }
    hide IsPriced, IsSold;
  }

  // ---------- Accepting a total ----------

  const MAX_AMOUNT := 9_999_999_999

  /** None when the code throws: an unknown product, or a total out of range. */
  method CalculateOrderTotal(items: seq<RawItem>) returns (r: Option<nat>)
    ensures r.Some? <==> Priced(items) && 1 <= Total(items) <= MAX_AMOUNT
    ensures r.Some? ==> r.value == Total(items)
    ensures r.Some? <==> AllSold(items) && 1 <= AmountDue(items) <= 9_999_999_999
    ensures r.Some? ==> r.value == AmountDue(items)
  {
    hide AmountDue, AllSold, Price, Lower;
    TotalIsAmountDue(items);
    PricedMeansSold(items);
    var total := 0;
    for i := 0 to |items|
      invariant Priced(items[..i]) && total == Total(items[..i])
    {
      var price := Price(Lower(items[i].productId));
      if price.None? { return None; }
      assert items[..i + 1][..i] == items[..i];
      total := total + price.value * items[i].quantity;
    }
    assert items[..|items|] == items;
    r := if total < 1 || total > MAX_AMOUNT then None else Some(total);
  }
}
