/** Baskets: the item lists of orders, reservations and shipments, and their normal form, sorted
    by product (services/order-orchestrator/src/orders/service.ts, shared/src/contracts.ts). */
module Basket {
  import opened Contracts

  predicate Distinct(items: seq<Item>) {
    forall i, j :: 0 <= i < j < |items| ==> items[i].productId != items[j].productId
  }

  /** ItemsSchema */
  predicate ValidBasket(items: seq<Item>) {
    1 <= |items| <= 100 && Distinct(items) && forall i :: 0 <= i < |items| ==> 1 <= items[i].quantity <= 10_000
  }

  /** How much of product `p` a basket asks for. */
  function Quantity(items: seq<Item>, p: Uuid): nat {
    if items == [] then 0
    else
      var last := items[|items| - 1];
      Quantity(items[..|items| - 1], p) + if last.productId == p then last.quantity else 0
  }

  lemma {:induction false} QuantityOfAbsent(items: seq<Item>, p: Uuid)
    requires forall i :: 0 <= i < |items| ==> items[i].productId != p
    ensures Quantity(items, p) == 0
  {
    if items != [] {
      QuantityOfAbsent(items[..|items| - 1], p);
    }
  }

  /** In a basket without duplicates every item is all of its product. */
  lemma {:induction false} QuantityOfItem(items: seq<Item>, i: nat)
    requires Distinct(items) && i < |items|
    ensures Quantity(items, items[i].productId) == items[i].quantity
  {
    var front := items[..|items| - 1];
    if i == |items| - 1 {
      QuantityOfAbsent(front, items[i].productId);
    } else {
      QuantityOfItem(front, i);
    }
  }

  // ---------- Sorting ----------

  predicate Sorted(items: seq<Item>) {
    forall i, j :: 0 <= i < j < |items| ==> items[i].productId <= items[j].productId
  }

  function Insert(item: Item, sorted: seq<Item>): seq<Item> {
    if sorted == [] then [item]
    else if item.productId <= sorted[0].productId then [item] + sorted
    else [sorted[0]] + Insert(item, sorted[1..])
  }

  function Sort(items: seq<Item>): seq<Item> {
    if items == [] then [] else Insert(items[0], Sort(items[1..]))
  }

  lemma TailBag(a: seq<Item>)
    requires a != []
    ensures multiset(a) == multiset{a[0]} + multiset(a[1..])
  {
    assert a == [a[0]] + a[1..];
  }

  lemma {:induction false} InsertAdds(item: Item, sorted: seq<Item>)
    ensures multiset(Insert(item, sorted)) == multiset(sorted) + multiset{item}
  {
    if sorted != [] {
      TailBag(sorted);
      TailBag(Insert(item, sorted));
      InsertAdds(item, sorted[1..]);
    }
  }

  lemma SortedFrom(head: Item, rest: seq<Item>)
    requires Sorted(rest) && forall x :: x in rest ==> head.productId <= x.productId
    ensures Sorted([head] + rest)
  {
    var r := [head] + rest;
    forall i, j | 0 <= i < j < |r| ensures r[i].productId <= r[j].productId {
      assert r[j] == rest[j - 1];
    }
  }

  lemma {:induction false} InsertKeepsSorted(item: Item, sorted: seq<Item>)
    requires Sorted(sorted)
    ensures Sorted(Insert(item, sorted))
  {
    if sorted != [] {
      if item.productId <= sorted[0].productId {
        SortedFrom(item, sorted);
      } else {
        var rest := Insert(item, sorted[1..]);
        InsertKeepsSorted(item, sorted[1..]);
        InsertAdds(item, sorted[1..]);
        forall x | x in rest ensures sorted[0].productId <= x.productId {
          assert x in multiset(rest);
          assert x == item || x in sorted[1..];
        }
        SortedFrom(sorted[0], rest);
      }
    }
  }

  lemma {:induction false} SortSorts(items: seq<Item>)
    ensures Sorted(Sort(items)) && multiset(Sort(items)) == multiset(items)
  {
    if items != [] {
      assert items == [items[0]] + items[1..];
      SortSorts(items[1..]);
      InsertAdds(items[0], Sort(items[1..]));
      InsertKeepsSorted(items[0], Sort(items[1..]));
    }
  }

  lemma DistinctMembers(items: seq<Item>, x: Item, y: Item)
    requires Distinct(items) && x in items && y in items && x.productId == y.productId
    ensures x == y
  {
    var i :| 0 <= i < |items| && items[i] == x;
    var j :| 0 <= j < |items| && items[j] == y;
    assert i == j;
  }

  lemma FirstIsLeast(a: seq<Item>, b: seq<Item>)
    requires Sorted(a) && Sorted(b) && Distinct(a) && a != [] && b != [] && multiset(a) == multiset(b)
    ensures a[0] == b[0]
  {
    assert a[0] in multiset(b) && b[0] in multiset(a);
    assert a[0] in b && b[0] in a;
    DistinctMembers(a, a[0], b[0]);
  }

  lemma CancelOne(x: Item, a: multiset<Item>, b: multiset<Item>)
    requires multiset{x} + a == multiset{x} + b
    ensures a == b
  {
    assert a == multiset{x} + a - multiset{x};
    assert b == multiset{x} + b - multiset{x};
  }

  /** A sorted basket without duplicates is determined by its items. */
  lemma {:induction false} SortedIsUnique(a: seq<Item>, b: seq<Item>)
    requires Sorted(a) && Sorted(b) && Distinct(a) && multiset(a) == multiset(b)
    ensures a == b
  {
    if a == [] {
      assert |b| == |multiset(b)|;
    } else {
      assert a[0] in multiset(b);
      FirstIsLeast(a, b);
      TailBag(a);
      TailBag(b);
      CancelOne(a[0], multiset(a[1..]), multiset(b[1..]));
      SortedIsUnique(a[1..], b[1..]);
      assert a == [a[0]] + a[1..] && b == [b[0]] + b[1..];
    }
  }

  lemma PermutedDistinct(a: seq<Item>, b: seq<Item>)
    requires Distinct(a) && multiset(a) == multiset(b)
    ensures Distinct(b)
  {
    forall i, j | 0 <= i < j < |b| ensures b[i].productId != b[j].productId {
      if b[i].productId == b[j].productId {
        assert b[i] in multiset(a) && b[j] in multiset(a);
        DistinctMembers(a, b[i], b[j]);
        TwiceInSequence(b, i, j);
        OnceInDistinct(a, b[i]);
      }
    }
  }

  lemma TwiceInSequence(b: seq<Item>, i: nat, j: nat)
    requires i < j < |b| && b[i] == b[j]
    ensures multiset(b)[b[i]] >= 2
  {
    assert b == b[..i] + [b[i]] + b[i + 1..j] + [b[j]] + b[j + 1..];
  }

  lemma {:induction false} OnceInDistinct(a: seq<Item>, x: Item)
    requires Distinct(a)
    ensures multiset(a)[x] <= 1
  {
    if a != [] {
      assert a == a[..|a| - 1] + [a[|a| - 1]];
      OnceInDistinct(a[..|a| - 1], x);
      if a[|a| - 1] == x {
        assert x !in a[..|a| - 1];
      }
    }
  }

  /** The normal form identifies exactly the permutations of a basket. */
  lemma SameNormalForm(a: seq<Item>, b: seq<Item>)
    requires Distinct(a)
    ensures Sort(a) == Sort(b) <==> multiset(a) == multiset(b)
    ensures Distinct(Sort(a))
  {
    SortSorts(a);
    SortSorts(b);
    PermutedDistinct(a, Sort(a));
    if multiset(a) == multiset(b) {
      SortedIsUnique(Sort(a), Sort(b));
    }
  }

  lemma SortedIsNormal(a: seq<Item>)
    requires Sorted(a) && Distinct(a)
    ensures Sort(a) == a
  {
    SortSorts(a);
    SortedIsUnique(a, Sort(a));
  }

  /** Sorting changes nothing the schema checks. */
  lemma SortKeepsValid(items: seq<Item>)
    requires ValidBasket(items)
    ensures ValidBasket(Sort(items)) && Sorted(Sort(items))
  {
    var sorted := Sort(items);
    SortSorts(items);
    PermutedDistinct(items, sorted);
    assert |items| == |multiset(items)| == |multiset(sorted)| == |sorted|;
    forall i | 0 <= i < |sorted| ensures 1 <= sorted[i].quantity <= 10_000 {
      assert sorted[i] in multiset(items);
    }
  }
}
