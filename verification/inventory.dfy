/** The line-item stock loop shared by order creation and order update.

    For each line item, in input order, the loop looks up the product,
    rejects the item when the product is missing or the quantity exceeds the
    current stock, and otherwise writes the decremented stock back at once.
    Nothing is rolled back: when item k is rejected, the decrements of items
    0..k-1 are already stored. */
module Inventory {
  import opened Store

  /** The product map after the loop, and the error it stopped on, if any. */
  datatype Reservation = Reservation(products: map<Id, Product>, failure: Option<Error>)

  /** Total quantity that `items` ask of product `p`. */
  function Demand(items: seq<LineItem>, p: Id): int
  {
    if |items| == 0 then 0
    else (if items[0].id == p then items[0].cantidad else 0) + Demand(items[1..], p)
  }

  /** The product ids the items name. */
  function Ids(items: seq<LineItem>): set<Id>
  {
    set i | 0 <= i < |items| :: items[i].id
  }

  /** Reference definition: every product's stock lowered by what `items` ask of it. */
  function Deducted(products: map<Id, Product>, items: seq<LineItem>): (m: map<Id, Product>)
    ensures m.Keys == products.Keys
  {
    map p | p in products :: products[p].(existencia := products[p].existencia - Demand(items, p))
  }

  /** Item `i` passes the check once the items before it have been served. */
  predicate Servable(products: map<Id, Product>, items: seq<LineItem>, i: int)
    requires 0 <= i < |items|
  {
    && items[i].id in products
    && items[i].cantidad <= products[items[i].id].existencia - Demand(items[..i], items[i].id)
  }

  /** Every item passes its check. */
  predicate AllServable(products: map<Id, Product>, items: seq<LineItem>)
  {
    forall i :: 0 <= i < |items| ==> Servable(products, items, i)
  }

  /** Item `k` is the first one the loop rejects. */
  predicate FirstUnservable(products: map<Id, Product>, items: seq<LineItem>, k: int)
  {
    && 0 <= k < |items|
    && (forall i :: 0 <= i < k ==> Servable(products, items, i))
    && !Servable(products, items, k)
  }

  /** The error the loop raises on `item`: a missing product, or a quantity
      above the stock, naming the product. */
  function Rejection(products: map<Id, Product>, item: LineItem): (e: Error)
    ensures e == NotFound(Products) <==> item.id !in products
    ensures item.id in products ==> e == InsufficientStock(products[item.id].nombre)
  {
    if item.id !in products then NotFound(Products)
    else InsufficientStock(products[item.id].nombre)
  }

  /** The product map after one item has been served and written back. */
  function Serve(products: map<Id, Product>, item: LineItem): map<Id, Product>
    requires item.id in products
  {
    products[item.id := products[item.id].(existencia := products[item.id].existencia - item.cantidad)]
  }

  /** The loop itself, threading the product map through the items. */
  function ReserveStock(products: map<Id, Product>, items: seq<LineItem>): (r: Reservation)
    ensures r.products.Keys == products.Keys
    ensures forall p :: p in products ==>
      r.products[p].nombre == products[p].nombre && r.products[p].precio == products[p].precio
    ensures forall p :: p in products && p !in Ids(items) ==> r.products[p] == products[p]
    ensures forall p :: p in products && products[p].existencia >= 0 ==> r.products[p].existencia >= 0
    ensures r.failure.None? ==> forall p :: p in products && p in Ids(items) ==> r.products[p].existencia >= 0
    decreases |items|
  {
    if |items| == 0 then Reservation(products, None)
    else
      var item := items[0];
      if item.id !in products || item.cantidad > products[item.id].existencia then
        Reservation(products, Some(Rejection(products, item)))
      else
        assert forall j :: 0 <= j < |items| - 1 ==> items[1..][j] == items[j + 1];
        assert forall p :: p in Ids(items) ==> p == item.id || p in Ids(items[1..]);
        ReserveStock(Serve(products, item), items[1..])
  }

  lemma {:induction false} DemandAppend(a: seq<LineItem>, b: seq<LineItem>, p: Id)
    ensures Demand(a + b, p) == Demand(a, p) + Demand(b, p)
    decreases |a|
  {
    if |a| > 0 {
      assert (a + b)[1..] == a[1..] + b;
      DemandAppend(a[1..], b, p);
    } else {
      assert a + b == b;
    }
  }

  /** Deducting `a` and then `b` is deducting `a + b`: successive reservations add up. */
  lemma DeductedCompose(products: map<Id, Product>, a: seq<LineItem>, b: seq<LineItem>)
    ensures Deducted(Deducted(products, a), b) == Deducted(products, a + b)
  {
    forall p | p in products
      ensures Demand(a + b, p) == Demand(a, p) + Demand(b, p)
    {
      DemandAppend(a, b, p);
    }
  }

  /** Serving the first item and then deducting the rest is deducting all of them. */
  lemma DeductedStep(products: map<Id, Product>, items: seq<LineItem>)
    requires |items| > 0 && items[0].id in products
    ensures Deducted(Serve(products, items[0]), items[1..]) == Deducted(products, items)
  {
  }

  /** Item i+1 of `items` is servable from `products` exactly when item i of
      the tail is servable from the stock left after item 0. */
  lemma ServableShift(products: map<Id, Product>, items: seq<LineItem>, i: int)
    requires 0 <= i < |items| - 1 && items[0].id in products
    ensures Servable(Serve(products, items[0]), items[1..], i) <==> Servable(products, items, i + 1)
  {
    assert items[..i + 1][1..] == items[1..][..i];
  }

  /** The first item is checked against the untouched stock. */
  lemma ServableHead(products: map<Id, Product>, items: seq<LineItem>)
    requires |items| > 0
    ensures Servable(products, items, 0)
        <==> items[0].id in products && items[0].cantidad <= products[items[0].id].existencia
  {
    assert items[..0] == [];
  }

  /** Once the first item has passed, the whole list passes exactly when the
      tail passes against the stock the first item left. */
  lemma AllServableShift(products: map<Id, Product>, items: seq<LineItem>)
    requires |items| > 0 && items[0].id in products
    requires items[0].cantidad <= products[items[0].id].existencia
    ensures AllServable(products, items) <==> AllServable(Serve(products, items[0]), items[1..])
  {
    var next := Serve(products, items[0]);
    var tail := items[1..];
    ServableHead(products, items);
    if AllServable(next, tail) {
      forall i | 0 <= i < |items|
        ensures Servable(products, items, i)
      {
        if i > 0 {
          ServableShift(products, items, i - 1);
        }
      }
    }
    if AllServable(products, items) {
      forall i | 0 <= i < |tail|
        ensures Servable(next, tail, i)
      {
        ServableShift(products, items, i);
      }
    }
  }

  /** Success of the loop, characterised without running it: it succeeds
      exactly when every item passes its check against the stock left by the
      items before it. */
  lemma {:induction false} ReserveSucceedsIff(products: map<Id, Product>, items: seq<LineItem>)
    ensures ReserveStock(products, items).failure.None? <==> AllServable(products, items)
    decreases |items|
  {
    if |items| > 0 {
      var item := items[0];
      ServableHead(products, items);
      if item.id in products && item.cantidad <= products[item.id].existencia {
        var next := Serve(products, item);
        assert ReserveStock(products, items) == ReserveStock(next, items[1..]);
        ReserveSucceedsIff(next, items[1..]);
        AllServableShift(products, items);
      } else {
        assert !Servable(products, items, 0);
      }
    }
  }

  /** On success, each product's stock is its initial stock minus the sum of
      the quantities of the items naming it. */
  lemma {:induction false} ReserveSuccessDeductsDemand(products: map<Id, Product>, items: seq<LineItem>)
    ensures ReserveStock(products, items).failure.None? ==>
      ReserveStock(products, items).products == Deducted(products, items)
    decreases |items|
  {
    if |items| == 0 {
      assert Deducted(products, items) == products;
    } else if ReserveStock(products, items).failure.None? {
      var item := items[0];
      assert item.id in products && item.cantidad <= products[item.id].existencia;
      var next := Serve(products, item);
      assert ReserveStock(products, items) == ReserveStock(next, items[1..]);
      ReserveSuccessDeductsDemand(next, items[1..]);
      DeductedStep(products, items);
    }
  }

  /** The first rejected item of the tail, after a served head, is the next
      one of the whole list. */
  lemma FirstUnservableShift(products: map<Id, Product>, items: seq<LineItem>, k: int)
    requires FirstUnservable(products, items, k) && k > 0
    ensures items[0].id in products
    ensures FirstUnservable(Serve(products, items[0]), items[1..], k - 1)
  {
    assert Servable(products, items, 0);
    ServableHead(products, items);
    var next := Serve(products, items[0]);
    var tail := items[1..];
    forall i | 0 <= i < k - 1
      ensures Servable(next, tail, i)
    {
      ServableShift(products, items, i);
      assert Servable(products, items, i + 1);
    }
    ServableShift(products, items, k - 1);
  }

  /** Deducting a prefix of the tail after a served head is deducting the
      prefix one longer of the whole list. */
  lemma DeductedPrefixStep(products: map<Id, Product>, items: seq<LineItem>, k: int)
    requires 0 < k <= |items| && items[0].id in products
    ensures Deducted(Serve(products, items[0]), items[1..][..k - 1]) == Deducted(products, items[..k])
  {
    assert items[1..][..k - 1] == items[..k][1..];
    DeductedStep(products, items[..k]);
  }

  /** Failure at item k: the decrements of the items before k are stored,
      the items from k on have not touched the stock, and the error is the
      one item k raises. */
  lemma {:induction false} ReserveStopsAtFirstUnservable(products: map<Id, Product>, items: seq<LineItem>, k: int)
    requires FirstUnservable(products, items, k)
    ensures ReserveStock(products, items)
         == Reservation(Deducted(products, items[..k]), Some(Rejection(products, items[k])))
    decreases |items|
  {
    if k > 0 {
      FirstUnservableShift(products, items, k);
      var next := Serve(products, items[0]);
      ServableHead(products, items);
      assert ReserveStock(products, items) == ReserveStock(next, items[1..]);
      ReserveStopsAtFirstUnservable(next, items[1..], k - 1);
      DeductedPrefixStep(products, items, k);
      assert items[1..][k - 1] == items[k];
    } else {
      ServableHead(products, items);
      assert items[..0] == [];
      assert Deducted(products, []) == products;
    }
  }

  /** Every rejected run has a first rejected item: item `j` is rejected, so
      some item at or before it is the first. */
  lemma {:induction false} FirstUnservableAtOrBefore(products: map<Id, Product>, items: seq<LineItem>, j: int)
    requires 0 <= j < |items| && !Servable(products, items, j)
    ensures exists k :: 0 <= k <= j && FirstUnservable(products, items, k)
    decreases j
  {
    if forall i :: 0 <= i < j ==> Servable(products, items, i) {
      assert FirstUnservable(products, items, j);
    } else {
      var i :| 0 <= i < j && !Servable(products, items, i);
      FirstUnservableAtOrBefore(products, items, i);
    }
  }

  /** The whole outcome of the loop, for every input: either every item
      passes and the full demand is deducted, or there is a first rejected
      item k, only the items before k are deducted, and k's error is raised. */
  lemma ReserveOutcome(products: map<Id, Product>, items: seq<LineItem>)
    ensures AllServable(products, items) ==>
      ReserveStock(products, items) == Reservation(Deducted(products, items), None)
    ensures AllServable(products, items) || exists k :: FirstUnservable(products, items, k)
    ensures forall k :: FirstUnservable(products, items, k) ==>
      ReserveStock(products, items)
        == Reservation(Deducted(products, items[..k]), Some(Rejection(products, items[k])))
  {
    ReserveSucceedsIff(products, items);
    if AllServable(products, items) {
      ReserveSuccessDeductsDemand(products, items);
    } else {
      var j :| 0 <= j < |items| && !Servable(products, items, j);
      FirstUnservableAtOrBefore(products, items, j);
    }
    forall k | FirstUnservable(products, items, k)
      ensures ReserveStock(products, items)
        == Reservation(Deducted(products, items[..k]), Some(Rejection(products, items[k])))
    {
      ReserveStopsAtFirstUnservable(products, items, k);
    }
  }
}
