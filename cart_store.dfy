/** The storefront's cart store: a list of line items keyed by product id,
    replaced wholesale by each action (add, remove, set quantity, clear), and
    two folds over it (item count and total). Prices are exact reals. */
module CartStore {

  /** A product as the product pages hand it to `addItem`. */
  datatype Product = Product(productId: int, name: string, price: real, stock: int)

  /** A line item: the product's fields spread, plus `quantity`. */
  datatype Item = Item(product: Product, quantity: int)

  function IdOf(item: Item): int {
    item.product.productId
  }

  /** `items.find(item => item.product_id === id)` finds something. */
  predicate Has(items: seq<Item>, id: int) {
    exists i :: 0 <= i < |items| && IdOf(items[i]) == id
  }

  predicate DistinctIds(items: seq<Item>) {
    forall i, j :: 0 <= i < j < |items| ==> IdOf(items[i]) != IdOf(items[j])
  }

  /** The store's invariant: one line per product, every quantity positive. */
  predicate WellFormed(items: seq<Item>) {
    DistinctIds(items) && forall i :: 0 <= i < |items| ==> items[i].quantity >= 1
  }

  /** `items.map(item => item.product_id === id ? {...item, quantity: item.quantity + 1} : item)` */
  function Incremented(items: seq<Item>, id: int): seq<Item> {
    seq(|items|, i requires 0 <= i < |items| =>
      if IdOf(items[i]) == id then items[i].(quantity := items[i].quantity + 1) else items[i])
  }

  /** The new `items` after `addItem(product)`. */
  function Added(items: seq<Item>, p: Product): seq<Item> {
    if Has(items, p.productId) then Incremented(items, p.productId)
    else items + [Item(p, 1)]
  }

  /** `items.filter(item => item.product_id !== id)` */
  function Without(items: seq<Item>, id: int): (r: seq<Item>)
    ensures |r| <= |items|
    ensures forall i :: 0 <= i < |r| ==> IdOf(r[i]) != id
    ensures forall x :: x in r ==> x in items
  {
    if items == [] then []
    else
      var last := items[|items| - 1];
      Without(items[..|items| - 1], id) + (if IdOf(last) == id then [] else [last])
  }

  /** `items.map(item => item.product_id === id ? {...item, quantity: q} : item)` */
  function WithQuantity(items: seq<Item>, id: int, q: int): seq<Item> {
    seq(|items|, i requires 0 <= i < |items| =>
      if IdOf(items[i]) == id then items[i].(quantity := q) else items[i])
  }

  /** `getItemCount`: `items.reduce((count, item) => count + item.quantity, 0)`. */
  function ItemCount(items: seq<Item>): int {
    if items == [] then 0 else ItemCount(items[..|items| - 1]) + items[|items| - 1].quantity
  }

  /** `getTotal`: `items.reduce((total, item) => total + item.price * item.quantity, 0)`. */
  function Total(items: seq<Item>): real {
    if items == [] then 0.0
    else Total(items[..|items| - 1]) + items[|items| - 1].product.price * items[|items| - 1].quantity as real
  }

  /** How many lines carry product `id`. */
  function Lines(items: seq<Item>, id: int): nat {
    if items == [] then 0 else Lines(items[..|items| - 1], id) + (if IdOf(items[|items| - 1]) == id then 1 else 0)
  }

  /** The quantity of product `id` in the cart, 0 when it is absent. */
  function QuantityOf(items: seq<Item>, id: int): int {
    if items == [] then 0
    else QuantityOf(items[..|items| - 1], id) + (if IdOf(items[|items| - 1]) == id then items[|items| - 1].quantity else 0)
  }

  /** The price times quantity of product `id`'s lines, 0 when it is absent. */
  function AmountOf(items: seq<Item>, id: int): real {
    if items == [] then 0.0
    else
      var last := items[|items| - 1];
      AmountOf(items[..|items| - 1], id) + (if IdOf(last) == id then last.product.price * last.quantity as real else 0.0)
  }

  /** The unit price of the line holding product `id`, 0 when it is absent. */
  function PriceOf(items: seq<Item>, id: int): real {
    if items == [] then 0.0
    else
      var last := items[|items| - 1];
      PriceOf(items[..|items| - 1], id) + (if IdOf(last) == id then last.product.price else 0.0)
  }

  // ---- addItem -------------------------------------------------------------

  /** Adding a product already in the cart raises that line's quantity by one and changes nothing else. */
  lemma AddExisting(items: seq<Item>, p: Product, k: nat)
    requires k < |items| && IdOf(items[k]) == p.productId && DistinctIds(items)
    ensures |Added(items, p)| == |items|
    ensures Added(items, p)[k] == items[k].(quantity := items[k].quantity + 1)
    ensures forall i :: 0 <= i < |items| && i != k ==> Added(items, p)[i] == items[i]
  {
  }

  /** Adding a new product appends it with quantity 1 behind the earlier lines. */
  lemma AddNew(items: seq<Item>, p: Product)
    requires !Has(items, p.productId)
    ensures Added(items, p) == items + [Item(p, 1)]
    ensures Added(items, p)[..|items|] == items
  {
  }

  lemma {:induction false} IncrementedCount(items: seq<Item>, id: int)
    ensures ItemCount(Incremented(items, id)) == ItemCount(items) + Lines(items, id)
    ensures Total(Incremented(items, id)) == Total(items) + PriceOf(items, id)
  {
    if items != [] {
      var n := |items| - 1;
      assert Incremented(items, id)[..n] == Incremented(items[..n], id);
      IncrementedCount(items[..n], id);
    }
  }

  lemma {:induction false} LinesDistinct(items: seq<Item>, id: int)
    requires DistinctIds(items)
    ensures Lines(items, id) == if Has(items, id) then 1 else 0
  {
    if items != [] {
      var n := |items| - 1;
      LinesDistinct(items[..n], id);
      if IdOf(items[n]) == id {
        assert !Has(items[..n], id);
      } else if Has(items, id) {
        var i :| 0 <= i < |items| && IdOf(items[i]) == id;
        assert items[..n][i] == items[i];
      }
    }
  }

  /** After `addItem` the item count grows by exactly one; the total grows by the
      price already on the line (a re-added product's new price is ignored), or by
      the product's price for a new line. */
  lemma AddItemTotals(items: seq<Item>, p: Product)
    requires DistinctIds(items)
    ensures ItemCount(Added(items, p)) == ItemCount(items) + 1
    ensures Total(Added(items, p)) == Total(items) + (if Has(items, p.productId) then PriceOf(items, p.productId) else p.price)
  {
    IncrementedCount(items, p.productId);
    LinesDistinct(items, p.productId);
    if !Has(items, p.productId) {
      assert (items + [Item(p, 1)])[..|items|] == items;
    }
  }

  lemma AddPreserves(items: seq<Item>, p: Product)
    requires WellFormed(items)
    ensures WellFormed(Added(items, p))
  {
    if !Has(items, p.productId) {
      var r := items + [Item(p, 1)];
      forall i, j | 0 <= i < j < |r| ensures IdOf(r[i]) != IdOf(r[j]) {
        if j == |items| {
          assert IdOf(r[i]) == IdOf(items[i]);
        }
      }
    }
  }

  // ---- removeItem ----------------------------------------------------------

  /** Removing keeps every other line of the cart. */
  lemma {:induction false} WithoutKeepsOthers(items: seq<Item>, id: int)
    ensures forall x :: x in items && IdOf(x) != id ==> x in Without(items, id)
  {
    if items != [] {
      var n := |items| - 1;
      WithoutKeepsOthers(items[..n], id);
      forall x | x in items && IdOf(x) != id ensures x in Without(items, id) {
        if x != items[n] {
          var i :| 0 <= i < |items| && items[i] == x;
          assert items[..n][i] == x;
        }
      }
    }
  }

  /** Removing a product takes exactly its quantity off the item count and its
      price times quantity off the total. */
  lemma {:induction false} WithoutTotals(items: seq<Item>, id: int)
    ensures ItemCount(Without(items, id)) == ItemCount(items) - QuantityOf(items, id)
    ensures Total(Without(items, id)) == Total(items) - AmountOf(items, id)
  {
    if items != [] {
      var n := |items| - 1;
      WithoutTotals(items[..n], id);
      var rest := Without(items[..n], id);
      if IdOf(items[n]) != id {
        assert (rest + [items[n]])[..|rest|] == rest;
      } else {
        assert Without(items, id) == rest;
      }
    }
  }

  /** Removing an absent product leaves the cart as it was. */
  lemma {:induction false} WithoutAbsent(items: seq<Item>, id: int)
    requires !Has(items, id)
    ensures Without(items, id) == items
  {
    if items != [] {
      var n := |items| - 1;
      forall i | 0 <= i < n ensures IdOf(items[..n][i]) != id {
        assert items[..n][i] == items[i];
      }
      WithoutAbsent(items[..n], id);
      assert items == items[..n] + [items[n]];
    }
  }

  /** Filtering keeps relative order: the result is a subsequence of the input. */
  lemma {:induction false} WithoutIsSubsequence(items: seq<Item>, id: int)
    ensures exists idx: seq<nat> ::
      (|idx| == |Without(items, id)| &&
       (forall a :: 0 <= a < |idx| ==> idx[a] < |items| && items[idx[a]] == Without(items, id)[a]) &&
       (forall a, b :: 0 <= a < b < |idx| ==> idx[a] < idx[b]))
  {
    if items != [] {
      var n := |items| - 1;
      WithoutIsSubsequence(items[..n], id);
      var rest := Without(items[..n], id);
      var idx: seq<nat> :| |idx| == |rest| &&
        (forall a :: 0 <= a < |idx| ==> idx[a] < |items[..n]| && items[..n][idx[a]] == rest[a]) &&
        (forall a, b :: 0 <= a < b < |idx| ==> idx[a] < idx[b]);
      if IdOf(items[n]) != id {
        var idx' := idx + [n];
        assert |idx'| == |Without(items, id)|;
        assert forall a :: 0 <= a < |idx'| ==> idx'[a] < |items| && items[idx'[a]] == Without(items, id)[a];
        assert forall a, b :: 0 <= a < b < |idx'| ==> idx'[a] < idx'[b];
      } else {
        assert forall a :: 0 <= a < |idx| ==> idx[a] < |items| && items[idx[a]] == Without(items, id)[a];
      }
    }
  }

  lemma {:induction false} WithoutPreserves(items: seq<Item>, id: int)
    requires WellFormed(items)
    ensures WellFormed(Without(items, id))
  {
    if items != [] {
      var n := |items| - 1;
      WithoutPreserves(items[..n], id);
      var rest := Without(items[..n], id);
      var r := Without(items, id);
      if IdOf(items[n]) != id {
        forall i, j | 0 <= i < j < |r| ensures IdOf(r[i]) != IdOf(r[j]) {
          if j == |rest| {
            assert r[i] in items[..n];
            var m :| 0 <= m < n && items[..n][m] == r[i];
            assert items[m] == r[i];
          }
        }
      }
      forall i | 0 <= i < |r| ensures r[i].quantity >= 1 {
        assert r[i] in items;
      }
    }
  }

  // ---- updateQuantity ------------------------------------------------------

  /** Setting a positive quantity changes only that product's line, keeps the length,
      and is a no-op for an absent product. */
  lemma SetQuantityEffect(items: seq<Item>, id: int, q: int)
    ensures |WithQuantity(items, id, q)| == |items|
    ensures forall i :: 0 <= i < |items| ==>
      WithQuantity(items, id, q)[i] == if IdOf(items[i]) == id then items[i].(quantity := q) else items[i]
    ensures !Has(items, id) ==> WithQuantity(items, id, q) == items
  {
  }

  lemma SetQuantityPreserves(items: seq<Item>, id: int, q: int)
    requires WellFormed(items) && q > 0
    ensures WellFormed(WithQuantity(items, id, q))
  {
  }

  // ---- the store -----------------------------------------------------------

  /** The zustand store: `items` is replaced by every action. */
  class Cart {
    var items: seq<Item>

    ghost predicate Valid() reads this {
      WellFormed(items)
    }

    constructor ()
      ensures Valid() && items == []
    {
      items := [];
    }

    method AddItem(p: Product)
      requires Valid()
      modifies this
      ensures Valid()
      ensures items == Added(old(items), p)
      ensures ItemCount(items) == ItemCount(old(items)) + 1
    {
      AddPreserves(items, p);
      AddItemTotals(items, p);
      items := Added(items, p);
    }

    method RemoveItem(id: int)
      requires Valid()
      modifies this
      ensures Valid()
      ensures items == Without(old(items), id)
      ensures !Has(old(items), id) ==> items == old(items)
    {
      WithoutPreserves(items, id);
      if !Has(items, id) { WithoutAbsent(items, id); }
      items := Without(items, id);
    }

    /** A quantity at or below zero removes the line, exactly as `removeItem` does. */
    method UpdateQuantity(id: int, quantity: int)
      requires Valid()
      modifies this
      ensures Valid()
      ensures items == if quantity <= 0 then Without(old(items), id) else WithQuantity(old(items), id, quantity)
    {
      if quantity <= 0 {
        WithoutPreserves(items, id);
        items := Without(items, id);
        return;
      }
      SetQuantityPreserves(items, id, quantity);
      items := WithQuantity(items, id, quantity);
    }

    method ClearCart()
      modifies this
      ensures Valid() && items == []
      ensures ItemCount(items) == 0 && Total(items) == 0.0
    {
      items := [];
    }

    function GetTotal(): real reads this {
      Total(items)
    }

    function GetItemCount(): int reads this {
      ItemCount(items)
    }
  }
}
