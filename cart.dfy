/** The shopping cart: a per-session dictionary from product id to quantity.
    A Python dictionary remembers insertion order, so the cart is modelled as
    the map of quantities together with the sequence of its keys in the order
    they were first added; `Items` is the dictionary's `items()` view. */
module CartStore {
  import opened Sequences
  import opened Catalog

  /** One line of the cart summary: the product, its quantity and
      price times quantity. */
  datatype LineItem = LineItem(product: Product, qty: int, lineTotal: int)

  /** The dictionary invariant plus the store's own: keys listed once each,
      exactly the keys of the map, and every stored quantity at least 1. */
  predicate WellFormed(keys: seq<int>, quantity: map<int, int>)
  {
    && (forall i, j :: 0 <= i < j < |keys| ==> keys[i] != keys[j])
    && (forall k :: k in quantity ==> k in keys)
    && (forall i :: 0 <= i < |keys| ==> keys[i] in quantity)
    && (forall k :: k in quantity ==> quantity[k] >= 1)
  }

  /** The `(id, quantity)` pairs of the dictionary, in insertion order. */
  function Items(keys: seq<int>, quantity: map<int, int>): (r: seq<(int, int)>)
    requires forall i :: 0 <= i < |keys| ==> keys[i] in quantity
    ensures |r| == |keys|
    ensures forall i :: 0 <= i < |r| ==> r[i] == (keys[i], quantity[keys[i]])
  {
    seq(|keys|, i requires 0 <= i < |keys| => (keys[i], quantity[keys[i]]))
  }

  /** The quantities after adding `pid` once: one more if it was there,
      otherwise a new entry of 1; every other entry is left alone. */
  function Incremented(quantity: map<int, int>, pid: int): (r: map<int, int>)
    ensures pid in r && r[pid] == (if pid in quantity then quantity[pid] + 1 else 1)
    ensures forall k :: k != pid ==> (k in r <==> k in quantity)
    ensures forall k :: k != pid && k in quantity ==> r[k] == quantity[k]
  {
    quantity[pid := if pid in quantity then quantity[pid] + 1 else 1]
  }

  /** The key order after adding `pid`: a new key goes to the end, an
      existing key keeps its place. */
  function KeysAfterAdd(keys: seq<int>, quantity: map<int, int>, pid: int): seq<int>
  {
    if pid in quantity then keys else keys + [pid]
  }

  /** What one `(id, quantity)` pair adds to the total: price times quantity
      when the id resolves in the catalog, nothing otherwise. */
  function LineTotal(catalog: seq<Product>, item: (int, int)): int
  {
    match FindById(catalog, item.0)
    case None => 0
    case Some(p) => p.price * item.1
  }

  /** The grand total, accumulated in iteration order. A cart none of whose
      ids resolves totals 0. */
  function CartTotal(catalog: seq<Product>, items: seq<(int, int)>): (r: int)
    ensures Filter(items, Resolves(catalog)) == [] ==> r == 0
  {
    if items == [] then 0
    else
      var front, last := items[..|items| - 1], items[|items| - 1];
      assert items == front + [last];
      FilterSnoc(front, last, Resolves(catalog));
      CartTotal(catalog, front) + LineTotal(catalog, last)
  }

  /** Whether an `(id, quantity)` pair's id resolves in the catalog. */
  function Resolves(catalog: seq<Product>): ((int, int)) -> bool
  {
    (it: (int, int)) => FindById(catalog, it.0).Some?
  }

  /** The `(id, quantity)` pair each line was made from. */
  function Pairs(lines: seq<LineItem>): (r: seq<(int, int)>)
    ensures |r| == |lines|
    ensures forall i :: 0 <= i < |r| ==> r[i] == (lines[i].product.id, lines[i].qty)
  {
    seq(|lines|, i requires 0 <= i < |lines| => (lines[i].product.id, lines[i].qty))
  }

  /** The lines the sidebar lists: one per item whose id resolves, in
      iteration order, skipping ids that do not resolve. */
  function LineItems(catalog: seq<Product>, items: seq<(int, int)>): (r: seq<LineItem>)
    ensures Pairs(r) == Filter(items, Resolves(catalog))
    ensures forall i :: 0 <= i < |r| ==>
      && FindById(catalog, r[i].product.id) == Some(r[i].product)
      && r[i].lineTotal == r[i].product.price * r[i].qty
  {
    if items == [] then []
    else
      var front := items[..|items| - 1];
      var last := items[|items| - 1];
      assert items == front + [last];
      FilterSnoc(front, last, Resolves(catalog));
      var lines := LineItems(catalog, front);
      match FindById(catalog, last.0)
      case None => lines
      case Some(p) =>
        var r := lines + [LineItem(p, last.1, p.price * last.1)];
        assert Pairs(r) == Pairs(lines) + [last];
        r
  }

  /** Every line comes from an item of the cart, and every item whose id
      resolves has its line. */
  lemma LineItemsCover(catalog: seq<Product>, items: seq<(int, int)>)
    ensures forall l :: l in LineItems(catalog, items) ==> (l.product.id, l.qty) in items
    ensures forall it :: it in items && FindById(catalog, it.0).Some? ==>
      LineItem(FindById(catalog, it.0).value, it.1, FindById(catalog, it.0).value.price * it.1)
        in LineItems(catalog, items)
  {
    var r := LineItems(catalog, items);
    FilterCounts(items, Resolves(catalog));
    forall l | l in r ensures (l.product.id, l.qty) in items {
      var i :| 0 <= i < |r| && r[i] == l;
      assert Pairs(r)[i] in Pairs(r);
    }
    forall it | it in items && FindById(catalog, it.0).Some?
      ensures LineItem(FindById(catalog, it.0).value, it.1, FindById(catalog, it.0).value.price * it.1) in r
    {
      assert it in Pairs(r);
      var i :| 0 <= i < |r| && Pairs(r)[i] == it;
      assert r[i] == LineItem(FindById(catalog, it.0).value, it.1, FindById(catalog, it.0).value.price * it.1);
    }
  }

  function SumLineTotals(lines: seq<LineItem>): int
  {
    if lines == [] then 0
    else SumLineTotals(lines[..|lines| - 1]) + lines[|lines| - 1].lineTotal
  }

  /** The grand total is the sum of the listed line totals. */
  lemma {:induction false} TotalIsSumOfLines(catalog: seq<Product>, items: seq<(int, int)>)
    ensures CartTotal(catalog, items) == SumLineTotals(LineItems(catalog, items))
  {
    if items != [] {
      var front := items[..|items| - 1];
      TotalIsSumOfLines(catalog, front);
      var lines := LineItems(catalog, front);
      match FindById(catalog, items[|items| - 1].0)
      case None =>
      case Some(p) =>
        var l := LineItem(p, items[|items| - 1].1, p.price * items[|items| - 1].1);
        assert (lines + [l])[..|lines|] == lines;
    }
  }

  /** Extending a prefix of the items by one more item, whose id looks up
      `p`, extends the lines by that item's line if `p` is a product, and the
      total by its line total. */
  lemma PrefixStep(catalog: seq<Product>, items: seq<(int, int)>, i: int, p: Option<Product>)
    requires 0 <= i < |items| && p == FindById(catalog, items[i].0)
    ensures LineItems(catalog, items[..i + 1]) == LineItems(catalog, items[..i]) +
      if p.Some? then [LineItem(p.value, items[i].1, p.value.price * items[i].1)] else []
    ensures CartTotal(catalog, items[..i + 1]) ==
      CartTotal(catalog, items[..i]) + if p.Some? then p.value.price * items[i].1 else 0
  {
    assert items[..i + 1][..i] == items[..i];
  }

  /** With non-negative prices and positive quantities the total is never negative. */
  lemma {:induction false} CartTotalNonNegative(catalog: seq<Product>, items: seq<(int, int)>)
    requires NonNegativePrices(catalog)
    requires forall i :: 0 <= i < |items| ==> items[i].1 >= 1
    ensures CartTotal(catalog, items) >= 0
  {
    if items != [] {
      var front := items[..|items| - 1];
      assert forall i :: 0 <= i < |front| ==> front[i] == items[i];
      CartTotalNonNegative(catalog, front);
      LineTotalNonNegative(catalog, items[|items| - 1]);
    }
  }

  lemma LineTotalNonNegative(catalog: seq<Product>, item: (int, int))
    requires NonNegativePrices(catalog) && item.1 >= 1
    ensures LineTotal(catalog, item) >= 0
  {
    match FindById(catalog, item.0)
    case None =>
    case Some(p) =>
      var i :| 0 <= i < |catalog| && catalog[i] == p;
  }

  lemma {:induction false} CartTotalAppend(catalog: seq<Product>, items: seq<(int, int)>, item: (int, int))
    ensures CartTotal(catalog, items + [item]) == CartTotal(catalog, items) + LineTotal(catalog, item)
  {
    assert (items + [item])[..|items|] == items;
  }

  /** Replacing one pair changes the total by the difference of the two line totals. */
  lemma {:induction false} CartTotalUpdate(catalog: seq<Product>, items: seq<(int, int)>, i: int, item: (int, int))
    requires 0 <= i < |items|
    ensures CartTotal(catalog, items[i := item])
         == CartTotal(catalog, items) - LineTotal(catalog, items[i]) + LineTotal(catalog, item)
  {
    var n := |items|;
    var updated := items[i := item];
    if i == n - 1 {
      assert updated[..n - 1] == items[..n - 1];
    } else {
      CartTotalUpdate(catalog, items[..n - 1], i, item);
      assert updated[..n - 1] == items[..n - 1][i := item];
    }
  }

  /** Adding keeps the cart well formed. */
  lemma AddWellFormed(keys: seq<int>, quantity: map<int, int>, pid: int)
    requires WellFormed(keys, quantity)
    ensures WellFormed(KeysAfterAdd(keys, quantity, pid), Incremented(quantity, pid))
  {
  }

  /** One more unit adds one unit's line total. */
  lemma LineTotalStep(catalog: seq<Product>, pid: int, qty: int)
    ensures LineTotal(catalog, (pid, qty + 1)) == LineTotal(catalog, (pid, qty)) + LineTotal(catalog, (pid, 1))
  {
    match FindById(catalog, pid)
    case None =>
    case Some(p) =>
      assert p.price * (qty + 1) == p.price * qty + p.price;
  }

  /** Incrementing a present key changes only that key's item. */
  lemma ItemsAfterIncrement(keys: seq<int>, quantity: map<int, int>, pid: int, i: int)
    requires WellFormed(keys, quantity) && 0 <= i < |keys| && keys[i] == pid
    ensures Items(keys, Incremented(quantity, pid)) == Items(keys, quantity)[i := (pid, quantity[pid] + 1)]
  {
  }

  lemma TotalAfterIncrement(catalog: seq<Product>, keys: seq<int>, quantity: map<int, int>, pid: int)
    requires WellFormed(keys, quantity) && pid in quantity
    ensures CartTotal(catalog, Items(keys, Incremented(quantity, pid)))
         == CartTotal(catalog, Items(keys, quantity)) + LineTotal(catalog, (pid, 1))
  {
    var before := Items(keys, quantity);
    var i :| 0 <= i < |keys| && keys[i] == pid;
    ItemsAfterIncrement(keys, quantity, pid, i);
    CartTotalUpdate(catalog, before, i, (pid, quantity[pid] + 1));
    LineTotalStep(catalog, pid, quantity[pid]);
  }

  lemma TotalAfterInsert(catalog: seq<Product>, keys: seq<int>, quantity: map<int, int>, pid: int)
    requires WellFormed(keys, quantity) && pid !in quantity
    ensures CartTotal(catalog, Items(keys + [pid], Incremented(quantity, pid)))
         == CartTotal(catalog, Items(keys, quantity)) + LineTotal(catalog, (pid, 1))
  {
    assert Items(keys + [pid], Incremented(quantity, pid)) == Items(keys, quantity) + [(pid, 1)];
    CartTotalAppend(catalog, Items(keys, quantity), (pid, 1));
  }

  /** Adding `pid` once raises the total by its price when it resolves in the
      catalog, and leaves the total alone when it does not. */
  lemma TotalAfterAdd(catalog: seq<Product>, keys: seq<int>, quantity: map<int, int>, pid: int)
    requires WellFormed(keys, quantity)
    ensures CartTotal(catalog, Items(KeysAfterAdd(keys, quantity, pid), Incremented(quantity, pid)))
         == CartTotal(catalog, Items(keys, quantity))
            + (match FindById(catalog, pid) case Some(p) => p.price case None => 0)
  {
    if pid in quantity {
      TotalAfterIncrement(catalog, keys, quantity, pid);
    } else {
      TotalAfterInsert(catalog, keys, quantity, pid);
    }
  }

  /** The empty cart totals 0, and a cart holding one product once totals
      that product's price. */
  lemma TotalOfSingleAdd(catalog: seq<Product>, i: int)
    requires UniqueIds(catalog)
    requires 0 <= i < |catalog|
    ensures CartTotal(catalog, Items([], map[])) == 0
    ensures CartTotal(catalog, Items(KeysAfterAdd([], map[], catalog[i].id), Incremented(map[], catalog[i].id)))
         == catalog[i].price
  {
    FindByIdAt(catalog, i);
    TotalAfterAdd(catalog, [], map[], catalog[i].id);
  }

  /** A shopping cart for one session. */
  class Cart {
    var keys: seq<int>
    var quantity: map<int, int>

    ghost predicate Valid()
      reads this
    {
      WellFormed(keys, quantity)
    }

    /** A session starts with an empty cart. */
    constructor ()
      ensures Valid() && keys == [] && quantity == map[]
    {
      keys := [];
      quantity := map[];
    }

    /** Adds one unit of product `pid`. */
    method Add(pid: int)
      requires Valid()
      modifies this
      ensures Valid()
      ensures quantity == Incremented(old(quantity), pid)
      ensures keys == KeysAfterAdd(old(keys), old(quantity), pid)
    {
      AddWellFormed(keys, quantity, pid);
      if pid in quantity {
        quantity := quantity[pid := quantity[pid] + 1];
      } else {
        quantity := quantity[pid := 1];
        keys := keys + [pid];
      }
    }

    /** Empties the cart. */
    method Clear()
      modifies this
      ensures Valid() && keys == [] && quantity == map[]
    {
      keys := [];
      quantity := map[];
    }

    /** The sidebar loop: walks the items in order, resolves each id in the
        catalog, skips the ones that do not resolve, and accumulates the
        line totals. */
    method Summary(catalog: seq<Product>) returns (lines: seq<LineItem>, total: int)
      requires Valid()
      ensures lines == LineItems(catalog, Items(keys, quantity))
      ensures total == CartTotal(catalog, Items(keys, quantity))
    {
      var items := Items(keys, quantity);
      lines, total := [], 0;
      for i := 0 to |items|
        invariant lines == LineItems(catalog, items[..i])
        invariant total == CartTotal(catalog, items[..i])
      {
        var (pid, qty) := items[i];
        var p := GetProductById(catalog, pid);
        PrefixStep(catalog, items, i, p);
        if p.Some? {
          var lineTotal := p.value.price * qty;
          total := total + lineTotal;
          lines := lines + [LineItem(p.value, qty, lineTotal)];
        }
      }
      assert items[..|items|] == items;
    }
  }

  /** The cart {3: 2, 5: 1} over the catalog totals 299 * 2 + 199. */
  lemma TotalOfThreeThreeFive()
    ensures CartTotal(Products, [(3, 2), (5, 1)]) == 797
  {
    ProductsWellFormed();
    FindByIdAt(Products, 2);
    FindByIdAt(Products, 4);
    CartTotalAppend(Products, [], (3, 2));
    CartTotalAppend(Products, [(3, 2)], (5, 1));
  }

  /** Adding product 3, product 3 again and product 5 to a fresh cart gives
      quantities {3: 2, 5: 1} and a total of 797. */
  method AddThreeThreeFive() returns (total: int)
    ensures total == 797
  {
    var cart := new Cart();
    cart.Add(3);
    cart.Add(3);
    cart.Add(5);
    assert cart.keys == [3, 5];
    assert cart.quantity == map[3 := 2, 5 := 1];
    assert Items(cart.keys, cart.quantity) == [(3, 2), (5, 1)];
    var lines;
    lines, total := cart.Summary(Products);
    TotalOfThreeThreeFive();
  }
}
