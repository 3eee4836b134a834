/** The product catalog of the storefront: the product record, the fixed
    five-product list the page is built from, and lookup by id. */
module Catalog {
  import opened Sequences

  /** A product. `rating` is kept in tenths of a star (4.3 stars is 43): apart
      from displaying it, which is rendering, the storefront only compares
      ratings, and tenths order them the same way the decimal values do. */
  datatype Product = Product(
    id: int,
    name: string,
    category: string,
    price: int,
    rating: int,
    description: string)

  /** The hard-coded catalog, in its canonical ("Relevance") order. */
  const Products: seq<Product> := [
    Product(1, "Wireless Mouse", "Electronics", 599, 43,
            "Comfortable wireless mouse with 2.4 GHz connectivity."),
    Product(2, "Mechanical Keyboard", "Electronics", 2499, 47,
            "RGB backlit mechanical keyboard for gaming and typing."),
    Product(3, "Water Bottle 1L", "Home & Kitchen", 299, 41,
            "BPA-free plastic bottle, perfect for daily use."),
    Product(4, "Running Shoes", "Fashion", 1999, 45,
            "Lightweight running shoes with good cushioning."),
    Product(5, "Coffee Mug", "Home & Kitchen", 199, 40,
            "Ceramic mug, microwave and dishwasher safe.")
  ]

  /** No two products share an id. */
  predicate UniqueIds(products: seq<Product>)
  {
    forall i, j :: 0 <= i < j < |products| ==> products[i].id != products[j].id
  }

  /** Every price is non-negative. */
  predicate NonNegativePrices(products: seq<Product>)
  {
    forall i :: 0 <= i < |products| ==> products[i].price >= 0
  }

  lemma ProductsWellFormed()
    ensures UniqueIds(Products) && NonNegativePrices(Products)
    ensures |Products| == 5
  {
  }

  /** The first product of `products` whose id is `pid`, or None when there
      is none. */
  function FindById(products: seq<Product>, pid: int): (r: Option<Product>)
    ensures r.None? <==> forall i :: 0 <= i < |products| ==> products[i].id != pid
    ensures r.Some? ==> exists i :: 0 <= i < |products| && products[i] == r.value
                          && forall j :: 0 <= j < i ==> products[j].id != pid
    ensures r.Some? ==> r.value.id == pid
  {
    if products == [] then None
    else if products[0].id == pid then Some(products[0])
    else
      FindById(products[1..], pid)
  }

  /** When ids are unique, the product found is the one holding that id. */
  lemma {:induction false} FindByIdAt(products: seq<Product>, i: int)
    requires UniqueIds(products)
    requires 0 <= i < |products|
    ensures FindById(products, products[i].id) == Some(products[i])
  {
    if i > 0 {
      FindByIdAt(products[1..], i - 1);
    }
  }

  /** The lookup loop: scans the catalog and returns at the first match. */
  method GetProductById(products: seq<Product>, pid: int) returns (r: Option<Product>)
    ensures r == FindById(products, pid)
  {
    for i := 0 to |products|
      invariant forall j :: 0 <= j < i ==> products[j].id != pid
      invariant FindById(products, pid) == FindById(products[i..], pid)
    {
      if products[i].id == pid {
        return Some(products[i]);
      }
      assert products[i..][1..] == products[i + 1..];
    }
    return None;
  }
}
