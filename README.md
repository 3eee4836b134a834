# Mini storefront: catalog query pipeline and shopping cart

This project models the logic inside the "Mini Amazon Demo" storefront page (`app.py`).
The page is a single Streamlit script. Under its widget calls it holds two small components:

- **the cart store.** The session cart is a dictionary from product id to quantity.
  "Add to Cart" increments an entry or inserts it with quantity 1. "Clear Cart" empties the dictionary.
  The sidebar walks the entries, resolves each id in the catalog, skips ids that do not resolve,
  and adds up price times quantity.
- **the catalog query pipeline.** It runs over the fixed five-product catalog:
  - a category filter, where the choice "All" disables it;
  - a case-insensitive search in the product name and description, where an empty query disables it;
  - a stable sort by price ascending, price descending or rating descending, or no reordering for "Relevance".

  The category choices offered are "All" followed by the sorted distinct categories.

Files and modules:

- `sequences.dfy` (`Sequences`): `Option`; `Filter`, which models a list comprehension with an `if`; the subsequence relation.
- `stable_sort.dfy` (`StableSort`): a stable insertion sort by an integer key. It models Python's `sorted(..., key=...)`.
  `sorted(..., reverse=True)` is modelled as the same stable sort on the negated key.
  Python's `reverse=True` keeps equal elements in input order, and so does the negated-key sort.
- `catalog.dfy` (`Catalog`): the `Product` record, the five products, and `get_product_by_id`.
  The lookup has a specification function `FindById` and a looping method `GetProductById` with an early return.
- `cart.dfy` (`CartStore`): class `Cart`.
  Its fields are the quantity map and the insertion-ordered key list, because a Python dictionary remembers insertion order.
  The class has the methods `Add`, `Clear` and `Summary`; `Summary` is the sidebar loop.
  The file also holds the specification functions `Items`, `Incremented`, `KeysAfterAdd`, `LineItems` and `CartTotal`,
  and the lemmas about them.
- `query.dfy` (`Query`): the pieces below, the `RunQuery` pipeline, its lemmas, and scenarios on the real catalog.
  - Python's string order `StrLess`, with `sorted(set(...))` as `SortedDistinct` and the category choices as `CategoryOptions`.
  - ASCII lower-casing, and substring search as `Contains`.
  - The three stages `CategoryFilter`, `SearchFilter` and `SortProducts`.

Ratings are kept as integers in tenths of a star (4.3 is 43). Apart from displaying a rating (app.py:151), which is left out as rendering, the page only compares ratings, and tenths order them the same way.

`add_to_cart` (app.py:62-66) does not check that the id names a product.
The model follows the code: `Cart.Add` takes any id, and the total skips ids that do not resolve.

## Model

| member | source | states |
|---|---|---|
| `Catalog.ProductsWellFormed` | app.py:14-55 | The catalog has five products with distinct ids and non-negative prices. |
| `Catalog.FindById` | app.py:69-73 | The result is None exactly when no product has the id. Otherwise it is a product with that id, and no earlier product has that id. |
| `Catalog.FindByIdAt` | app.py:69-73 | When ids are unique, looking up the id of the product at position i returns that product. |
| `Catalog.GetProductById` | app.py:69-73 | The loop with early return computes the lookup `FindById` specifies: the first match, or None. |
| `CartStore.Cart.constructor` | app.py:58-59 | A session starts with an empty, well-formed cart. |
| `CartStore.Incremented` | app.py:62-66 | After adding an id, its quantity is the old one plus 1 if it was present, or 1 otherwise. Every other entry is unchanged. |
| `CartStore.Cart.Add` | app.py:62-66 | Add keeps the cart well formed. It updates the quantities as `Incremented` says, and appends the id to the key order only if it is new. |
| `CartStore.AddWellFormed` | app.py:62-66 | Adding preserves the store invariant: keys listed once each, exactly the keys of the map, every quantity at least 1. |
| `CartStore.Cart.Clear` | app.py:107-108 | After clearing, the cart is empty and still well formed. |
| `CartStore.LineItems` | app.py:100-105 | There is one line per entry whose id resolves, in the cart's iteration order: the lines' (id, quantity) pairs are exactly the resolving entries, filtered in order. Each line holds the product its id resolves to, and its line total is price times quantity. |
| `CartStore.LineItemsCover` | app.py:100-105 | Every line comes from an entry of the cart, and every entry whose id resolves has its line. |
| `CartStore.CartTotal` | app.py:99-104 | The total is accumulated over the items in iteration order. A cart none of whose ids resolves totals 0. |
| `CartStore.PrefixStep` | app.py:100-104 | One more loop step appends the item's line when its id resolves and nothing otherwise. It adds the item's line total to the running total. |
| `CartStore.Cart.Summary` | app.py:99-106 | The sidebar loop returns the listed lines and the grand total over the cart's items in insertion order. Unresolved ids contribute nothing. |
| `CartStore.TotalIsSumOfLines` | app.py:99-106 | The grand total equals the sum of the listed line totals. |
| `CartStore.CartTotalNonNegative` | app.py:99-104 | With non-negative prices and positive quantities, the total is never negative. |
| `CartStore.CartTotalUpdate` | app.py:99-104 | Changing one entry changes the total by the difference of that entry's old and new line totals. |
| `CartStore.TotalAfterAdd` | app.py:62-66 | Adding an id once raises the total by that product's price if the id resolves, and leaves the total unchanged if it does not. |
| `CartStore.TotalOfSingleAdd` | app.py:96-104 | The empty cart totals 0. A cart holding one product once totals that product's price. |
| `CartStore.TotalOfThreeThreeFive` | app.py:99-104 | Over the catalog, the cart {3: 2, 5: 1} totals 797. |
| `CartStore.AddThreeThreeFive` | app.py:62-66 | Adding 3, 3 and 5 to a fresh cart and summarising it gives a total of 797. |
| `Query.StrLessTransitive` | app.py:80 | Python's string order is transitive. |
| `Query.StrLessTotal` | app.py:80 | Of two different strings, one is smaller than the other. |
| `Query.InsertDistinctIncreasing` | app.py:80 | Inserting a category into a strictly increasing list keeps it strictly increasing. |
| `Query.SortedDistinct` | app.py:80 | `sorted(set(xs))` holds exactly the strings of `xs`, strictly increasing. |
| `Query.CategoryOptions` | app.py:80 | The choices are "All" followed by every product category exactly once, in increasing order, and nothing else. |
| `Query.CategoryOptionsOfCatalog` | app.py:80 | For the catalog, the choices are All, Electronics, Fashion, Home & Kitchen. |
| `Query.CategoryFilter` | app.py:114-116 | "All" returns the input unchanged. Any other choice returns exactly the products of that category, each as often as in the input, as a subsequence of the input. |
| `Query.HomeAndKitchen` | app.py:115-116 | "Home & Kitchen" selects products 3 and 5, in that order. |
| `Query.Lower` | app.py:120 | Lower-casing keeps the length and leaves no upper-case ASCII letter. Each upper-case letter becomes its lower-case partner, and every other character is kept. |
| `Query.Contains` | app.py:123 | The empty string is in every string, and every string is in itself. A string is in a text only if it is no longer than the text. |
| `Query.ContainsIsSubstring` | app.py:123 | `q in text` holds exactly when some window of `text` equals `q`. |
| `Query.SearchFilter` | app.py:118-124 | An empty query returns the input unchanged. Otherwise the result is exactly the products whose lower-cased name or description contains the lower-cased query, in input order, as a subsequence. |
| `Query.SortProducts` | app.py:126-133 | The result is a permutation of the input. "Relevance" keeps the order. Price ascending is non-decreasing, and price and rating descending are non-increasing. Equal keys keep their input order. |
| `Query.RunQuery` | app.py:112-133 | The pipeline returns each product as often as the catalog holds it if it passes the category choice and the search, and never otherwise. With "All", no search text and "Relevance", it returns the catalog unchanged. Under "Relevance" the result keeps catalog order (it is a subsequence of the catalog). Under a sort option, the products sharing one key value appear in catalog order. |
| `Query.QueryIdentity` | app.py:112-133 | With "All", no search text and "Relevance", the catalog comes back unchanged. |
| `Query.QueryMembers` | app.py:112-133 | A product is in the result exactly when it is in the catalog and passes both filters. |
| `Query.QueryFromCatalog` | app.py:112-133 | The result holds each product no more often than the catalog does. |
| `Query.ByRating` | app.py:131-132 | Sorting the catalog by rating, high to low, gives ids 2, 4, 1, 3, 5. |
| `StableSort.SortBy` | app.py:128-132 | The insertion sort that models `sorted` returns as many elements as it was given. Its other properties are the lemmas below. |
| `StableSort.SortByPermutes` | app.py:128 | The stable sort returns a permutation of its input. |
| `StableSort.SortByOrdered` | app.py:128 | The stable sort returns keys that never decrease. |
| `StableSort.SortByStable` | app.py:128 | For every key value, the elements with that key appear in the same relative order as in the input. |
| `StableSort.InsertSameKey` | app.py:128 | An inserted element goes before every element with the same key. |
| `StableSort.WithKeyIsSubsequence` | app.py:128-132 | The elements with one key value, in their order, form a subsequence of the sequence. |
| `StableSort.SortByIsStableSort` | app.py:128-132 | The sort's result is a stable sort of its input: a permutation, ordered by the key, with each key's elements in input order. |
| `Sequences.Filter` | app.py:116 | A comprehension never returns more elements than its input. |
| `Sequences.FilterCounts` | app.py:116 | A comprehension keeps exactly the elements that satisfy the condition, each as often as in the input. |
| `Sequences.FilterSnoc` | app.py:116 | Filtering a sequence with one more element at the end gives the filtered front, followed by that element if it satisfies the condition. |
| `Sequences.SubsequenceTransitive` | app.py:112-124 | A subsequence of a subsequence is a subsequence, so the two filter stages together keep catalog order. |
| `Sequences.FilterIsSubsequence` | app.py:116 | A comprehension's result is a subsequence of its input, so input order is kept. |

## Left out

- Every Streamlit call is left out: page setup, title, sidebar widgets, select boxes, text input, buttons, columns, markdown, captions and success messages. They are rendering through a library outside this model. The selections arrive as plain parameters.
- `st.session_state` is left out. The cart is an explicit `Cart` object, created empty as a new session's cart is.
- The currency formatting of prices and totals (`₹`, f-strings) is presentation only.
- The three-per-row product grid is rendering layout.
- The sort selector's entries are the datatype `SortOption`. Python compares strings and treats any other string as "Relevance", but the select box offers only these four.
- SortBy: its own contract states only the length; the permutation, order and stability are stated by `SortByPermutes`, `SortByOrdered` and `SortByStable`, because those quantified facts in the function's contract make every proof that unfolds the sort too costly.
- Query.Lower: models only ASCII lower-casing, not the full Unicode case mapping of `str.lower()`.
- Ratings are integer tenths, not IEEE floating point. Only their order is used.
- Python integers are unbounded, and so are the model's, so there is no overflow to model.
