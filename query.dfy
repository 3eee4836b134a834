/** The catalog query pipeline of the storefront: the category choices
    offered, the category filter, the text search and the sort, applied in
    that order to the catalog. Everything here is a pure function of its
    inputs; the catalog itself is never changed. */
module Query {
  import opened Sequences
  import opened StableSort
  import opened Catalog

  /** The category choice that disables the category filter. */
  const All: string := "All"

  // ---------- string order ----------

  /** Python's `<` on strings: lexicographic by code point, a proper prefix
      sorting first. */
  predicate StrLess(a: string, b: string)
  {
    if a == [] then b != []
    else if b == [] then false
    else if a[0] != b[0] then a[0] < b[0]
    else StrLess(a[1..], b[1..])
  }

  lemma {:induction false} StrLessIrreflexive(a: string)
    ensures !StrLess(a, a)
  {
    if a != [] {
      StrLessIrreflexive(a[1..]);
    }
  }

  lemma {:induction false} StrLessTransitive(a: string, b: string, c: string)
    requires StrLess(a, b) && StrLess(b, c)
    ensures StrLess(a, c)
  {
    if a != [] && a[0] == b[0] && b[0] == c[0] {
      StrLessTransitive(a[1..], b[1..], c[1..]);
    }
  }

  lemma {:induction false} StrLessTotal(a: string, b: string)
    requires a != b
    ensures StrLess(a, b) || StrLess(b, a)
  {
    if a != [] && b != [] && a[0] == b[0] {
      assert a == [a[0]] + a[1..] && b == [b[0]] + b[1..];
      StrLessTotal(a[1..], b[1..]);
    }
  }

  /** Each string is strictly smaller than every later one. */
  predicate StrictlyIncreasing(s: seq<string>)
  {
    forall i, j :: 0 <= i < j < |s| ==> StrLess(s[i], s[j])
  }

  // ---------- category options ----------

  /** Inserts `x` into an increasing list unless it is already there. */
  function InsertDistinct(t: seq<string>, x: string): (r: seq<string>)
    ensures forall y :: y in r <==> y in t || y == x
  {
    if t == [] then [x]
    else if x == t[0] then t
    else if StrLess(x, t[0]) then [x] + t
    else [t[0]] + InsertDistinct(t[1..], x)
  }

  lemma {:induction false} InsertDistinctIncreasing(t: seq<string>, x: string)
    requires StrictlyIncreasing(t)
    ensures StrictlyIncreasing(InsertDistinct(t, x))
  {
    var r := InsertDistinct(t, x);
    if t == [] || x == t[0] {
    } else if StrLess(x, t[0]) {
      forall j | 1 <= j < |r| ensures StrLess(x, r[j]) {
        assert r[j] == t[j - 1];
        if j > 1 {
          StrLessTransitive(x, t[0], t[j - 1]);
        }
      }
    } else {
      var rest := InsertDistinct(t[1..], x);
      InsertDistinctIncreasing(t[1..], x);
      StrLessTotal(x, t[0]);
      forall j | 0 <= j < |rest| ensures StrLess(t[0], rest[j]) {
        assert rest[j] in rest;
        if rest[j] != x {
          var k :| 0 <= k < |t[1..]| && t[1..][k] == rest[j];
          assert t[k + 1] == rest[j];
        }
      }
      forall i, j | 0 <= i < j < |r| ensures StrLess(r[i], r[j]) {
        assert r[j] == rest[j - 1];
        if i > 0 {
          assert r[i] == rest[i - 1];
        }
      }
    }
  }

  /** The distinct strings of `xs` in increasing order: Python's
      `sorted(set(xs))`. */
  function SortedDistinct(xs: seq<string>): (r: seq<string>)
    ensures forall y :: y in r <==> y in xs
    ensures StrictlyIncreasing(r)
  {
    if xs == [] then []
    else
      var front := SortedDistinct(xs[..|xs| - 1]);
      assert xs == xs[..|xs| - 1] + [xs[|xs| - 1]];
      InsertDistinctIncreasing(front, xs[|xs| - 1]);
      InsertDistinct(front, xs[|xs| - 1])
  }

  function Categories(products: seq<Product>): seq<string>
  {
    seq(|products|, i requires 0 <= i < |products| => products[i].category)
  }

  /** The category choices: "All", then every category of the catalog once,
      in increasing order. */
  function CategoryOptions(products: seq<Product>): (r: seq<string>)
    ensures |r| >= 1 && r[0] == All
    ensures StrictlyIncreasing(r[1..])
    ensures forall i, j :: 1 <= i < j < |r| ==> r[i] != r[j]
    ensures forall c :: c in r[1..] <==> exists i :: 0 <= i < |products| && products[i].category == c
  {
    var sorted := SortedDistinct(Categories(products));
    assert forall c :: c in Categories(products) <==>
      exists i :: 0 <= i < |products| && products[i].category == c by {
      forall c | c in Categories(products)
        ensures exists i :: 0 <= i < |products| && products[i].category == c
      {
        var i :| 0 <= i < |Categories(products)| && Categories(products)[i] == c;
        assert products[i].category == c;
      }
      forall c | exists i :: 0 <= i < |products| && products[i].category == c
        ensures c in Categories(products)
      {
        var i :| 0 <= i < |products| && products[i].category == c;
        assert Categories(products)[i] == c;
      }
    }
    forall i, j | 0 <= i < j < |sorted| ensures sorted[i] != sorted[j] {
      if sorted[i] == sorted[j] {
        StrLessIrreflexive(sorted[i]);
      }
    }
    assert ([All] + sorted)[1..] == sorted;
    [All] + sorted
  }

  // ---------- text search ----------

  /** ASCII lower-casing of one character. */
  function LowerChar(c: char): char
  {
    if 'A' <= c <= 'Z' then (c as int + 32) as char else c
  }

  /** ASCII lower-casing: no upper-case letter is left, each one becomes its
      lower-case partner, and every other character is kept. */
  function Lower(s: string): (r: string)
    ensures |r| == |s|
    ensures forall i :: 0 <= i < |r| ==> !('A' <= r[i] <= 'Z')
    ensures forall i :: 0 <= i < |s| && 'A' <= s[i] <= 'Z' ==> r[i] as int == s[i] as int - 'A' as int + 'a' as int
    ensures forall i :: 0 <= i < |s| && !('A' <= s[i] <= 'Z') ==> r[i] == s[i]
  {
    seq(|s|, i requires 0 <= i < |s| => LowerChar(s[i]))
  }

  /** Python's `needle in text` on strings. */
  predicate Contains(text: string, needle: string)
    ensures needle == [] ==> Contains(text, needle)
    ensures Contains(text, needle) ==> |needle| <= |text|
    ensures needle == text ==> Contains(text, needle)
  {
    needle <= text || (text != [] && Contains(text[1..], needle))
  }

  /** `needle` occupies `text` from position `i` on. */
  predicate OccursAt(text: string, needle: string, i: int)
  {
    0 <= i && i + |needle| <= |text| && text[i..i + |needle|] == needle
  }

  /** `Contains` is the substring relation: some window of `text` equals `needle`. */
  lemma {:induction false} ContainsIsSubstring(text: string, needle: string)
    ensures Contains(text, needle) <==> exists i :: OccursAt(text, needle, i)
  {
    if needle <= text {
      assert OccursAt(text, needle, 0);
    }
    if text != [] {
      ContainsIsSubstring(text[1..], needle);
      if exists i :: OccursAt(text[1..], needle, i) {
        var i :| OccursAt(text[1..], needle, i);
        assert text[1..][i..i + |needle|] == text[i + 1..i + 1 + |needle|];
        assert OccursAt(text, needle, i + 1);
      }
      if exists i :: OccursAt(text, needle, i) {
        var i :| OccursAt(text, needle, i);
        if i == 0 {
          assert needle <= text;
        } else {
          assert text[1..][i - 1..i - 1 + |needle|] == text[i..i + |needle|];
          assert OccursAt(text[1..], needle, i - 1);
        }
      }
    } else if exists i :: OccursAt(text, needle, i) {
      assert needle == [];
    }
  }

  /** A product matches a lower-cased query when the query occurs in its
      lower-cased name or its lower-cased description. */
  predicate SearchMatches(p: Product, q: string)
  {
    Contains(Lower(p.name), q) || Contains(Lower(p.description), q)
  }

  // ---------- the pipeline stages ----------

  /** "All" keeps the catalog as it is; any other choice keeps exactly the
      products of that category, in catalog order. */
  function CategoryFilter(products: seq<Product>, category: string): (r: seq<Product>)
    ensures category == All ==> r == products
    ensures IsSubsequence(r, products)
    ensures category != All ==> forall p :: p in r <==> p in products && p.category == category
    ensures category != All ==> forall p ::
      multiset(r)[p] == if p.category == category then multiset(products)[p] else 0
  {
    if category == All then
      SubsequenceOfItself(products);
      products
    else
      var keep := (p: Product) => p.category == category;
      FilterCounts(products, keep);
      FilterIsSubsequence(products, keep);
      Filter(products, keep)
  }

  /** An empty query keeps its input as it is; otherwise the products whose
      lower-cased name or description contains the lower-cased query are
      kept, in input order. */
  function SearchFilter(products: seq<Product>, query: string): (r: seq<Product>)
    ensures query == [] ==> r == products
    ensures IsSubsequence(r, products)
    ensures query != [] ==> forall p :: p in r <==> p in products && SearchMatches(p, Lower(query))
    ensures query != [] ==> forall p ::
      multiset(r)[p] == if SearchMatches(p, Lower(query)) then multiset(products)[p] else 0
  {
    if query == [] then
      SubsequenceOfItself(products);
      products
    else
      var q := Lower(query);
      var keep := (p: Product) => SearchMatches(p, q);
      FilterCounts(products, keep);
      FilterIsSubsequence(products, keep);
      Filter(products, keep)
  }

  /** The four entries of the sort selector. */
  datatype SortOption = Relevance | PriceLowToHigh | PriceHighToLow | RatingHighToLow

  /** The ascending sort key each non-Relevance option amounts to; a
      descending order is an ascending one on the negated key. */
  function SortKey(option: SortOption): Product -> int
  {
    match option
    case Relevance => (_: Product) => 0  // never sorted by
    case PriceLowToHigh => (p: Product) => p.price
    case PriceHighToLow => (p: Product) => -p.price
    case RatingHighToLow => (p: Product) => -p.rating
  }

  /** Orders the products as the selected option asks; "Relevance" keeps the
      input order. Every other option is a stable sort: a permutation of its
      input, ordered by the key, and products with equal keys in input order. */
  function SortProducts(products: seq<Product>, option: SortOption): (r: seq<Product>)
    ensures multiset(r) == multiset(products)
    ensures option == Relevance ==> r == products
    ensures option == PriceLowToHigh ==> forall i :: 0 <= i < |r| - 1 ==> r[i].price <= r[i + 1].price
    ensures option == PriceHighToLow ==> forall i :: 0 <= i < |r| - 1 ==> r[i].price >= r[i + 1].price
    ensures option == RatingHighToLow ==> forall i :: 0 <= i < |r| - 1 ==> r[i].rating >= r[i + 1].rating
    ensures option != Relevance ==> forall k ::
      WithKey(r, SortKey(option), k) == WithKey(products, SortKey(option), k)
  {
    if option == Relevance then products
    else
      SortByIsStableSort(products, SortKey(option));
      var r := SortBy(products, SortKey(option));
      assert forall i :: 0 <= i < |r| - 1 ==> SortKey(option)(r[i]) <= SortKey(option)(r[i + 1]);
      r
  }

  /** The whole pipeline: category filter, then search, then sort. */
  function RunQuery(products: seq<Product>, category: string, search: string, option: SortOption): (r: seq<Product>)
    ensures forall p :: multiset(r)[p] == if Selected(p, category, search) then multiset(products)[p] else 0
    ensures category == All && search == [] && option == Relevance ==> r == products
    ensures option == Relevance ==> IsSubsequence(r, products)
    ensures option != Relevance ==> forall k :: IsSubsequence(WithKey(r, SortKey(option), k), products)
  {
    var byCategory := CategoryFilter(products, category);
    var filtered := SearchFilter(byCategory, search);
    SubsequenceTransitive(filtered, byCategory, products);
    var r := SortProducts(filtered, option);
    forall k | option != Relevance ensures IsSubsequence(WithKey(r, SortKey(option), k), products) {
      WithKeyIsSubsequence(filtered, SortKey(option), k);
      SubsequenceTransitive(WithKey(filtered, SortKey(option), k), filtered, products);
    }
    r
  }

  /** Whether a product passes the category choice and the search text. */
  predicate Selected(p: Product, category: string, search: string)
  {
    && (category == All || p.category == category)
    && (search == [] || SearchMatches(p, Lower(search)))
  }

  // ---------- properties of the pipeline ----------

  /** With no category, no search text and "Relevance" the catalog comes back unchanged. */
  lemma QueryIdentity(products: seq<Product>)
    ensures RunQuery(products, All, "", Relevance) == products
  {
  }

  /** A product is in the result exactly when it is in the catalog and
      passes both filters. */
  lemma QueryMembers(products: seq<Product>, category: string, search: string, option: SortOption, p: Product)
    ensures p in RunQuery(products, category, search, option) <==>
      && p in products
      && (category == All || p.category == category)
      && (search == [] || SearchMatches(p, Lower(search)))
  {
    var filtered := SearchFilter(CategoryFilter(products, category), search);
    var r := SortProducts(filtered, option);
    assert p in r <==> p in multiset(r);
    assert p in filtered <==> p in multiset(filtered);
  }

  /** The result holds each product no more often than the catalog does, so
      every returned product comes from the catalog. */
  lemma QueryFromCatalog(products: seq<Product>, category: string, search: string, option: SortOption)
    ensures multiset(RunQuery(products, category, search, option)) <= multiset(products)
  {
    var byCategory := CategoryFilter(products, category);
    var bySearch := SearchFilter(byCategory, search);
    assert multiset(byCategory) <= multiset(products);
    assert multiset(bySearch) <= multiset(byCategory);
  }

  // ---------- the storefront's own catalog ----------

  lemma CategoryOptionsOfCatalog()
    ensures CategoryOptions(Products) == ["All", "Electronics", "Fashion", "Home & Kitchen"]
  {
    var cats := Categories(Products);
    assert cats == ["Electronics", "Electronics", "Home & Kitchen", "Fashion", "Home & Kitchen"];
    assert cats[..4][..3] == cats[..3] && cats[..3][..2] == cats[..2] && cats[..2][..1] == cats[..1];
    assert SortedDistinct(cats[..1]) == ["Electronics"];
    assert SortedDistinct(cats[..2]) == ["Electronics"];
    assert !StrLess("Home & Kitchen", "Electronics");
    assert InsertDistinct(["Electronics"], "Home & Kitchen") == ["Electronics", "Home & Kitchen"];
    assert SortedDistinct(cats[..3]) == ["Electronics", "Home & Kitchen"];
    assert !StrLess("Fashion", "Electronics") && StrLess("Fashion", "Home & Kitchen");
    assert InsertDistinct(["Home & Kitchen"], "Fashion") == ["Fashion", "Home & Kitchen"];
    assert InsertDistinct(["Electronics", "Home & Kitchen"], "Fashion")
        == ["Electronics", "Fashion", "Home & Kitchen"];
    assert SortedDistinct(cats[..4]) == ["Electronics", "Fashion", "Home & Kitchen"];
    assert !StrLess("Home & Kitchen", "Fashion");
    assert InsertDistinct(["Home & Kitchen"], "Home & Kitchen") == ["Home & Kitchen"];
    assert InsertDistinct(["Fashion", "Home & Kitchen"], "Home & Kitchen") == ["Fashion", "Home & Kitchen"];
    assert SortedDistinct(cats) == ["Electronics", "Fashion", "Home & Kitchen"];
  }

  lemma HomeAndKitchen()
    ensures CategoryFilter(Products, "Home & Kitchen") == [Products[2], Products[4]]
  {
  }

  /** The insertion steps of sorting five products whose keys are those
      of the catalog's negated ratings. */
  lemma {:induction false} SortFiveByRating(p1: Product, p2: Product, p3: Product, p4: Product, p5: Product, key: Product -> int)
    requires key(p1) == -43 && key(p2) == -47 && key(p3) == -41 && key(p4) == -45 && key(p5) == -40
    ensures SortBy([p1, p2, p3, p4, p5], key) == [p2, p4, p1, p3, p5]
  {
    var s := [p1, p2, p3, p4, p5];
    assert s[4..] == [p5] && s[4..][1..] == [];
    assert s[3..] == [p4, p5] && s[3..][1..] == s[4..];
    assert s[2..] == [p3, p4, p5] && s[2..][1..] == s[3..];
    assert s[1..] == [p2, p3, p4, p5] && s[1..][1..] == s[2..];
    assert SortBy(s[4..], key) == [p5];
    assert SortBy(s[3..], key) == [p4, p5];
    assert Insert(p3, [p5], key) == [p3, p5];
    assert SortBy(s[2..], key) == [p4, p3, p5];
    assert SortBy(s[1..], key) == [p2, p4, p3, p5];
    assert Insert(p1, [p3, p5], key) == [p1, p3, p5];
    assert [p4, p3, p5][1..] == [p3, p5];
    assert Insert(p1, [p4, p3, p5], key) == [p4, p1, p3, p5];
    assert [p2, p4, p3, p5][1..] == [p4, p3, p5];
    assert Insert(p1, [p2, p4, p3, p5], key) == [p2, p4, p1, p3, p5];
  }

  /** Ratings 4.3, 4.7, 4.1, 4.5, 4.0 sort to ids 2, 4, 1, 3, 5. */
  lemma ByRating()
    ensures SortProducts(Products, RatingHighToLow) == [Products[1], Products[3], Products[0], Products[2], Products[4]]
  {
    SortFiveByRating(Products[0], Products[1], Products[2], Products[3], Products[4], SortKey(RatingHighToLow));
    assert Products == [Products[0], Products[1], Products[2], Products[3], Products[4]];
  }
}
