/** The marketplace page: the product search, the three sort orders and the
    featured categories with their item counts. */
module Marketplace {
  import opened Schema
  import opened Strings
  import Seqs

  /** The search test: the lower-cased term occurs in the lower-cased title
      or, when there is one, the lower-cased description. */
  predicate MatchesSearch(p: Product, term: string) {
    Contains(ToLower(p.title), ToLower(term)) ||
    (p.description.Some? && Contains(ToLower(p.description.value), ToLower(term)))
  }

  /** No category selected matches every product. */
  predicate MatchesCategory(p: Product, category: string) {
    category == [] || p.category == category
  }

  predicate Listed(p: Product, term: string, category: string) {
    MatchesSearch(p, term) && MatchesCategory(p, category)
  }

  /** The products the page lists for a search term and a category. */
  function FilterProducts(products: seq<Product>, term: string, category: string): (r: seq<Product>)
    ensures forall p :: p in r <==> p in products && MatchesSearch(p, term) && MatchesCategory(p, category)
    ensures Seqs.IsSubsequence(r, products)
  {
    Seqs.Filter(products, (p: Product) => Listed(p, term, category))
  }

  /** A listed product appears as often as it occurs in the input; any
      other product not at all. */
  lemma FilterProductsCount(products: seq<Product>, term: string, category: string, p: Product)
    ensures multiset(FilterProducts(products, term, category))[p] ==
      if Listed(p, term, category) then multiset(products)[p] else 0
  {
    Seqs.FilterCount(products, (q: Product) => Listed(q, term, category), p);
  }

  /** With no search term and no category every product is listed, in
      order, since the empty term occurs in every title. */
  lemma NoFilterListsAll(products: seq<Product>)
    ensures FilterProducts(products, "", "") == products
  {
    forall i | 0 <= i < |products| ensures Listed(products[i], "", "") {
      var t := ToLower(products[i].title);
      assert ToLower("") == "";
      assert OccursAt(t, "", 0);
    }
  }

  /** The number a product is ordered by under `sortBy`, ascending: the
      price for "price-low", the negated price for "price-high", and the
      negated creation time (a missing one reads as time 0) otherwise. */
  function SortKey(sortBy: string, p: Product): int {
    if sortBy == "price-low" then p.price
    else if sortBy == "price-high" then -p.price
    else -OrDefault(p.createdAt, 0)
  }

  function KeyFor(sortBy: string): Product -> int {
    (p: Product) => SortKey(sortBy, p)
  }

  /** Keys never decrease from one element to the next. */
  ghost predicate SortedBy(s: seq<Product>, key: Product -> int) {
    forall i :: 0 < i < |s| ==> key(s[i - 1]) <= key(s[i])
  }

  /** Non-decreasing neighbours make the whole sequence non-decreasing. */
  lemma {:induction false} SortedByAllPairs(s: seq<Product>, key: Product -> int)
    requires SortedBy(s, key)
    ensures forall i, j :: 0 <= i < j < |s| ==> key(s[i]) <= key(s[j])
  {
    if |s| > 1 {
      SortedByAllPairs(s[1..], key);
      assert forall j :: 1 <= j < |s| ==> key(s[1]) <= key(s[j]) by {
        assert forall j :: 1 <= j < |s| ==> s[j] == s[1..][j - 1];
      }
    }
  }

  /** Places x in the sorted s before the first element whose key is not
      below its own. */
  function Insert(x: Product, s: seq<Product>, key: Product -> int): (r: seq<Product>)
    requires SortedBy(s, key)
    ensures |r| == |s| + 1
    ensures r[0] == x || (s != [] && r[0] == s[0])
    ensures SortedBy(r, key)
    ensures multiset(r) == multiset(s) + multiset{x}
  {
    if s == [] || key(x) <= key(s[0]) then [x] + s
    else
      var t := Insert(x, s[1..], key);
      assert s == [s[0]] + s[1..];
      [s[0]] + t
  }

  /** The elements of s whose key is v, in order. */
  function WithKey(s: seq<Product>, key: Product -> int, v: int): (r: seq<Product>) {
    Seqs.Filter(s, (p: Product) => key(p) == v)
  }

  lemma WithKeyCons(a: Product, s: seq<Product>, key: Product -> int, v: int)
    ensures WithKey([a] + s, key, v) == (if key(a) == v then [a] else []) + WithKey(s, key, v)
  {
    assert ([a] + s)[1..] == s;
  }

  /** Inserting x keeps every group of equal keys in the order it would
      have with x simply put in front. */
  lemma {:induction false} InsertKeepsGroups(x: Product, s: seq<Product>, key: Product -> int, v: int)
    requires SortedBy(s, key)
    ensures WithKey(Insert(x, s, key), key, v) == WithKey([x] + s, key, v)
  {
    if s != [] && key(x) > key(s[0]) {
      var t := s[1..];
      assert s == [s[0]] + t;
      InsertKeepsGroups(x, t, key, v);
      WithKeyCons(s[0], Insert(x, t, key), key, v);
      WithKeyCons(x, t, key, v);
      WithKeyCons(x, s, key, v);
      WithKeyCons(s[0], t, key, v);
    }
  }

  /** A stable sort by key. */
  function SortBy(s: seq<Product>, key: Product -> int): (r: seq<Product>)
    ensures |r| == |s|
    ensures SortedBy(r, key)
    ensures multiset(r) == multiset(s)
  {
    if s == [] then []
    else
      assert s == [s[0]] + s[1..];
      Insert(s[0], SortBy(s[1..], key), key)
  }

  /** The sort is stable: the elements sharing any one key keep their
      relative order. */
  lemma {:induction false} SortByStable(s: seq<Product>, key: Product -> int, v: int)
    ensures WithKey(SortBy(s, key), key, v) == WithKey(s, key, v)
  {
    if s != [] {
      var t := SortBy(s[1..], key);
      SortByStable(s[1..], key, v);
      InsertKeepsGroups(s[0], t, key, v);
      WithKeyCons(s[0], t, key, v);
      WithKeyCons(s[0], s[1..], key, v);
      assert s == [s[0]] + s[1..];
    }
  }

  /** The listed products in the order `sortBy` asks for; the listed
      sequence itself is not reordered. */
  function SortedProducts(listed: seq<Product>, sortBy: string): (r: seq<Product>)
    ensures multiset(r) == multiset(listed)
    ensures sortBy == "price-low" ==> forall i, j :: 0 <= i < j < |r| ==> r[i].price <= r[j].price
    ensures sortBy == "price-high" ==> forall i, j :: 0 <= i < j < |r| ==> r[i].price >= r[j].price
    ensures sortBy != "price-low" && sortBy != "price-high" ==>
      forall i, j :: 0 <= i < j < |r| ==> OrDefault(r[i].createdAt, 0) >= OrDefault(r[j].createdAt, 0)
  {
    var key := KeyFor(sortBy);
    var r := SortBy(listed, key);
    SortedByAllPairs(r, key);
    r
  }

  /** Products that tie under `sortBy` stay in their listed order, as the
      built-in sort, which is stable, keeps them. */
  lemma SortedProductsStable(listed: seq<Product>, sortBy: string, v: int)
    ensures WithKey(SortedProducts(listed, sortBy), KeyFor(sortBy), v) == WithKey(listed, KeyFor(sortBy), v)
  {
    SortByStable(listed, KeyFor(sortBy), v);
  }

  /** Each product category once, in order of first appearance. */
  function ProductCategories(products: seq<Product>): (r: seq<string>)
    ensures Seqs.Distinct(r)
    ensures forall c :: c in r <==> c in CategoryColumn(products)
    ensures forall i, j :: 0 <= i < j < |r| ==>
      Seqs.FirstIndex(CategoryColumn(products), r[i]) < Seqs.FirstIndex(CategoryColumn(products), r[j])
  {
    Seqs.Dedup(CategoryColumn(products))
  }

  /** The category of each product, in order. */
  function CategoryColumn(products: seq<Product>): (r: seq<string>)
    ensures |r| == |products|
    ensures forall i :: 0 <= i < |products| ==> r[i] == products[i].category
  {
    Seqs.MapSeq(products, (p: Product) => p.category)
  }

  /** The categories featured at the top of the page: the first four. */
  function FeaturedCategories(products: seq<Product>): (r: seq<string>)
    ensures |r| <= 4 && |r| <= |ProductCategories(products)|
    ensures Seqs.Distinct(r)
    ensures forall k :: 0 <= k < |r| ==> r[k] == ProductCategories(products)[k]
    ensures |ProductCategories(products)| >= 4 ==> |r| == 4
  {
    var cs := ProductCategories(products);
    if |cs| <= 4 then cs else cs[..4]
  }

  /** The item count shown under a featured category. */
  function CategoryCount(products: seq<Product>, c: string): (n: nat)
    ensures n <= |products|
  {
    |Seqs.Filter(products, (p: Product) => p.category == c)|
  }

  /** The count is the number of occurrences of the category. */
  lemma {:induction false} CategoryCountOccurrences(products: seq<Product>, c: string)
    ensures CategoryCount(products, c) == multiset(CategoryColumn(products))[c]
  {
    if products != [] {
      CategoryCountOccurrences(products[1..], c);
      var col := CategoryColumn(products);
      assert col == [products[0].category] + CategoryColumn(products[1..]);
    }
  }

  /** A listed category has a positive count. */
  lemma ListedCategoryCounted(products: seq<Product>, c: string)
    requires c in ProductCategories(products)
    ensures CategoryCount(products, c) > 0
  {
    CategoryCountOccurrences(products, c);
  }

  /** The sum of the counts of the categories in cs. */
  function SumCounts(products: seq<Product>, cs: seq<string>): nat {
    if cs == [] then 0 else CategoryCount(products, cs[0]) + SumCounts(products, cs[1..])
  }

  lemma {:induction false} SumCountsOccurrences(products: seq<Product>, cs: seq<string>)
    ensures SumCounts(products, cs) == Seqs.SumOccurrences(cs, CategoryColumn(products))
  {
    if cs != [] {
      SumCountsOccurrences(products, cs[1..]);
      CategoryCountOccurrences(products, cs[0]);
    }
  }

  /** The counts of all categories add up to the number of products: every
      product is counted under exactly one listed category. */
  lemma CountsCoverProducts(products: seq<Product>)
    ensures SumCounts(products, ProductCategories(products)) == |products|
  {
    var cs := ProductCategories(products);
    SumCountsOccurrences(products, cs);
    Seqs.SumOccurrencesPartition(cs, CategoryColumn(products));
  }
}
