/** The browse page: four filter criteria combined with AND, a stable sort of
    a copy of the filtered list under one of four sort keys, and the brand
    checkbox toggle. */
module CategoriesPage {
  import opened Seqs
  import opened Text
  import opened Catalog

  /** The page's filter state cells; `priceRange` is the pair `[minPrice, maxPrice]`. */
  datatype Criteria = Criteria(
    category: string,
    query: string,
    minPrice: real,
    maxPrice: real,
    brands: seq<string>,
    sortBy: string)

  /** The state the page starts in. */
  const Initial: Criteria := Criteria("all", "", 0.0, 200.0, [], "popular")

  /** Inclusive at both ends. */
  predicate MatchesPrice(p: Product, c: Criteria)
  {
    p.price >= c.minPrice && p.price <= c.maxPrice
  }

  /** An empty selection disables the test; otherwise an exact, case-sensitive membership test. */
  predicate MatchesBrand(p: Product, c: Criteria)
  {
    |c.brands| == 0 || p.brand in c.brands
  }

  predicate Matches(p: Product, c: Criteria)
  {
    MatchesCategory(p, c.category) && MatchesSearch(p, c.query) && MatchesPrice(p, c) && MatchesBrand(p, c)
  }

  function Matcher(c: Criteria): Product -> bool
  {
    p => Matches(p, c)
  }

  /** `filteredProducts`: the catalog entries passing all four tests, in catalog order. */
  function FilteredProducts(catalog: seq<Product>, c: Criteria): (r: seq<Product>)
    ensures IsSubsequence(r, catalog)
    ensures forall p :: p in r <==>
      p in catalog && MatchesCategory(p, c.category) && MatchesSearch(p, c.query) &&
      c.minPrice <= p.price <= c.maxPrice && (|c.brands| == 0 || p.brand in c.brands)
    ensures forall p :: multiset(r)[p] == if Matches(p, c) then multiset(catalog)[p] else 0
  {
    Filter(catalog, Matcher(c))
  }

  /** With category "all", the empty query, a price range covering every catalog price and no
      brand selected, the filter keeps the whole catalog in catalog order. */
  lemma {:induction false} NeutralCriteriaKeepEverything(catalog: seq<Product>, c: Criteria)
    requires c.category == AllCategories && c.query == "" && c.brands == []
    requires forall i :: 0 <= i < |catalog| ==> c.minPrice <= catalog[i].price <= c.maxPrice
    ensures FilteredProducts(catalog, c) == catalog
  {
    forall i | 0 <= i < |catalog| ensures Matcher(c)(catalog[i]) {
      EmptyQueryMatchesEvery(catalog[i]);
    }
    FilterKeepsAll(catalog, Matcher(c));
  }

  // ----- Sorting -----

  /** The four orders of the sort menu; `ModeOf` maps the `sortBy` string, any unknown value to `Popular`. */
  datatype SortMode = PriceLow | PriceHigh | TopRated | Popular

  function ModeOf(sortBy: string): SortMode
  {
    if sortBy == "price-low" then PriceLow
    else if sortBy == "price-high" then PriceHigh
    else if sortBy == "rating" then TopRated
    else Popular
  }

  /** The page's comparator: a negative value puts `a` before `b`. */
  function Compare(m: SortMode, a: Product, b: Product): real
  {
    match m
    case PriceLow => a.price - b.price
    case PriceHigh => b.price - a.price
    case TopRated => b.rating - a.rating
    case Popular => (b.reviews - a.reviews) as real
  }

  /** The key the comparator orders by, ascending. */
  function Rank(m: SortMode, p: Product): real
  {
    match m
    case PriceLow => p.price
    case PriceHigh => -p.price
    case TopRated => -p.rating
    case Popular => -(p.reviews as real)
  }

  lemma CompareIsRankDifference(m: SortMode, a: Product, b: Product)
    ensures Compare(m, a, b) == Rank(m, a) - Rank(m, b)
  {
  }

  predicate Sorted(m: SortMode, s: seq<Product>)
  {
    forall i, j :: 0 <= i < j < |s| ==> Compare(m, s[i], s[j]) <= 0.0
  }

  /** Products whose sort key equals `k`. */
  function SameRank(m: SortMode, k: real): Product -> bool
  {
    p => Rank(m, p) == k
  }

  /** Inserts `x` before the first element that does not sort strictly before it. */
  function Insert(m: SortMode, x: Product, t: seq<Product>): seq<Product>
  {
    if t == [] || Compare(m, x, t[0]) <= 0.0 then [x] + t
    else [t[0]] + Insert(m, x, t[1..])
  }

  lemma {:induction false} InsertPermutes(m: SortMode, x: Product, t: seq<Product>)
    ensures multiset(Insert(m, x, t)) == multiset(t) + multiset{x}
  {
    if !(t == [] || Compare(m, x, t[0]) <= 0.0) {
      InsertPermutes(m, x, t[1..]);
      assert t == [t[0]] + t[1..];
    }
  }

  lemma {:induction false} InsertSorted(m: SortMode, x: Product, t: seq<Product>)
    requires Sorted(m, t)
    ensures Sorted(m, Insert(m, x, t))
  {
    if t == [] || Compare(m, x, t[0]) <= 0.0 {
      var r := [x] + t;
      forall i, j | 0 <= i < j < |r| ensures Compare(m, r[i], r[j]) <= 0.0 {
        if i == 0 {
          assert r[j] == t[j - 1];
          assert Compare(m, t[0], t[j - 1]) <= 0.0 || j == 1;
        } else {
          assert r[i] == t[i - 1] && r[j] == t[j - 1];
        }
      }
    } else {
      var rest := Insert(m, x, t[1..]);
      assert Sorted(m, t[1..]) by {
        forall i, j | 0 <= i < j < |t[1..]| ensures Compare(m, t[1..][i], t[1..][j]) <= 0.0 {
          assert t[1..][i] == t[i + 1] && t[1..][j] == t[j + 1];
        }
      }
      InsertSorted(m, x, t[1..]);
      InsertPermutes(m, x, t[1..]);
      var r := [t[0]] + rest;
      forall i, j | 0 <= i < j < |r| ensures Compare(m, r[i], r[j]) <= 0.0 {
        if i == 0 {
          var y := rest[j - 1];
          assert r[j] == y;
          assert y in multiset(rest);
          assert y == x || y in t[1..];
          if y != x {
            var k :| 0 <= k < |t[1..]| && t[1..][k] == y;
            assert t[k + 1] == y;
          }
        } else {
          assert r[i] == rest[i - 1] && r[j] == rest[j - 1];
        }
      }
    }
  }

  /** Inserting `x` changes the elements of key `k` only by putting `x` first among them. */
  lemma {:induction false} InsertTier(m: SortMode, x: Product, t: seq<Product>, k: real)
    ensures Filter(Insert(m, x, t), SameRank(m, k)) == Filter([x] + t, SameRank(m, k))
  {
    var q := SameRank(m, k);
    if !(t == [] || Compare(m, x, t[0]) <= 0.0) {
      var rest := Insert(m, x, t[1..]);
      assert Insert(m, x, t) == [t[0]] + rest;
      assert t == [t[0]] + t[1..];
      CompareIsRankDifference(m, x, t[0]);
      assert !(q(x) && q(t[0]));
      InsertTier(m, x, t[1..], k);
      FilterCons(t[0], rest, q);
      FilterCons(x, t[1..], q);
      FilterCons(t[0], t[1..], q);
      FilterCons(x, t, q);
    }
  }

  /** The stable sort the page applies to a copy of the filtered list. */
  function Sort(m: SortMode, s: seq<Product>): (r: seq<Product>)
    ensures multiset(r) == multiset(s)
    ensures Sorted(m, r)
  {
    if s == [] then []
    else
      var rest := Sort(m, s[1..]);
      InsertPermutes(m, s[0], rest);
      InsertSorted(m, s[0], rest);
      assert s == [s[0]] + s[1..];
      Insert(m, s[0], rest)
  }

  /** Stability: for every key value, the products with that key keep their relative order. */
  lemma {:induction false} SortIsStable(m: SortMode, s: seq<Product>, k: real)
    ensures Filter(Sort(m, s), SameRank(m, k)) == Filter(s, SameRank(m, k))
  {
    if s != [] {
      var q := SameRank(m, k);
      SortIsStable(m, s[1..], k);
      InsertTier(m, s[0], Sort(m, s[1..]), k);
      FilterConcat([s[0]], Sort(m, s[1..]), q);
      FilterConcat([s[0]], s[1..], q);
      assert s == [s[0]] + s[1..];
    }
  }

  /** `sortedProducts`: the filtered list in the order chosen by `sortBy`. */
  function SortedProducts(catalog: seq<Product>, c: Criteria): seq<Product>
  {
    Sort(ModeOf(c.sortBy), FilteredProducts(catalog, c))
  }

  /** What the product grid shows: exactly the matching products, each as often as in the
      catalog, ordered by the chosen key, equal keys in catalog order; the catalog is a value
      and is left as it was. */
  lemma {:induction false} SortedProductsSpec(catalog: seq<Product>, c: Criteria)
    ensures multiset(SortedProducts(catalog, c)) == multiset(FilteredProducts(catalog, c))
    ensures forall p :: p in SortedProducts(catalog, c) <==> p in catalog && Matches(p, c)
    ensures Sorted(ModeOf(c.sortBy), SortedProducts(catalog, c))
    ensures forall k :: Filter(SortedProducts(catalog, c), SameRank(ModeOf(c.sortBy), k)) ==
                        Filter(FilteredProducts(catalog, c), SameRank(ModeOf(c.sortBy), k))
  {
    var r := SortedProducts(catalog, c);
    var f := FilteredProducts(catalog, c);
    forall p ensures p in r <==> p in catalog && Matches(p, c) {
      assert p in r <==> p in multiset(r);
      assert p in f <==> p in multiset(f);
    }
    forall k ensures Filter(r, SameRank(ModeOf(c.sortBy), k)) == Filter(f, SameRank(ModeOf(c.sortBy), k)) {
      SortIsStable(ModeOf(c.sortBy), f, k);
    }
  }

  /** The order each sort key gives, stated with the product fields. */
  lemma SortOrderByKey(catalog: seq<Product>, c: Criteria, i: int, j: int)
    requires 0 <= i < j < |SortedProducts(catalog, c)|
    ensures var r := SortedProducts(catalog, c);
      && (c.sortBy == "price-low" ==> r[i].price <= r[j].price)
      && (c.sortBy == "price-high" ==> r[i].price >= r[j].price)
      && (c.sortBy == "rating" ==> r[i].rating >= r[j].rating)
      && (c.sortBy !in {"price-low", "price-high", "rating"} ==> r[i].reviews >= r[j].reviews)
  {
  }

  // ----- Brand selection -----

  function Without(brands: seq<string>, brand: string): seq<string>
  {
    Filter(brands, b => b != brand)
  }

  /** `toggleBrand`: removes every occurrence of a selected brand, appends an absent one. */
  function ToggleBrand(prev: seq<string>, brand: string): (r: seq<string>)
    ensures brand in r <==> brand !in prev
    ensures forall b :: b != brand ==> (b in r <==> b in prev)
    ensures brand !in prev ==> r == prev + [brand]
  {
    if brand in prev then Without(prev, brand) else prev + [brand]
  }

  /** Toggling an absent brand twice gives back the original selection. */
  lemma {:induction false} ToggleAbsentTwice(prev: seq<string>, brand: string)
    requires brand !in prev
    ensures ToggleBrand(ToggleBrand(prev, brand), brand) == prev
  {
    var p := b => b != brand;
    FilterConcat(prev, [brand], p);
    FilterKeepsAll(prev, p);
    assert Filter([brand], p) == [];
  }

  lemma {:induction false} ToggleKeepsNoDuplicates(prev: seq<string>, brand: string)
    requires NoDuplicates(prev)
    ensures NoDuplicates(ToggleBrand(prev, brand))
  {
    if brand in prev {
      FilterNoDuplicates(prev, b => b != brand);
    } else {
      var r := prev + [brand];
      forall i, j | 0 <= i < j < |r| ensures r[i] != r[j] {
        assert r[i] == prev[i];
        if j < |prev| { assert r[j] == prev[j]; }
      }
    }
  }

  /** The selection after the user clicks the brand checkboxes `clicks`, in order, from `start`. */
  function AfterClicks(start: seq<string>, clicks: seq<string>): seq<string>
    decreases |clicks|
  {
    if clicks == [] then start
    else AfterClicks(ToggleBrand(start, clicks[0]), clicks[1..])
  }

  /** Starting from the initial empty selection, no click sequence ever selects a brand twice. */
  lemma {:induction false} SelectionNeverDuplicates(start: seq<string>, clicks: seq<string>)
    requires NoDuplicates(start)
    ensures NoDuplicates(AfterClicks(start, clicks))
    decreases |clicks|
  {
    if clicks != [] {
      ToggleKeepsNoDuplicates(start, clicks[0]);
      SelectionNeverDuplicates(ToggleBrand(start, clicks[0]), clicks[1..]);
    }
  }

  lemma InitialSelectionHasNoDuplicates(clicks: seq<string>)
    ensures NoDuplicates(AfterClicks(Initial.brands, clicks))
  {
    SelectionNeverDuplicates(Initial.brands, clicks);
  }
}
