/** The home page: the category-plus-search filter, the grid heading, the
    cart badge and the empty-result message. */
module IndexPage {
  import opened Seqs
  import opened Text
  import opened Catalog
  import CategoriesPage

  function HomeMatcher(active: string, query: string): Product -> bool
  {
    p => MatchesCategory(p, active) && MatchesSearch(p, query)
  }

  /** `filteredProducts` of the home page. */
  function HomeProducts(catalog: seq<Product>, active: string, query: string): (r: seq<Product>)
    ensures IsSubsequence(r, catalog)
    ensures forall p :: p in r <==> p in catalog && MatchesCategory(p, active) && MatchesSearch(p, query)
    ensures forall p ::
      multiset(r)[p] == if MatchesCategory(p, active) && MatchesSearch(p, query) then multiset(catalog)[p] else 0
  {
    Filter(catalog, HomeMatcher(active, query))
  }

  /** In the initial state (`'all'`, `''`) the grid shows the whole catalog in catalog order. */
  lemma {:induction false} InitialShowsWholeCatalog(catalog: seq<Product>)
    ensures HomeProducts(catalog, "all", "") == catalog
  {
    forall i | 0 <= i < |catalog| ensures HomeMatcher("all", "")(catalog[i]) {
      EmptyQueryMatchesEvery(catalog[i]);
    }
    FilterKeepsAll(catalog, HomeMatcher("all", ""));
  }

  /** The letter case of the query never changes the result. */
  lemma {:induction false} QueryCaseIrrelevant(catalog: seq<Product>, active: string, q1: string, q2: string)
    requires Lower(q1) == Lower(q2)
    ensures HomeProducts(catalog, active, q1) == HomeProducts(catalog, active, q2)
  {
    FilterCongruent(catalog, HomeMatcher(active, q1), HomeMatcher(active, q2));
  }

  /** The letter case of the category id does not change the result, as long as the two ids
      are both, or both not, exactly "all". */
  lemma {:induction false} CategoryCaseIrrelevant(catalog: seq<Product>, c1: string, c2: string, query: string)
    requires Lower(c1) == Lower(c2)
    requires c1 == AllCategories <==> c2 == AllCategories
    ensures HomeProducts(catalog, c1, query) == HomeProducts(catalog, c2, query)
  {
    FilterCongruent(catalog, HomeMatcher(c1, query), HomeMatcher(c2, query));
  }

  /** Changing "all" to "ALL" does change the result: a catalog with no category named
      "all" in any letter case shows nothing under "ALL". */
  lemma {:induction false} UpperCaseAllShowsOnlyAllCategory(catalog: seq<Product>, query: string)
    requires forall i :: 0 <= i < |catalog| ==> Lower(catalog[i].category) != "all"
    ensures HomeProducts(catalog, "ALL", query) == []
  {
    var r := HomeProducts(catalog, "ALL", query);
    if r != [] {
      assert r[0] in catalog;
      var i :| 0 <= i < |catalog| && catalog[i] == r[0];
      UpperCaseAllIsNotCatchAll(catalog[i]);
      assert false;
    }
  }

  /** When the price range covers every catalog price and no brand is selected, the home filter and
      the browse filter give the same list. */
  lemma {:induction false} AgreesWithBrowseFilter(catalog: seq<Product>, c: CategoriesPage.Criteria)
    requires c.brands == []
    requires forall i :: 0 <= i < |catalog| ==> c.minPrice <= catalog[i].price <= c.maxPrice
    ensures HomeProducts(catalog, c.category, c.query) == CategoriesPage.FilteredProducts(catalog, c)
  {
    FilterCongruent(catalog, HomeMatcher(c.category, c.query), CategoriesPage.Matcher(c));
  }

  /** The text of the grid heading; `None` is the `undefined` of a failed `find`. */
  function Heading(categories: seq<Category>, active: string): (r: Option<string>)
    ensures active == AllCategories ==> r == Some("Featured Equipment")
    ensures active != AllCategories && r.Some? ==>
      exists i :: 0 <= i < |categories| && categories[i].id == active && r.value == categories[i].name &&
                  forall j :: 0 <= j < i ==> categories[j].id != active
    ensures active != AllCategories && r.None? ==>
      forall i :: 0 <= i < |categories| ==> categories[i].id != active
  {
    if active == AllCategories then Some("Featured Equipment")
    else
      match Find(categories, (cat: Category) => cat.id == active)
      case None => None
      case Some(cat) => Some(cat.name)
  }

  /** What the home page renders besides the grid. */
  datatype HomeView = HomeView(heading: Option<string>, badge: Option<int>, grid: seq<Product>, showNoProducts: bool)

  function Render(catalog: seq<Product>, categories: seq<Category>, active: string, query: string, totalItems: int): (v: HomeView)
    ensures v.badge.Some? <==> totalItems > 0
    ensures v.badge.Some? ==> v.badge.value == totalItems
    ensures v.showNoProducts <==> v.grid == []
    ensures v.grid == HomeProducts(catalog, active, query)
    ensures v.heading == Heading(categories, active)
  {
    var grid := HomeProducts(catalog, active, query);
    HomeView(Heading(categories, active), if totalItems > 0 then Some(totalItems) else None, grid, |grid| == 0)
  }

  /** "No products found" appears exactly when nothing in the catalog passes both tests. */
  lemma NoProductsMessageIff(catalog: seq<Product>, categories: seq<Category>, active: string, query: string, totalItems: int)
    ensures Render(catalog, categories, active, query, totalItems).showNoProducts <==>
      forall p :: p in catalog ==> !(MatchesCategory(p, active) && MatchesSearch(p, query))
  {
    var grid := HomeProducts(catalog, active, query);
    if grid != [] {
      assert grid[0] in grid;
    }
  }
}
