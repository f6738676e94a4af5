/** Catalog records and the two match tests that the home page and the
    browse page apply in the same words: the category test and the
    case-insensitive search test. The catalog itself is an input sequence. */
module Catalog {
  import opened Seqs
  import opened Text

  /** A catalog entry; the image reference and the description are presentational and left out. */
  datatype Product = Product(
    id: string,
    name: string,
    brand: string,
    category: string,
    price: real,
    rating: real,
    reviews: int,
    hasAR: bool)

  datatype Category = Category(id: string, name: string)

  /** The category id that selects every product. */
  const AllCategories: string := "all"

  /** The active id is exactly "all" (compared case-sensitively), or the product's category and the
      active id are equal after ASCII lowercasing. */
  predicate MatchesCategory(p: Product, active: string)
  {
    active == AllCategories || Lower(p.category) == Lower(active)
  }

  /** The lowercased query occurs in the lowercased name or in the lowercased brand. */
  predicate MatchesSearch(p: Product, query: string)
  {
    Includes(Lower(p.name), Lower(query)) || Includes(Lower(p.brand), Lower(query))
  }

  lemma AllMatchesEveryCategory(p: Product)
    ensures MatchesCategory(p, "all")
  {
  }

  /** A category id other than "all" matches exactly the products whose category agrees with it up to letter case. */
  lemma CategoryMatchIsCaseInsensitiveEquality(p: Product, active: string)
    requires active != AllCategories
    ensures MatchesCategory(p, active) <==> Lower(p.category) == Lower(active)
  {
  }

  /** The empty query matches every product. */
  lemma EmptyQueryMatchesEvery(p: Product)
    ensures MatchesSearch(p, "")
  {
    assert Lower("") == "";
    EmptyIncludedEverywhere(Lower(p.name));
  }

  /** The search test is the substring test on lowercased name and brand. */
  lemma SearchIsSubstringOfNameOrBrand(p: Product, query: string)
    ensures MatchesSearch(p, query) <==>
      Occurs(Lower(p.name), Lower(query)) || Occurs(Lower(p.brand), Lower(query))
  {
  }

  /** Queries that agree up to ASCII letter case match the same products. */
  lemma SearchIgnoresCase(p: Product, q1: string, q2: string)
    requires Lower(q1) == Lower(q2)
    ensures MatchesSearch(p, q1) == MatchesSearch(p, q2)
  {
  }

  /** Category ids that agree up to letter case match the same products, provided both are,
      or neither is, exactly "all" (the comparison with "all" is case-sensitive). */
  lemma CategoryIgnoresCase(p: Product, c1: string, c2: string)
    requires Lower(c1) == Lower(c2)
    requires c1 == AllCategories <==> c2 == AllCategories
    ensures MatchesCategory(p, c1) == MatchesCategory(p, c2)
  {
  }

  /** "ALL" is not the catch-all: it keeps only products whose category lowercases to "all". */
  lemma {:induction false} UpperCaseAllIsNotCatchAll(p: Product)
    ensures MatchesCategory(p, "ALL") <==> Lower(p.category) == "all"
  {
    assert Lower("ALL") == "all" by {
      assert Lower("ALL")[0] == 'a' && Lower("ALL")[1] == 'l' && Lower("ALL")[2] == 'l';
    }
  }
}
