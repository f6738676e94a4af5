/** The product page: lookup by route id, the quantity selector, the
    repeated add-to-cart loop, the favourite and tab cells, and the star rows. */
module ProductDetailPage {
  import opened Seqs
  import opened Catalog
  import opened Cart

  /** The first catalog entry whose id is the route id; `None` takes the not-found branch. */
  function Lookup(catalog: seq<Product>, id: string): (r: Option<Product>)
    ensures r.None? <==> forall i :: 0 <= i < |catalog| ==> catalog[i].id != id
    ensures r.Some? ==> (r.value.id == id &&
      exists i :: 0 <= i < |catalog| && catalog[i] == r.value && forall j :: 0 <= j < i ==> catalog[j].id != id)
  {
    Find(catalog, (p: Product) => p.id == id)
  }

  /** With unique ids, the product found is the catalog's one entry with that id. */
  lemma LookupUniqueId(catalog: seq<Product>, k: nat)
    requires forall i, j :: 0 <= i < j < |catalog| ==> catalog[i].id != catalog[j].id
    requires k < |catalog|
    ensures Lookup(catalog, catalog[k].id) == Some(catalog[k])
  {
    var r := Lookup(catalog, catalog[k].id);
    assert r.Some?;
    var i :| 0 <= i < |catalog| && catalog[i] == r.value && forall j :: 0 <= j < i ==> catalog[j].id != catalog[k].id;
    if i < k {
      assert catalog[i].id != catalog[k].id;
    }
  }

  datatype Tab = Description | Reviews

  /** The page state cells of a found product. */
  class ProductDetail {
    const product: Product
    var quantity: int
    var isFavorite: bool
    var selectedTab: Tab

    ghost predicate Valid()
      reads this
    {
      quantity >= 1
    }

    constructor (p: Product)
      ensures Valid()
      ensures product == p && quantity == 1 && !isFavorite && selectedTab == Description
    {
      product := p;
      quantity := 1;
      isFavorite := false;
      selectedTab := Description;
    }

    /** The minus button: one less, but never below 1. */
    method Decrement()
      requires Valid()
      modifies this`quantity
      ensures Valid()
      ensures quantity == if old(quantity) > 1 then old(quantity) - 1 else 1
    {
      quantity := if quantity - 1 > 1 then quantity - 1 else 1;
    }

    /** The plus button. */
    method Increment()
      requires Valid()
      modifies this`quantity
      ensures Valid()
      ensures quantity == old(quantity) + 1
    {
      quantity := quantity + 1;
    }

    method ToggleFavorite()
      modifies this`isFavorite
      ensures isFavorite == !old(isFavorite)
    {
      isFavorite := !isFavorite;
    }

    /** Each tab button selects exactly its own tab. */
    method SelectTab(t: Tab)
      modifies this`selectedTab
      ensures selectedTab == t
    {
      selectedTab := t;
    }

    /** The add-to-cart handler: one add-to-cart call per unit of `quantity`, nothing else. */
    method HandleAddToCart(cart: CartLog)
      requires Valid()
      modifies cart
      ensures |cart.calls| == |old(cart.calls)| + quantity
      ensures cart.calls[..|old(cart.calls)|] == old(cart.calls)
      ensures forall k :: |old(cart.calls)| <= k < |cart.calls| ==> cart.calls[k] == AddToCart(product)
    {
      for i := 0 to quantity
        invariant |cart.calls| == |old(cart.calls)| + i
        invariant cart.calls[..|old(cart.calls)|] == old(cart.calls)
        invariant forall k :: |old(cart.calls)| <= k < |cart.calls| ==> cart.calls[k] == AddToCart(product)
      {
        cart.Record(AddToCart(product));
      }
    }
  }

  /** Favourite twice restores the original value; the other cells are untouched. */
  method FavoriteTwice(page: ProductDetail)
    modifies page`isFavorite
    ensures page.isFavorite == old(page.isFavorite)
  {
    page.ToggleFavorite();
    page.ToggleFavorite();
  }

  /** A row of five stars; star `i` is filled iff `i < filledBelow`. */
  function StarRow(filledBelow: int): seq<bool>
  {
    seq(5, i => i < filledBelow)
  }

  /** The header row: star `i` is filled iff `i` is below the rating rounded down. */
  function HeaderStars(rating: real): seq<bool>
  {
    StarRow(rating.Floor)
  }

  /** A review's row: star `i` is filled iff `i` is below the review's integer rating. */
  function ReviewStars(rating: int): seq<bool>
  {
    StarRow(rating)
  }

  function CountFilled(s: seq<bool>): nat
  {
    if s == [] then 0 else (if s[0] then 1 else 0) + CountFilled(s[1..])
  }

  function Clamp(lo: int, x: int, hi: int): int
  {
    if x < lo then lo else if x > hi then hi else x
  }

  lemma {:induction false} FilledPrefixCount(n: nat, f: int)
    ensures CountFilled(seq(n, i => i < f)) == Clamp(0, f, n)
  {
    if n > 0 {
      var s := seq(n, i => i < f);
      assert s[1..] == seq(n - 1, i => i < f - 1);
      FilledPrefixCount(n - 1, f - 1);
    }
  }

  /** The header fills the first `floor(rating)` stars, clamped to 0..5; so a non-negative rating
      fills `min(5, floor(rating))` stars. */
  lemma HeaderStarsCount(rating: real)
    ensures CountFilled(HeaderStars(rating)) == Clamp(0, rating.Floor, 5)
    ensures rating >= 0.0 ==> CountFilled(HeaderStars(rating)) == if rating.Floor < 5 then rating.Floor else 5
    ensures forall i :: 0 <= i < 5 ==> (HeaderStars(rating)[i] <==> i < rating.Floor)
  {
    FilledPrefixCount(5, rating.Floor);
  }

  /** A review rated `r` fills the first `r` stars, clamped to 0..5. */
  lemma ReviewStarsCount(r: int)
    ensures CountFilled(ReviewStars(r)) == Clamp(0, r, 5)
    ensures forall i :: 0 <= i < 5 ==> (ReviewStars(r)[i] <==> i < r)
  {
    FilledPrefixCount(5, r);
  }
}
