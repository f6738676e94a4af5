/** The AR viewer: the AR-capable thumbnails, the initial selection, and the
    placed/unplaced cell that every new selection resets. The camera view
    itself is an animation and is not modelled. */
module ARViewPage {
  import opened Seqs
  import opened Catalog
  import opened Cart

  function HasAR(): Product -> bool
  {
    (p: Product) => p.hasAR
  }

  /** `arProducts`: the catalog entries with `hasAR`, in catalog order. */
  function ArProducts(catalog: seq<Product>): (r: seq<Product>)
    ensures IsSubsequence(r, catalog)
    ensures forall p :: p in r <==> p in catalog && p.hasAR
    ensures forall p :: multiset(r)[p] == if p.hasAR then multiset(catalog)[p] else 0
  {
    Filter(catalog, HasAR())
  }

  /** The first AR-capable product, falling back to the first product of the catalog; `None` is
      the `undefined` of an empty catalog. */
  function InitialSelection(catalog: seq<Product>): (r: Option<Product>)
    ensures r.None? <==> |catalog| == 0
    ensures ArProducts(catalog) != [] ==> r == Some(ArProducts(catalog)[0])
    ensures ArProducts(catalog) == [] && |catalog| > 0 ==> r == Some(catalog[0])
  {
    FindIsFirstOfFilter(catalog, HasAR());
    match Find(catalog, HasAR())
    case Some(p) => Some(p)
    case None => if |catalog| > 0 then Some(catalog[0]) else None
  }

  /** The thumbnail for `p` is highlighted iff its id is the selected product's id. */
  predicate IsHighlighted(selected: Option<Product>, p: Product)
  {
    selected.Some? && selected.value.id == p.id
  }

  /** With unique ids, choosing thumbnail `i` highlights that thumbnail and no other. */
  lemma ExactlyChosenHighlighted(thumbs: seq<Product>, i: nat)
    requires forall a, b :: 0 <= a < b < |thumbs| ==> thumbs[a].id != thumbs[b].id
    requires i < |thumbs|
    ensures forall j :: 0 <= j < |thumbs| ==> (IsHighlighted(Some(thumbs[i]), thumbs[j]) <==> j == i)
  {
  }

  /** With unique ids, at most one thumbnail is highlighted whatever is selected. */
  lemma AtMostOneHighlighted(thumbs: seq<Product>, selected: Option<Product>, i: nat, j: nat)
    requires forall a, b :: 0 <= a < b < |thumbs| ==> thumbs[a].id != thumbs[b].id
    requires i < |thumbs| && j < |thumbs|
    requires IsHighlighted(selected, thumbs[i]) && IsHighlighted(selected, thumbs[j])
    ensures i == j
  {
  }

  class ARView {
    const catalog: seq<Product>
    var selected: Option<Product>
    var isPlaced: bool

    /** The selection is a catalog entry, present iff the catalog is not empty, and has AR
        whenever the catalog holds any AR product. */
    ghost predicate Valid()
      reads this
    {
      && (selected.None? <==> |catalog| == 0)
      && (selected.Some? ==> selected.value in catalog)
      && (ArProducts(catalog) != [] ==> selected.Some? && selected.value.hasAR)
    }

    constructor (products: seq<Product>)
      ensures Valid()
      ensures catalog == products && selected == InitialSelection(products) && !isPlaced
    {
      catalog := products;
      selected := InitialSelection(products);
      isPlaced := false;
      new;
      if ArProducts(products) != [] {
        assert ArProducts(products)[0] in ArProducts(products);
      }
    }

    /** "Tap to Place Object". */
    method Place()
      requires Valid()
      modifies this`isPlaced
      ensures Valid() && isPlaced
    {
      isPlaced := true;
    }

    /** "Reset". */
    method Reset()
      requires Valid()
      modifies this`isPlaced
      ensures Valid() && !isPlaced
    {
      isPlaced := false;
    }

    /** A thumbnail press: select `ArProducts(catalog)[i]` and always go back to unplaced. */
    method ChooseThumbnail(i: nat)
      requires Valid()
      requires i < |ArProducts(catalog)|
      modifies this`selected, this`isPlaced
      ensures Valid()
      ensures selected == Some(ArProducts(catalog)[i]) && !isPlaced
      ensures selected.value.hasAR
    {
      assert ArProducts(catalog)[i] in ArProducts(catalog);
      selected := Some(ArProducts(catalog)[i]);
      isPlaced := false;
    }

    /** "Add to Cart", present only while placed: adds the selected product exactly once. An
        empty catalog leaves nothing selected, and the placed view cannot render then. */
    method HandleAddToCart(cart: CartLog)
      requires Valid() && isPlaced && selected.Some?
      modifies cart
      ensures cart.calls == old(cart.calls) + [AddToCart(selected.value)]
    {
      cart.Record(AddToCart(selected.value));
    }
  }
}
