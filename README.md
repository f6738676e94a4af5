# SportGear storefront pages — a Dafny model

This project models the logic held in the pages of a mobile storefront:

- the browse page's filter and sort pipeline;
- the home page's category-and-search filter;
- the checkout step sequencer;
- the cart page's derived totals and control dispatch;
- the product page's quantity selector and repeated add-to-cart;
- the AR viewer's selection state.

The catalog and the category list are inputs: arbitrary sequences of
`Product` and `Category` records. The cart store is a collaborator whose
code is not part of this model. The calls the pages make to it are logged
in `Cart.CartLog`, the sequence of `CartCall`s it has received. The values
the pages read from it (`items`, `totalPrice`, `totalItems`) are inputs,
and the model does not tie them to each other or to the log.

Modules:

- `Seqs`: `filter` and `find` as `Filter` and `Find` (the latter through
  the first passing position, `FindIndex`), with their order and membership
  properties.
- `Text`: ASCII `toLowerCase` and `String.prototype.includes`.
- `Catalog`: the records, and the category and search tests. The home page
  and the browse page write these tests in the same words.
- `Cart`: the cart calls and the call log.
- `CategoriesPage`, `IndexPage`, `CheckoutPage`, `CartPage`,
  `ProductDetailPage`, `ARViewPage`: one module per page.

What each kind of code became:

- Pure expressions became functions with lemmas.
- State cells updated by handlers became classes. Each has a `Valid()`
  invariant, and each method states the whole new state.
- The add-to-cart `for` loop became a method with loop invariants.
- Money and ratings are exact `real`s.

The sort model:

- The page sorts a copy of the filtered list with its comparator. The model
  is a stable insertion sort (`Sort`) on a sequence value, driven by the
  page's own comparator (`Compare`).
- It is proved to return a permutation of the filtered list, ordered by
  the comparator.
- It is proved stable: for every key value, the products with that key keep
  their filter order. ECMA-262 requires `Array.prototype.sort` to be stable
  (section 23.1.3.30 of the 2023 edition).
- A sort with these three properties has only one possible result, so the
  model gives the list the page renders.

Behaviour of the code that is easy to misread, as the model states it:

- The category test compares with `'all'` case-sensitively. So "ALL" is not
  the catch-all: it keeps only products whose category lowercases to "all"
  (`UpperCaseAllShowsOnlyAllCategory`). Letter case of the category id is
  irrelevant only when both ids, or neither, are exactly "all"
  (`CategoryCaseIrrelevant`).
- The checkout's main button is disabled while processing (line 241). So,
  within one visit to the page, a second place-order cannot start while one
  is in flight: `Valid()` keeps `pending` at most 1.
- The back arrow is not disabled while processing. Pressing it during the
  delay returns to shipping, and the completion still moves the page to
  confirmation (`BackWhileProcessingScenario`). So every confirmation follows
  a place-order started in payment (`orderStarted`). The step just before
  confirmation can still be shipping.
- The checkout summary charges 9.99 shipping unconditionally. The cart page
  charges it only when `totalItems > 0` (`CheckoutTotalAgainstCartPage`).

## Model

| member | source | states |
|---|---|---|
| `Seqs.Filter` | src/pages/CategoriesPage.tsx:28 | `filter` returns an order-preserving subsequence. It holds exactly the elements passing the test, each as often as in the input. |
| `Seqs.FindIndex` | src/pages/ProductDetailPage.tsx:18 | The position found passes the test and no earlier element does. `None` iff no element passes. |
| `Seqs.Find` | src/pages/Index.tsx:136 | `find` returns the first element passing the test, or `None` iff there is none. |
| `Seqs.FindIsFirstOfFilter` | src/pages/ARViewPage.tsx:13-16 | `find` with a test returns the head of `filter` with the same test. |
| `Text.LowerChar` | src/pages/CategoriesPage.tsx:30 | ASCII lowercasing maps 'A'..'Z' to 'a'..'z' and keeps every other character. |
| `Text.Lower` | src/pages/CategoriesPage.tsx:30 | `toLowerCase` keeps the length and lowercases pointwise. |
| `Text.Includes` | src/pages/CategoriesPage.tsx:31-32 | `includes` is true iff the needle occurs at some position of the haystack. |
| `Text.EmptyIncludedEverywhere` | src/pages/CategoriesPage.tsx:31 | The empty string is included in every string. |
| `Catalog.AllMatchesEveryCategory` | src/pages/CategoriesPage.tsx:29 | Category `'all'` matches every product. |
| `Catalog.CategoryMatchIsCaseInsensitiveEquality` | src/pages/CategoriesPage.tsx:29-30 | Any other category id matches iff it equals the product category after lowercasing both. |
| `Catalog.EmptyQueryMatchesEvery` | src/pages/CategoriesPage.tsx:31-32 | The empty query matches every product. |
| `Catalog.SearchIsSubstringOfNameOrBrand` | src/pages/CategoriesPage.tsx:31-32 | The search test holds iff the lowercased query occurs in the lowercased name or the lowercased brand. |
| `Catalog.SearchIgnoresCase` | src/pages/CategoriesPage.tsx:31-32 | Queries equal up to ASCII case match the same products. |
| `Catalog.CategoryIgnoresCase` | src/pages/CategoriesPage.tsx:29-30 | Ids equal up to case match alike, provided both or neither are exactly "all". |
| `Catalog.UpperCaseAllIsNotCatchAll` | src/pages/CategoriesPage.tsx:29 | "ALL" matches a product iff its category lowercases to "all". |
| `CategoriesPage.FilteredProducts` | src/pages/CategoriesPage.tsx:28-36 | The result is an order-preserving subsequence of the catalog. A product is kept iff the category, search, inclusive price and brand tests all pass. Kept products keep their multiplicity. |
| `CategoriesPage.NeutralCriteriaKeepEverything` | src/pages/CategoriesPage.tsx:28-36 | With "all", the empty query, a covering price range and no brands, the filter returns the whole catalog in order. |
| `CategoriesPage.CompareIsRankDifference` | src/pages/CategoriesPage.tsx:39-44 | The comparator for each key is the difference of one ascending key. |
| `CategoriesPage.InsertPermutes` | src/pages/CategoriesPage.tsx:38 | Inserting adds exactly one element. |
| `CategoriesPage.InsertSorted` | src/pages/CategoriesPage.tsx:38-45 | Inserting into a sorted list keeps it sorted under the comparator. |
| `CategoriesPage.InsertTier` | src/pages/CategoriesPage.tsx:38-45 | Inserting puts the element first among the elements with its key and changes no other key's elements. |
| `CategoriesPage.Sort` | src/pages/CategoriesPage.tsx:38-45 | The sorted copy is a permutation of the list and is ordered by the comparator. |
| `CategoriesPage.SortIsStable` | src/pages/CategoriesPage.tsx:38-45 | For every key value, the elements with that key appear in their input order. |
| `CategoriesPage.SortedProductsSpec` | src/pages/CategoriesPage.tsx:28-45 | The grid is a permutation of the filtered list. Its members are exactly the matching catalog products. It is sorted, with equal keys in filter order. |
| `CategoriesPage.SortOrderByKey` | src/pages/CategoriesPage.tsx:39-44 | price-low: price non-decreasing. price-high: price non-increasing. rating: rating non-increasing. Any other key: review count non-increasing. |
| `CategoriesPage.ToggleBrand` | src/pages/CategoriesPage.tsx:47-53 | The toggled brand's membership flips and every other brand's membership is unchanged. An absent brand is appended at the end. |
| `CategoriesPage.ToggleAbsentTwice` | src/pages/CategoriesPage.tsx:47-53 | Toggling an absent brand twice restores the original list. |
| `CategoriesPage.ToggleKeepsNoDuplicates` | src/pages/CategoriesPage.tsx:47-53 | A toggle keeps a duplicate-free selection duplicate-free. |
| `CategoriesPage.SelectionNeverDuplicates` | src/pages/CategoriesPage.tsx:47-53 | Any sequence of checkbox clicks from a duplicate-free selection leaves it duplicate-free. |
| `CategoriesPage.InitialSelectionHasNoDuplicates` | src/pages/CategoriesPage.tsx:25 | From the initial `[]`, the selection never contains a brand twice. |
| `IndexPage.HomeProducts` | src/pages/Index.tsx:17-23 | The result is an order-preserving subsequence of the catalog. A product is kept iff both the category and search tests pass. Kept products keep their multiplicity. |
| `IndexPage.InitialShowsWholeCatalog` | src/pages/Index.tsx:12-23 | With `'all'` and `''` the grid is the whole catalog in catalog order. |
| `IndexPage.QueryCaseIrrelevant` | src/pages/Index.tsx:20-21 | The letter case of the query never changes the result. |
| `IndexPage.CategoryCaseIrrelevant` | src/pages/Index.tsx:18-19 | The letter case of the category id does not change the result when both ids, or neither, are exactly "all". |
| `IndexPage.UpperCaseAllShowsOnlyAllCategory` | src/pages/Index.tsx:18-19 | "ALL" shows nothing from a catalog with no category named "all". |
| `IndexPage.AgreesWithBrowseFilter` | src/pages/Index.tsx:17-23 | With a covering price range and no brands, the home filter equals the browse filter. |
| `IndexPage.Heading` | src/pages/Index.tsx:136 | "Featured Equipment" when the category is `'all'`. Otherwise the name of the first category with that id, and `None` iff there is none. |
| `IndexPage.Render` | src/pages/Index.tsx:59-63 | The badge is present iff `totalItems > 0` and then shows `totalItems`. The empty message shows iff the grid is empty. |
| `IndexPage.NoProductsMessageIff` | src/pages/Index.tsx:147 | "No products found" shows iff no catalog product passes both tests. |
| `CartPage.GrandTotalClosedForm` | src/pages/CartPage.tsx:12-14 | The total is 108% of the subtotal plus 9.99 iff `totalItems > 0`. It is never below a non-negative subtotal. |
| `CartPage.Render` | src/pages/CartPage.tsx:12-16 | The empty-cart screen shows iff `items` is empty. Otherwise each line shows price × quantity, and the summary holds subtotal, 8% tax, conditional shipping and their sum. |
| `CartPage.RequestTargets` | src/pages/CartPage.tsx:83-138 | Only "Clear All" requests `clearCart`. Trash removes the line's id. Minus and plus request quantity − 1 and + 1 for the line's id. |
| `ProductDetailPage.Lookup` | src/pages/ProductDetailPage.tsx:18-26 | Returns the first catalog entry with the route id. `None`, the not-found branch, iff no entry has it. |
| `ProductDetailPage.LookupUniqueId` | src/pages/ProductDetailPage.tsx:18 | With unique ids, looking up an entry's id returns that entry. |
| `ProductDetailPage.ProductDetail.constructor` | src/pages/ProductDetailPage.tsx:14-16 | The quantity starts at 1, the favourite at false and the tab at description. |
| `ProductDetailPage.ProductDetail.Decrement` | src/pages/ProductDetailPage.tsx:230 | Minus sets `max(1, q − 1)` and keeps the quantity ≥ 1. |
| `ProductDetailPage.ProductDetail.Increment` | src/pages/ProductDetailPage.tsx:238 | Plus sets `q + 1` and keeps the quantity ≥ 1. |
| `ProductDetailPage.ProductDetail.ToggleFavorite` | src/pages/ProductDetailPage.tsx:67 | Negates the favourite. |
| `ProductDetailPage.FavoriteTwice` | src/pages/ProductDetailPage.tsx:67 | Toggling the favourite twice restores it. |
| `ProductDetailPage.ProductDetail.SelectTab` | src/pages/ProductDetailPage.tsx:129-140 | Each tab button selects exactly its own tab. |
| `ProductDetailPage.ProductDetail.HandleAddToCart` | src/pages/ProductDetailPage.tsx:28-31 | Appends exactly `quantity` `addToCart(product)` calls to the cart and nothing else. |
| `ProductDetailPage.FilledPrefixCount` | src/pages/ProductDetailPage.tsx:109-113 | A row of n stars filled below f has `clamp(f, 0, n)` filled stars. |
| `ProductDetailPage.HeaderStarsCount` | src/pages/ProductDetailPage.tsx:109-113 | Header star i is filled iff `i < floor(rating)`. For a non-negative rating, `min(5, floor(rating))` stars are filled. |
| `ProductDetailPage.ReviewStarsCount` | src/pages/ProductDetailPage.tsx:208-212 | Review star i is filled iff `i < review.rating`. The count is the rating clamped to 0..5. |
| `ARViewPage.ArProducts` | src/pages/ARViewPage.tsx:16 | The order-preserving sublist of the products with `hasAR`, each as often as in the catalog. |
| `ARViewPage.InitialSelection` | src/pages/ARViewPage.tsx:13 | The first `hasAR` product. Otherwise `products[0]`. `None` iff the catalog is empty. |
| `ARViewPage.ExactlyChosenHighlighted` | src/pages/ARViewPage.tsx:121-129 | With unique ids, after choosing thumbnail i exactly thumbnail i is highlighted. |
| `ARViewPage.AtMostOneHighlighted` | src/pages/ARViewPage.tsx:125-129 | With unique ids, at most one thumbnail is highlighted. |
| `ARViewPage.ARView.constructor` | src/pages/ARViewPage.tsx:13-16 | Starts with the initial selection, unplaced. The invariant holds. |
| `ARViewPage.ARView.Place` | src/pages/ARViewPage.tsx:100 | "Tap to Place Object" sets placed. |
| `ARViewPage.ARView.Reset` | src/pages/ARViewPage.tsx:148 | "Reset" clears placed. |
| `ARViewPage.ARView.ChooseThumbnail` | src/pages/ARViewPage.tsx:121-124 | Selects the chosen AR product and always resets placed. The selection then has `hasAR`. |
| `ARViewPage.ARView.HandleAddToCart` | src/pages/ARViewPage.tsx:18-21 | Adds the selected product to the cart exactly once. |
| `CheckoutPage.CheckoutTotalAgainstCartPage` | src/pages/CheckoutPage.tsx:16-18 | The checkout total equals the cart page's total when items are counted. It is 9.99 more on an empty count. |
| `CheckoutPage.Checkout.constructor` | src/pages/CheckoutPage.tsx:13-14 | Starts in shipping, not processing, with no cart calls issued. |
| `CheckoutPage.Checkout.StepNumber` | src/pages/CheckoutPage.tsx:110 | Step 1 in shipping and step 2 in payment. |
| `CheckoutPage.Checkout.ProgressBars` | src/pages/CheckoutPage.tsx:117-118 | The first bar is lit on both form steps, the second only in payment. |
| `CheckoutPage.Checkout.BeginPlaceOrder` | src/pages/CheckoutPage.tsx:20-21 | Place-order first sets `isProcessing` and schedules the one completion. |
| `CheckoutPage.Checkout.MainButton` | src/pages/CheckoutPage.tsx:240-241 | Disabled and a no-op while processing. Shipping moves to payment. Payment starts place-order. |
| `CheckoutPage.Checkout.BackButton` | src/pages/CheckoutPage.tsx:102 | Payment moves to shipping. In shipping it leaves the page with the step unchanged. |
| `CheckoutPage.Checkout.CompletePlaceOrder` | src/pages/CheckoutPage.tsx:23-25 | Completion clears `isProcessing`, sets confirmation and appends exactly one `clearCart`. |
| `CheckoutPage.PlaceOrderScenario` | src/pages/CheckoutPage.tsx:20-26 | Continue, place order and completion reach confirmation with one `clearCart`. A third press while processing changes nothing. |
| `CheckoutPage.BackWhileProcessingScenario` | src/pages/CheckoutPage.tsx:102 | Going back during the delay shows shipping with the button disabled. The completion still reaches confirmation. |
| `CheckoutPage.LeaveWhileProcessingScenario` | src/pages/CheckoutPage.tsx:20-26 | Pressing back twice during the delay leaves the page, and the pending completion still appends one `clearCart`. |

## Left out

- The cart store (`@/contexts/CartContext`) is not part of this model. Its merging, removal and totals are not claimed. `totalPrice` and `totalItems` are inputs to the cart page's summary.
- The catalog and category data (`@/data/products`) are not part of this model. They are arbitrary input sequences, and unique ids are assumed only where a lemma says so.
- IEEE-754 arithmetic, `toFixed` formatting and the strikethrough price (120% of the price) are left out. Amounts are exact reals.
- The 2000 ms delay, toasts, framer-motion animation and JSX markup are left out. Place-order is modelled as its two observable phases. The fabricated order number is static text.
- Routing and navigation (`useNavigate`, going back in history, links) are left out. Leaving the checkout page is only reported by `BackButton`'s `leave` result.
- CheckoutPage.Checkout: a completion that runs after `BackButton` has returned `leave` still clears the cart (`LeaveWhileProcessingScenario`). The model does not capture what that stale `clearCart` does to a later visit: it empties whatever was added after leaving, and a fresh visit can start a second order while the first is pending.
- CheckoutPage.Checkout.Valid: `cart.calls == before + …` assumes that no other cart calls are made between the page's construction and its completion, so two visits sharing one `CartLog` with overlapping orders are outside the model.
- Product images, descriptions, the share and maximize buttons, and the hard-coded review list are presentational.
- `toLowerCase` is modelled on ASCII letters only. Full Unicode case mapping is not.
- The slider's min, max and step and the no-op "Apply Filters" button belong to the UI library. The price bounds are arbitrary reals.
- The browse page's in-place sort of a fresh array copy is modelled on sequence values. With values, the catalog cannot be changed by the sort, so aliasing is not modelled.
- ARViewPage.ARView.HandleAddToCart: requires a selected product. With an empty catalog nothing is selected, and the placed view fails to render (line 58) before its Add to Cart control could appear.
