/** The cart page: the derived tax, shipping and grand total, the empty-cart
    branch, the per-line amount, and the cart call each control requests.
    Money is an exact real; the page's floating point and `toFixed`
    formatting are not modelled. */
module CartPage {
  import opened Cart

  const TaxRate: real := 0.08
  const ShippingFlat: real := 9.99

  function Tax(subtotal: real): real
  {
    subtotal * TaxRate
  }

  function Shipping(totalItems: int): real
  {
    if totalItems > 0 then ShippingFlat else 0.0
  }

  function GrandTotal(subtotal: real, totalItems: int): real
  {
    subtotal + Tax(subtotal) + Shipping(totalItems)
  }

  /** The summary in closed form: 108% of the subtotal, plus 9.99 exactly when the cart counts
      at least one item; an empty count adds no shipping, and the total never undercuts the subtotal. */
  lemma GrandTotalClosedForm(subtotal: real, totalItems: int)
    ensures GrandTotal(subtotal, totalItems) == subtotal * 1.08 + (if totalItems > 0 then 9.99 else 0.0)
    ensures totalItems <= 0 ==> GrandTotal(subtotal, totalItems) == subtotal + Tax(subtotal)
    ensures subtotal >= 0.0 ==> GrandTotal(subtotal, totalItems) >= subtotal
  {
  }

  /** The amount shown on one line. */
  function LineAmount(item: CartItem): real
  {
    item.price * item.quantity as real
  }

  datatype Summary = Summary(subtotal: real, tax: real, shipping: real, total: real)

  datatype Screen =
    | EmptyCart
    | Filled(lineAmounts: seq<real>, summary: Summary)

  /** The page for the store's `items`, `totalPrice` and `totalItems`. */
  function Render(items: seq<CartItem>, totalPrice: real, totalItems: int): (s: Screen)
    ensures s.EmptyCart? <==> |items| == 0
    ensures s.Filled? ==> (|s.lineAmounts| == |items| &&
      forall i :: 0 <= i < |items| ==> s.lineAmounts[i] == items[i].price * items[i].quantity as real)
    ensures s.Filled? ==> (s.summary.subtotal == totalPrice && s.summary.tax == totalPrice * 0.08 &&
      s.summary.shipping == (if totalItems > 0 then 9.99 else 0.0) &&
      s.summary.total == s.summary.subtotal + s.summary.tax + s.summary.shipping)
  {
    if |items| == 0 then EmptyCart
    else
      Filled(seq(|items|, i requires 0 <= i < |items| => LineAmount(items[i])),
             Summary(totalPrice, Tax(totalPrice), Shipping(totalItems), GrandTotal(totalPrice, totalItems)))
  }

  /** The controls of the filled cart page; a line's controls carry the line's position. */
  datatype Control = ClearAll | Trash(line: nat) | Minus(line: nat) | Plus(line: nat)

  predicate Shown(items: seq<CartItem>, c: Control)
  {
    |items| > 0 &&
    match c
    case ClearAll => true
    case Trash(i) => i < |items|
    case Minus(i) => i < |items|
    case Plus(i) => i < |items|
  }

  /** The cart call a press of `c` issues. */
  function Request(items: seq<CartItem>, c: Control): (r: CartCall)
    requires Shown(items, c)
  {
    match c
    case ClearAll => ClearCart
    case Trash(i) => RemoveFromCart(items[i].id)
    case Minus(i) => UpdateQuantity(items[i].id, items[i].quantity - 1)
    case Plus(i) => UpdateQuantity(items[i].id, items[i].quantity + 1)
  }

  /** Only "Clear All" clears; a line's controls name that line's id and nothing else; minus and
      plus ask for one less and one more than the line's quantity; trash removes the line's id. */
  lemma RequestTargets(items: seq<CartItem>, c: Control)
    requires Shown(items, c)
    ensures Request(items, c) == ClearCart <==> c == ClearAll
    ensures c.Trash? ==> Request(items, c) == RemoveFromCart(items[c.line].id)
    ensures c.Minus? ==> Request(items, c).UpdateQuantity? && Request(items, c).id == items[c.line].id &&
                         Request(items, c).quantity == items[c.line].quantity - 1
    ensures c.Plus? ==> Request(items, c).UpdateQuantity? && Request(items, c).id == items[c.line].id &&
                        Request(items, c).quantity == items[c.line].quantity + 1
  {
  }
}
