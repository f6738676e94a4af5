/** The checkout page: a three-step sequencer with a processing flag, and
    the two-phase place-order handler that clears the cart. The 2000 ms wait
    between the phases is the gap between `BeginPlaceOrder` and
    `CompletePlaceOrder`; the timer is the caller of the second. */
module CheckoutPage {
  import opened Cart
  import CartPage

  /** The checkout summary charges the flat 9.99 shipping whatever the cart holds. */
  function CheckoutTotal(totalPrice: real): real
  {
    totalPrice + totalPrice * 0.08 + 9.99
  }

  /** For a cart that counts items the checkout total is the cart page's total; for an empty
      count it is 9.99 more, since the cart page waives shipping and the checkout does not. */
  lemma CheckoutTotalAgainstCartPage(totalPrice: real, totalItems: int)
    ensures totalItems > 0 ==> CheckoutTotal(totalPrice) == CartPage.GrandTotal(totalPrice, totalItems)
    ensures totalItems <= 0 ==> CheckoutTotal(totalPrice) == CartPage.GrandTotal(totalPrice, totalItems) + 9.99
  {
  }

  datatype Step = Shipping | Payment | Confirmation

  class Checkout {
    const cart: CartLog
    var step: Step
    var isProcessing: bool
    /** The cart calls made before the page was entered. */
    ghost const before: seq<CartCall>
    /** Completions scheduled by place-order and not yet run. */
    ghost var pending: nat
    /** Whether place-order has been started (necessarily from the payment step). */
    ghost var orderStarted: bool

    /** The page's invariant: at most one place-order in flight, exactly while processing;
        confirmation only after a started order and never while processing; the page's only
        cart call is one `clearCart`, issued exactly when confirmation is reached. */
    ghost predicate Valid()
      reads this, cart
    {
      && pending == (if isProcessing then 1 else 0)
      && (isProcessing ==> orderStarted && step != Confirmation)
      && (step == Confirmation ==> orderStarted)
      && cart.calls == before + (if step == Confirmation then [ClearCart] else [])
    }

    constructor (c: CartLog)
      ensures Valid()
      ensures cart == c && step == Shipping && !isProcessing && !orderStarted
      ensures before == c.calls
    {
      cart := c;
      step := Shipping;
      isProcessing := false;
      before := c.calls;
      pending := 0;
      orderStarted := false;
    }

    /** Shown as "Step 1 of 2" in shipping and "Step 2 of 2" in payment. */
    function StepNumber(): (n: int)
      reads this
      requires step != Confirmation
      ensures n == 1 <==> step == Shipping
      ensures n == 2 <==> step == Payment
    {
      match step
      case Shipping => 1
      case Payment => 2
    }

    /** The two progress bars: the first lit on both form steps, the second only in payment. */
    function ProgressBars(): (bars: (bool, bool))
      reads this
      requires step != Confirmation
      ensures bars.0
      ensures bars.1 <==> step == Payment
    {
      (step == Shipping || step == Payment, step == Payment)
    }

    /** The first phase of `handlePlaceOrder`: raise the flag and schedule the completion. */
    method BeginPlaceOrder()
      requires Valid() && step == Payment && !isProcessing
      modifies this
      ensures Valid()
      ensures step == Payment && isProcessing && orderStarted
      ensures cart.calls == old(cart.calls)
    {
      isProcessing := true;
      pending := pending + 1;
      orderStarted := true;
    }

    /** The bottom button: disabled while processing; "Continue to Payment" in shipping;
        "Place Order" in payment. The confirmation screen does not show it. */
    method MainButton()
      requires Valid() && step != Confirmation
      modifies this
      ensures Valid()
      ensures old(isProcessing) ==> step == old(step) && isProcessing && pending == old(pending)
      ensures !old(isProcessing) && old(step) == Shipping ==> step == Payment && !isProcessing
      ensures !old(isProcessing) && old(step) == Payment ==> step == Payment && isProcessing
      ensures cart.calls == old(cart.calls)
    {
      if isProcessing {
        return;
      }
      if step == Shipping {
        step := Payment;
      } else {
        BeginPlaceOrder();
      }
    }

    /** The back arrow: payment goes back to shipping; in shipping the page is left
        (`leave`) and the step stays. It is not disabled while processing. */
    method BackButton() returns (leave: bool)
      requires Valid() && step != Confirmation
      modifies this`step
      ensures Valid()
      ensures leave <==> old(step) == Shipping
      ensures step == Shipping
    {
      leave := step != Payment;
      if step == Payment {
        step := Shipping;
      }
    }

    /** The second phase, when the delay ends: lower the flag, show the confirmation,
        clear the cart once. */
    method CompletePlaceOrder()
      requires Valid() && pending > 0
      modifies this, cart
      ensures Valid()
      ensures !isProcessing && step == Confirmation && pending == 0
      ensures cart.calls == old(cart.calls) + [ClearCart]
    {
      pending := pending - 1;
      isProcessing := false;
      step := Confirmation;
      cart.Record(ClearCart);
    }
  }

  /** The happy path: continue, place order, the delay ends; the cart sees one `clearCart`. */
  method PlaceOrderScenario(cart: CartLog) returns (page: Checkout)
    modifies cart
    ensures page.step == Confirmation && !page.isProcessing
    ensures cart.calls == old(cart.calls) + [ClearCart]
  {
    page := new Checkout(cart);
    page.MainButton();
    page.MainButton();
    page.MainButton();
    page.CompletePlaceOrder();
  }

  /** Going back during the delay: the page shows shipping with the bottom button disabled,
      and the completion still moves it to confirmation. */
  method BackWhileProcessingScenario(cart: CartLog) returns (page: Checkout)
    modifies cart
    ensures page.step == Confirmation
    ensures cart.calls == old(cart.calls) + [ClearCart]
  {
    page := new Checkout(cart);
    page.MainButton();
    page.MainButton();
    var leave := page.BackButton();
    assert !leave && page.step == Shipping && page.isProcessing;
    page.MainButton();
    assert page.step == Shipping;
    page.CompletePlaceOrder();
  }

  /** Leaving during the delay: back twice leaves the page, and the pending completion
      still clears the cart afterwards. */
  method LeaveWhileProcessingScenario(cart: CartLog) returns (left: bool)
    modifies cart
    ensures left
    ensures cart.calls == old(cart.calls) + [ClearCart]
  {
    var page := new Checkout(cart);
    page.MainButton();
    page.MainButton();
    var first := page.BackButton();
    assert !first;
    left := page.BackButton();
    page.CompletePlaceOrder();
  }
}
