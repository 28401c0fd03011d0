/** The checkout wizard (`src/pages/CheckoutPage.tsx`): three steps moved by
    "Continue" and "Back", a shipping method that decides the shipping cost,
    and the order total. Completing the order clears the cart; the alert and
    the navigation home are reduced to an `orderPlaced` flag. */
module Checkout {
  import Cart
  import CartPage

  datatype Step = Information | Shipping | Payment
  datatype ShippingMethod = Standard | Express
  datatype PaymentMethod = CreditCard | PayPal | CashOnDelivery

  const ExpressShipping: int := 19900

  /** Express is a flat fee; standard follows the cart page's threshold. */
  function ShippingCost(m: ShippingMethod, subtotal: int): (c: int)
    ensures m == Express ==> c == ExpressShipping
    ensures m == Standard ==> c == CartPage.Shipping(subtotal)
    ensures m == Standard ==> (c == 0 <==> subtotal > CartPage.FreeShippingAbove)
  {
    if m == Express then ExpressShipping else CartPage.Shipping(subtotal)
  }

  function OrderTotal(m: ShippingMethod, subtotal: int, tax: int): (t: int)
    ensures t - subtotal - tax == ShippingCost(m, subtotal)
  {
    subtotal + ShippingCost(m, subtotal) + tax
  }

  /** Where "Continue" leads from the first two steps. */
  function ContinueFrom(s: Step): Step
    requires s != Payment
  {
    if s == Information then Shipping else Payment
  }

  /** Where "Back" leads; it does nothing on the first step. */
  function BackFrom(s: Step): Step {
    match s
    case Information => Information
    case Shipping => Information
    case Payment => Shipping
  }

  /** Back then Continue returns to the step it started from (after the
      first), and Continue then Back does too (before the last). */
  lemma BackContinueRoundTrip(s: Step)
    ensures s != Information ==> BackFrom(s) != Payment && ContinueFrom(BackFrom(s)) == s
    ensures s != Payment ==> BackFrom(ContinueFrom(s)) == s
  {
  }

  class CheckoutPage {
    var currentStep: Step
    var shippingMethod: ShippingMethod
    var paymentMethod: PaymentMethod
    var orderPlaced: bool
    const cart: Cart.CartStore

    constructor (cart: Cart.CartStore)
      ensures currentStep == Information && shippingMethod == Standard && paymentMethod == CreditCard
      ensures !orderPlaced && this.cart == cart
    {
      currentStep := Information;
      shippingMethod := Standard;
      paymentMethod := CreditCard;
      orderPlaced := false;
      this.cart := cart;
    }

    /** `handleContinue`. */
    method HandleContinue()
      requires cart.Valid()
      modifies this, cart
      ensures cart.Valid()
      ensures shippingMethod == old(shippingMethod) && paymentMethod == old(paymentMethod)
      ensures old(currentStep) != Payment ==>
                currentStep == ContinueFrom(old(currentStep)) && orderPlaced == old(orderPlaced)
                && cart.items == old(cart.items)
      ensures old(currentStep) == Payment ==> currentStep == Payment && orderPlaced && cart.items == []
    {
      if currentStep == Information {
        currentStep := Shipping;
      } else if currentStep == Shipping {
        currentStep := Payment;
      } else {
        cart.ClearCart();
        orderPlaced := true;
      }
    }

    /** The "Back" button's two `if`s, both testing the step as rendered. */
    method HandleBack()
      modifies this
      ensures currentStep == BackFrom(old(currentStep))
      ensures shippingMethod == old(shippingMethod) && paymentMethod == old(paymentMethod)
      ensures orderPlaced == old(orderPlaced)
    {
      var rendered := currentStep;
      if rendered == Shipping { currentStep := Information; }
      if rendered == Payment { currentStep := Shipping; }
    }

    method SelectShippingMethod(m: ShippingMethod)
      modifies this
      ensures shippingMethod == m
      ensures currentStep == old(currentStep) && paymentMethod == old(paymentMethod) && orderPlaced == old(orderPlaced)
    {
      shippingMethod := m;
    }

    method SelectPaymentMethod(m: PaymentMethod)
      modifies this
      ensures paymentMethod == m
      ensures currentStep == old(currentStep) && shippingMethod == old(shippingMethod) && orderPlaced == old(orderPlaced)
    {
      paymentMethod := m;
    }
  }

  /** Three presses of "Continue" from a fresh page place the order and
      leave the cart empty. */
  method ContinueThroughCheckout(cart: Cart.CartStore) returns (page: CheckoutPage)
    requires cart.Valid()
    modifies cart
    ensures page.cart == cart && page.orderPlaced && cart.items == []
  {
    page := new CheckoutPage(cart);
    page.HandleContinue();
    assert page.currentStep == Shipping && !page.orderPlaced;
    page.HandleContinue();
    assert page.currentStep == Payment && !page.orderPlaced;
    page.HandleContinue();
  }
}
