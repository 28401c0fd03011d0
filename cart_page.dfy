/** The cart page's arithmetic (`src/pages/CartPage.tsx`): the shipping
    threshold, the order total, each line's amount, and the values the
    quantity buttons send to the store. The subtotal and the tax are inputs:
    the page reads a `totalPrice()` the store does not define, and the tax is
    a floating-point rounding. Amounts are in minor currency units. */
module CartPage {
  import opened Wrappers
  import Cart

  /** Above this subtotal shipping is free. */
  const FreeShippingAbove: int := 99900
  const StandardShipping: int := 9900

  function Shipping(subtotal: int): (s: int)
    ensures s == 0 <==> subtotal > FreeShippingAbove
    ensures s != 0 ==> s == StandardShipping
  {
    if subtotal > FreeShippingAbove then 0 else StandardShipping
  }

  /** What the page renders: the empty state, or the lines' amounts and the
      order summary. */
  datatype CartView =
    | EmptyCart
    | WithSummary(amounts: seq<int>, subtotal: int, shipping: int, tax: int, total: int)

  function Render(items: seq<Cart.CartItem>, subtotal: int, tax: int): (v: CartView)
    ensures v.EmptyCart? <==> items == []
    ensures v.WithSummary? ==>
              && |v.amounts| == |items|
              && (forall k :: 0 <= k < |items| ==> v.amounts[k] == items[k].price * items[k].quantity)
              && v.subtotal == subtotal && v.tax == tax
              && v.shipping == Shipping(subtotal)
              && v.total == subtotal + v.shipping + tax
  {
    if |items| == 0 then EmptyCart
    else
      var shipping := Shipping(subtotal);
      WithSummary(seq(|items|, k requires 0 <= k < |items| => Cart.Amount(items[k])),
                  subtotal, shipping, tax, subtotal + shipping + tax)
  }

  /** The amounts shown beside the lines add up to the store's total. */
  lemma {:induction false} AmountsSumToTotal(items: seq<Cart.CartItem>)
    requires items != []
    ensures Sum(Render(items, Cart.Total(items), 0).amounts) == Cart.Total(items)
    decreases |items|
  {
    var n := |items| - 1;
    var a := Render(items, Cart.Total(items), 0).amounts;
    if n > 0 {
      AmountsSumToTotal(items[..n]);
      assert Render(items[..n], Cart.Total(items[..n]), 0).amounts == a[..n];
    }
    assert a == a[..n] + [a[n]];
    SumAppend(a[..n], a[n]);
  }

  function Sum(s: seq<int>): int {
    if s == [] then 0 else Sum(s[..|s| - 1]) + s[|s| - 1]
  }

  lemma SumAppend(s: seq<int>, x: int)
    ensures Sum(s + [x]) == Sum(s) + x
  {
    assert (s + [x])[..|s|] == s;
  }

  /** The "-" button asks for `Math.max(1, quantity - 1)`. */
  function DecrementRequest(quantity: int): (q: int)
    ensures q >= 1
    ensures quantity >= 2 ==> q == quantity - 1
    ensures quantity <= 2 ==> q == 1
  {
    if quantity - 1 > 1 then quantity - 1 else 1
  }

  /** The "+" button asks for `quantity + 1`. */
  function IncrementRequest(quantity: int): (q: int)
    ensures q > quantity
    ensures q == quantity + 1
  {
    quantity + 1
  }

  /** Above 1 the two buttons undo each other; at 1 "-" stays at 1. */
  lemma StepButtonsInverse(quantity: int)
    ensures quantity >= 1 ==> DecrementRequest(IncrementRequest(quantity)) == quantity
    ensures quantity >= 2 ==> IncrementRequest(DecrementRequest(quantity)) == quantity
    ensures DecrementRequest(1) == 1
  {
  }

  /** Pressing "-" on line `k` sends `updateQuantity(id, ...)`. */
  method PressDecrement(cart: Cart.CartStore, k: int)
    requires cart.Valid() && 0 <= k < |cart.items|
    modifies cart
    ensures cart.Valid()
    ensures cart.items == Cart.UpdatedItems(old(cart.items), old(cart.items[k].id), DecrementRequest(old(cart.items[k].quantity)))
  {
    var line := cart.items[k];
    cart.UpdateQuantity(line.id, DecrementRequest(line.quantity));
  }

  method PressIncrement(cart: Cart.CartStore, k: int)
    requires cart.Valid() && 0 <= k < |cart.items|
    modifies cart
    ensures cart.Valid()
    ensures cart.items == Cart.UpdatedItems(old(cart.items), old(cart.items[k].id), IncrementRequest(old(cart.items[k].quantity)))
  {
    var line := cart.items[k];
    cart.UpdateQuantity(line.id, IncrementRequest(line.quantity));
  }

  /** Because the store updates by id, "-" on one size of a product also
      overwrites the other size's quantity: with M at 3 and L at 1, "-" on L
      leaves both at 1. */
  lemma DecrementReachesOtherVariants()
    ensures var m := Cart.CartItem("1", "Tee", "t.jpg", 1999, 3, None, Some("M"));
            var l := m.(quantity := 1, size := Some("L"));
            Cart.UpdatedItems([m, l], l.id, DecrementRequest(l.quantity)) == [m.(quantity := 1), l]
  {
  }
}
