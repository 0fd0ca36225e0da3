/**
 * The cart page: the per-line totals and quantity buttons, and the order
 * summary with its own shipping rule ($50 threshold, $9.99 fee), which differs
 * from the checkout page's. Money is in integer cents. The cart store is not
 * part of this model: the items and `getSubtotal()` are inputs and the
 * buttons produce store calls as data.
 */
module CartPage {
  import opened Optional
  import opened Products
  import Checkout

  /** $50 and $9.99, in cents. */
  const FreeShippingAbove: int := 5000
  const ShippingFee: int := 999

  /** Free above $50, otherwise $9.99. */
  function Shipping(subtotal: int): (s: int)
    ensures s == 0 <==> subtotal > FreeShippingAbove
    ensures s == 0 || s == ShippingFee
  {
    if subtotal > FreeShippingAbove then 0 else ShippingFee
  }

  /** The amount in "Add $X more for free shipping", as the page computes it: `50 - subtotal`. */
  function HintAsWritten(subtotal: int): int {
    FreeShippingAbove - subtotal
  }

  /** Adding the advertised amount lands exactly on $50, which still pays shipping. */
  lemma HintFallsShort(subtotal: int)
    requires Shipping(subtotal) > 0
    ensures HintAsWritten(subtotal) >= 0
    ensures Shipping(subtotal + HintAsWritten(subtotal)) == ShippingFee
  {
  }

  /** The least amount that, added to the cart, makes shipping free. */
  function Shortfall(subtotal: int): (a: int)
    requires Shipping(subtotal) > 0
    ensures a >= 1
    ensures Shipping(subtotal + a) == 0
    ensures forall t :: subtotal <= t < subtotal + a ==> Shipping(t) > 0
  {
    FreeShippingAbove + 1 - subtotal
  }

  datatype OrderSummary = OrderSummary(subtotal: int, shipping: int, total: int, hint: Option<int>)

  /** The summary box: total is subtotal plus shipping; the hint appears only while shipping is charged. */
  function Summary(subtotal: int): (m: OrderSummary)
    ensures m.subtotal == subtotal
    ensures m.shipping == 0 <==> subtotal > FreeShippingAbove
    ensures m.total == subtotal || m.total == subtotal + ShippingFee
    ensures m.total == subtotal + m.shipping
    ensures m.hint.Some? <==> m.shipping > 0
    ensures m.hint.Some? ==> m.hint.value >= 0 && subtotal + m.hint.value == FreeShippingAbove
  {
    var s := Shipping(subtotal);
    OrderSummary(subtotal, s, subtotal + s, if s > 0 then Some(HintAsWritten(subtotal)) else None)
  }

  /** One rendered cart line and the store calls its buttons make. */
  datatype LineView = LineView(productId: string, quantity: int, lineTotal: int,
                               decrease: CartCall, increase: CartCall, remove: CartCall)

  function Line(item: CartItem): (l: LineView)
    ensures l.productId == item.product.id && l.quantity == item.quantity
    ensures l.lineTotal == item.product.price * item.quantity
    ensures l.decrease.UpdateQuantity? && l.increase.UpdateQuantity?
    ensures l.decrease.productId == l.increase.productId == item.product.id
    ensures l.decrease.quantity + 1 == item.quantity == l.increase.quantity - 1
    ensures l.remove == RemoveFromCart(item.product.id)
  {
    LineView(item.product.id, item.quantity, item.product.price * item.quantity,
             UpdateQuantity(item.product.id, item.quantity - 1),
             UpdateQuantity(item.product.id, item.quantity + 1),
             RemoveFromCart(item.product.id))
  }

  datatype CartView =
    | EmptyCart
    | Filled(lines: seq<LineView>, summary: OrderSummary)

  /** The page for the store's `items` and `getSubtotal()`: an empty cart shows no summary. */
  function View(items: seq<CartItem>, subtotal: int): (v: CartView)
    ensures v.EmptyCart? <==> items == []
    ensures v.Filled? ==>
              && |v.lines| == |items|
              && (forall i :: 0 <= i < |items| ==> v.lines[i] == Line(items[i]))
              && v.summary == Summary(subtotal)
  {
    if items == [] then EmptyCart
    else Filled(seq(|items|, i requires 0 <= i < |items| => Line(items[i])), Summary(subtotal))
  }

  /**
   * The cart page and the checkout page charge the same shipping only when both
   * waive it: at or below ₹4000 / $50 their rules always differ.
   */
  lemma ShippingRulesAgreeOnlyWhenFree(subtotal: int)
    ensures Shipping(subtotal) == Checkout.Shipping(subtotal) <==> subtotal > Checkout.FreeShippingAbove
  {
  }

  /** A concrete subtotal ($60) that the cart ships free and the checkout charges for. */
  lemma ShippingRulesDisagree()
    ensures Summary(6000).total == 6000
    ensures Checkout.Total(6000) == 6000 + Checkout.ShippingFee
  {
  }
}
