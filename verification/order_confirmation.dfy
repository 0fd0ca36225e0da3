/**
 * The order confirmation page: it shows the order the checkout handed over,
 * with a readable payment-method label, and sends the shopper home when there
 * is no order. The confetti animation is outside the model.
 */
module OrderConfirmation {
  import opened Optional
  import Checkout

  datatype ConfirmationView =
    | RedirectHome
    | Confirmation(orderNumber: string, total: int, paymentLabel: string)

  /** The label lookup `{ card: ..., upi: ..., cod: ... }[id] || id`. */
  function PaymentMethodLabel(id: string): (shown: string)
    ensures id == "card" ==> shown == "Credit / Debit Card"
    ensures id == "upi" ==> shown == "UPI"
    ensures id == "cod" ==> shown == "Cash on Delivery"
    ensures id != "card" && id != "upi" && id != "cod" ==> shown == id
  {
    if id == "card" then "Credit / Debit Card"
    else if id == "upi" then "UPI"
    else if id == "cod" then "Cash on Delivery"
    else id
  }

  /** The page for the router `state`: no state, or an empty order number, redirects home and shows nothing. */
  function View(state: Option<Checkout.OrderState>): (v: ConfirmationView)
    ensures v.RedirectHome? <==> state.None? || state.value.orderNumber == ""
    ensures v.Confirmation? ==>
              && v.orderNumber == state.value.orderNumber
              && v.total == state.value.total
              && v.paymentLabel == PaymentMethodLabel(state.value.paymentMethod)
  {
    match state
    case None => RedirectHome
    case Some(s) =>
      if s.orderNumber == "" then RedirectHome
      else Confirmation(s.orderNumber, s.total, PaymentMethodLabel(s.paymentMethod))
  }

  /** Every option the checkout offers is labelled here exactly as the checkout labels it. */
  lemma LabelsMatchCheckout()
    ensures forall i :: 0 <= i < |Checkout.PaymentOptions| ==>
              PaymentMethodLabel(Checkout.PaymentOptions[i].id) == Checkout.PaymentOptions[i].caption
  {
    assert Checkout.PaymentOptions[0].id == "card";
    assert Checkout.PaymentOptions[1].id == "upi";
    assert Checkout.PaymentOptions[2].id == "cod";
  }

  /**
   * A valid checkout submit (the button is enabled only while no order is being
   * placed) navigates to a confirmation that is shown (its order number is never
   * empty) with the checkout's total and payment label.
   */
  lemma PlacedOrderIsConfirmed(st: Checkout.CheckoutState, subtotal: int, timestamp: string)
    requires !st.processing && Checkout.IsValid(st.form)
    ensures var r := Checkout.Submit(st, subtotal, timestamp);
            && |r.effects| == 2
            && r.effects[1].NavigateToConfirmation?
            && View(Some(r.effects[1].order)) ==
                 Confirmation(Checkout.OrderNumber(timestamp), Checkout.Total(subtotal),
                              Checkout.OptionFor(st.payment).caption)
  {
    var r := Checkout.Submit(st, subtotal, timestamp);
    var order := Checkout.OrderState(Checkout.OrderNumber(timestamp), Checkout.Total(subtotal),
                                     Checkout.MethodId(st.payment));
    assert r.effects[1] == Checkout.NavigateToConfirmation(order);
    assert order.orderNumber != "";
    LabelForMethod(st.payment);
  }

  /** The label shown for a method's id is the caption of that method's checkout option. */
  lemma LabelForMethod(m: Checkout.PaymentMethod)
    ensures PaymentMethodLabel(Checkout.MethodId(m)) == Checkout.OptionFor(m).caption
  {
    LabelsMatchCheckout();
  }
}
