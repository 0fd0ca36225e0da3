/**
 * The checkout page: the shipping-form validator, the order total, field
 * editing, and the submit handler that clears the cart and hands the order to
 * the confirmation page. Money is in integer cents (paise).
 */
module Checkout {
  import opened Optional
  import opened Text
  import opened Products

  // ---------------------------------------------------------------- the form

  datatype Field = FullName | Address | City | Pincode

  datatype FormData = FormData(fullName: string, address: string, city: string, pincode: string) {

    function Get(f: Field): string {
      match f
      case FullName => fullName
      case Address => address
      case City => city
      case Pincode => pincode
    }

    /** `{ ...prev, [field]: value }`. */
    function Set(f: Field, v: string): (r: FormData)
      ensures r.Get(f) == v
      ensures forall g :: g != f ==> r.Get(g) == Get(g)
    {
      match f
      case FullName => this.(fullName := v)
      case Address => this.(address := v)
      case City => this.(city := v)
      case Pincode => this.(pincode := v)
    }
  }

  const EmptyForm := FormData("", "", "", "")

  /** The errors object: one optional message per field. */
  datatype FormErrors = FormErrors(fullName: Option<string>, address: Option<string>,
                                   city: Option<string>, pincode: Option<string>) {

    function Get(f: Field): Option<string> {
      match f
      case FullName => fullName
      case Address => address
      case City => city
      case Pincode => pincode
    }

    function Set(f: Field, m: Option<string>): (r: FormErrors)
      ensures r.Get(f) == m
      ensures forall g :: g != f ==> r.Get(g) == Get(g)
    {
      match f
      case FullName => this.(fullName := m)
      case Address => this.(address := m)
      case City => this.(city := m)
      case Pincode => this.(pincode := m)
    }

    /** Whether the page renders a message under field `f` (`errors[f]` is truthy). */
    predicate Shown(f: Field) {
      Get(f).Some? && Get(f).value != ""
    }

    /** `Object.keys(errors).length` for an object that holds only the keys it was given messages for. */
    function KeyCount(): nat {
      (if fullName.Some? then 1 else 0) + (if address.Some? then 1 else 0)
      + (if city.Some? then 1 else 0) + (if pincode.Some? then 1 else 0)
    }
  }

  const NoErrors := FormErrors(None, None, None, None)

  const FullNameRequired := "Full name is required"
  const FullNameTooShort := "Name must be at least 2 characters"
  const AddressRequired := "Address is required"
  const AddressIncomplete := "Please enter a complete address"
  const CityRequired := "City is required"
  const PincodeRequired := "Pincode is required"
  const PincodeInvalid := "Please enter a valid pincode"

  const MinNameLength: nat := 2
  const MinAddressLength: nat := 10

  /** Full name: required first, then at least 2 UTF-16 code units after trimming. */
  function FullNameError(v: string): (r: Option<string>)
    ensures r == Some(FullNameRequired) <==> IsBlank(v)
    ensures r == Some(FullNameTooShort) <==> !IsBlank(v) && Utf16Length(Trim(v)) < MinNameLength
    ensures r == None <==> Utf16Length(Trim(v)) >= MinNameLength
  {
    TrimEmptyIffBlank(v);
    var t := Trim(v);
    if t == [] then Some(FullNameRequired)
    else if Utf16Length(t) < MinNameLength then Some(FullNameTooShort)
    else None
  }

  /** Address: required first, then at least 10 UTF-16 code units after trimming. */
  function AddressError(v: string): (r: Option<string>)
    ensures r == Some(AddressRequired) <==> IsBlank(v)
    ensures r == Some(AddressIncomplete) <==> !IsBlank(v) && Utf16Length(Trim(v)) < MinAddressLength
    ensures r == None <==> Utf16Length(Trim(v)) >= MinAddressLength
  {
    TrimEmptyIffBlank(v);
    var t := Trim(v);
    if t == [] then Some(AddressRequired)
    else if Utf16Length(t) < MinAddressLength then Some(AddressIncomplete)
    else None
  }

  /** City: only blankness is checked. */
  function CityError(v: string): (r: Option<string>)
    ensures r == Some(CityRequired) <==> IsBlank(v)
    ensures r == None <==> !IsBlank(v)
  {
    TrimEmptyIffBlank(v);
    if Trim(v) == [] then Some(CityRequired) else None
  }

  /** Pincode: required first, then `/^\d{5,6}$/` on the trimmed value. */
  function PincodeError(v: string): (r: Option<string>)
    ensures r == Some(PincodeRequired) <==> IsBlank(v)
    ensures r == None <==> 5 <= |Trim(v)| <= 6 && AllDigits(Trim(v))
    ensures r == Some(PincodeInvalid) <==> !IsBlank(v) && !(5 <= |Trim(v)| <= 6 && AllDigits(Trim(v)))
  {
    TrimEmptyIffBlank(v);
    DigitRangeMeaning(Trim(v), 5, 6);
    var t := Trim(v);
    if t == [] then Some(PincodeRequired)
    else if !MatchesDigitRange(t, 5, 6) then Some(PincodeInvalid)
    else None
  }

  function FieldError(f: Field, v: string): Option<string> {
    match f
    case FullName => FullNameError(v)
    case Address => AddressError(v)
    case City => CityError(v)
    case Pincode => PincodeError(v)
  }

  /** The errors object `validateForm` builds: each field's message depends on that field alone. */
  function Validate(form: FormData): (e: FormErrors)
    ensures forall f :: e.Get(f) == FieldError(f, form.Get(f))
  {
    FormErrors(FieldError(FullName, form.fullName), FieldError(Address, form.address),
               FieldError(City, form.city), FieldError(Pincode, form.pincode))
  }

  /** `validateForm()`'s answer: no key in the errors object. */
  predicate IsValid(form: FormData)
    ensures IsValid(form) <==> Validate(form) == NoErrors
  {
    Validate(form).KeyCount() == 0
  }

  /** The form is accepted exactly when all four acceptance conditions hold. */
  lemma ValidIff(form: FormData)
    ensures IsValid(form) <==>
              && Utf16Length(Trim(form.fullName)) >= MinNameLength
              && Utf16Length(Trim(form.address)) >= MinAddressLength
              && !IsBlank(form.city)
              && 5 <= |Trim(form.pincode)| <= 6 && AllDigits(Trim(form.pincode))
  {
    var e := Validate(form);
    assert e.Get(FullName) == e.fullName && e.Get(Address) == e.address;
    assert e.Get(City) == e.city && e.Get(Pincode) == e.pincode;
  }

  /** A name is too short exactly when it trims to one character of the Basic Multilingual Plane. */
  lemma NameTooShortIff(v: string)
    ensures FullNameError(v) == Some(FullNameTooShort) <==>
              |Trim(v)| == 1 && Trim(v)[0] as int <= 0xFFFF
  {
    TrimEmptyIffBlank(v);
    Utf16LengthBelowTwo(Trim(v));
  }

  /** Every message the validator produces is a non-empty string, so the page always shows it. */
  lemma ValidationMessagesShown(form: FormData, f: Field)
    ensures Validate(form).Get(f).Some? ==> Validate(form).Shown(f)
  {
  }

  // ------------------------------------------------------- shipping and total

  /** ₹4000 and ₹199, in paise. */
  const FreeShippingAbove: int := 400000
  const ShippingFee: int := 19900

  /** Free above ₹4000, otherwise ₹199. */
  function Shipping(subtotal: int): (s: int)
    ensures s == 0 <==> subtotal > FreeShippingAbove
    ensures s == 0 || s == ShippingFee
  {
    if subtotal > FreeShippingAbove then 0 else ShippingFee
  }

  function Total(subtotal: int): (t: int)
    ensures t == subtotal || t == subtotal + ShippingFee
    ensures t == subtotal <==> subtotal > FreeShippingAbove
  {
    subtotal + Shipping(subtotal)
  }

  /** A larger cart can cost less: ₹4000 pays ₹4199, ₹4000.01 pays ₹4000.01. */
  lemma TotalNotMonotone()
    ensures Total(FreeShippingAbove) > Total(FreeShippingAbove + 1)
  {
  }

  // -------------------------------------------------------- payment methods

  datatype PaymentMethod = Card | Upi | Cod

  /** The string id the radio buttons carry. */
  function MethodId(m: PaymentMethod): string {
    match m
    case Card => "card"
    case Upi => "upi"
    case Cod => "cod"
  }

  datatype PaymentOption = PaymentOption(kind: PaymentMethod, id: string, caption: string, description: string)

  /** The radio options, in display order. */
  const PaymentOptions: seq<PaymentOption> := [
    PaymentOption(Card, "card", "Credit / Debit Card", "Pay securely with your card"),
    PaymentOption(Upi, "upi", "UPI", "Pay using any UPI app"),
    PaymentOption(Cod, "cod", "Cash on Delivery", "Pay when you receive")
  ]

  /** The option for each method: ids are the method ids and every method is offered once. */
  function OptionFor(m: PaymentMethod): (o: PaymentOption)
    ensures o in PaymentOptions && o.kind == m && o.id == MethodId(m)
  {
    match m
    case Card => PaymentOptions[0]
    case Upi => PaymentOptions[1]
    case Cod => PaymentOptions[2]
  }

  // --------------------------------------------------------------- the page

  datatype CheckoutState = CheckoutState(form: FormData, errors: FormErrors, payment: PaymentMethod, processing: bool)

  const InitialState := CheckoutState(EmptyForm, NoErrors, Card, false)

  /** Typing into field `f`: set that field, and clear that field's message if one is shown. */
  function EditField(st: CheckoutState, f: Field, v: string): (r: CheckoutState)
    ensures r.form.Get(f) == v
    ensures forall g :: g != f ==> r.form.Get(g) == st.form.Get(g)
    ensures forall g :: g != f ==> r.errors.Get(g) == st.errors.Get(g)
    ensures !r.errors.Shown(f)
    ensures !st.errors.Shown(f) ==> r.errors == st.errors
    ensures r.payment == st.payment && r.processing == st.processing
  {
    var form := st.form.Set(f, v);
    if st.errors.Shown(f) then
      st.(form := form, errors := st.errors.Set(f, None))
    else
      st.(form := form)
  }

  /** Choosing a radio option changes the payment method and nothing else. */
  function SelectPayment(st: CheckoutState, o: PaymentOption): (r: CheckoutState)
    ensures r.payment == o.kind
    ensures r.form == st.form && r.errors == st.errors && r.processing == st.processing
  {
    st.(payment := o.kind)
  }

  /** `SV` followed by the last eight characters of the timestamp string (`slice(-8)`). */
  function OrderNumber(timestamp: string): (n: string)
    ensures |n| >= 2 && n[..2] == "SV"
    ensures |n| == 2 + (if |timestamp| < 8 then |timestamp| else 8)
    ensures n[2..] == timestamp[|timestamp| - (|n| - 2)..]
    ensures AllDigits(timestamp) ==> AllDigits(n[2..])
  {
    var tail := if |timestamp| < 8 then timestamp else timestamp[|timestamp| - 8..];
    var n := "SV" + tail;
    assert n[2..] == tail;
    n
  }

  /** The router state handed to the order confirmation page. */
  datatype OrderState = OrderState(orderNumber: string, total: int, paymentMethod: string)

  /** What a submit does outside the page's own state. */
  datatype Effect =
    | FixErrorsToast
    | CartEffect(call: CartCall)
    | NavigateToConfirmation(order: OrderState)

  datatype SubmitResult = SubmitResult(state: CheckoutState, effects: seq<Effect>)

  /**
   * Pressing Place Order with the cart's `subtotal` and the clock's digits
   * `timestamp`. While an order is being placed the button is disabled, and a
   * form whose default button is disabled is not submitted (implicit submission,
   * section 4.10.21.2 of the HTML Living Standard), so nothing happens.
   * Otherwise validation replaces the errors; only a valid form clears the cart
   * and navigates, carrying the total shown on the page.
   */
  function Submit(st: CheckoutState, subtotal: int, timestamp: string): (r: SubmitResult)
    ensures st.processing ==> r == SubmitResult(st, [])
    ensures !st.processing ==> r.state.errors == Validate(st.form)
    ensures r.state.form == st.form && r.state.payment == st.payment
    ensures CartEffect(ClearCart) in r.effects <==> !st.processing && IsValid(st.form)
    ensures !st.processing && !IsValid(st.form) ==> r.effects == [FixErrorsToast] && !r.state.processing
    ensures !st.processing && IsValid(st.form) ==>
              && r.state.processing
              && r.state.errors == NoErrors
              && r.effects == [CartEffect(ClearCart),
                               NavigateToConfirmation(OrderState(OrderNumber(timestamp), Total(subtotal), MethodId(st.payment)))]
  {
    if st.processing then SubmitResult(st, [])
    else
      var errors := Validate(st.form);
      if errors.KeyCount() != 0 then
        SubmitResult(st.(errors := errors), [FixErrorsToast])
      else
        SubmitResult(st.(errors := errors, processing := true),
                     [CartEffect(ClearCart),
                      NavigateToConfirmation(OrderState(OrderNumber(timestamp), Total(subtotal), MethodId(st.payment)))])
  }

  /** Submitting the untouched page reports all four fields as required and leaves the page. */
  lemma UntouchedSubmitRejected(subtotal: int, timestamp: string)
    ensures var r := Submit(InitialState, subtotal, timestamp);
            && r.effects == [FixErrorsToast]
            && r.state == InitialState.(errors := FormErrors(Some(FullNameRequired), Some(AddressRequired),
                                                             Some(CityRequired), Some(PincodeRequired)))
  {
    assert IsBlank("");
  }

  /** What the shopper does on the page. */
  datatype PageEvent =
    | Type(field: Field, value: string)
    | Choose(option: PaymentOption)
    | Press(subtotal: int, timestamp: string)

  function Step(st: CheckoutState, e: PageEvent): SubmitResult {
    match e
    case Type(f, v) => SubmitResult(EditField(st, f, v), [])
    case Choose(o) => SubmitResult(SelectPayment(st, o), [])
    case Press(subtotal, timestamp) => Submit(st, subtotal, timestamp)
  }

  /** The final state and every effect, in order, of a sequence of events. */
  function Session(st: CheckoutState, events: seq<PageEvent>): SubmitResult
    decreases |events|
  {
    if events == [] then SubmitResult(st, [])
    else
      var first := Step(st, events[0]);
      var rest := Session(first.state, events[1..]);
      SubmitResult(rest.state, first.effects + rest.effects)
  }

  /**
   * However the shopper types, chooses and presses, the cart is cleared at most
   * once, and never once an order is being placed; placing one is never undone.
   */
  lemma {:induction false} AtMostOneOrder(st: CheckoutState, events: seq<PageEvent>)
    ensures var r := Session(st, events);
            && (st.processing ==> r.state.processing)
            && multiset(r.effects)[CartEffect(ClearCart)] <= (if st.processing then 0 else 1)
    decreases |events|
  {
    if events != [] {
      var first := Step(st, events[0]);
      var rest := Session(first.state, events[1..]);
      AtMostOneOrder(first.state, events[1..]);
      assert multiset(first.effects + rest.effects) == multiset(first.effects) + multiset(rest.effects);
      if first.state.processing && !st.processing {
        assert first.effects == [CartEffect(ClearCart), first.effects[1]];
      }
    }
  }

  // -------------------------------------------------------- the order summary

  datatype CheckoutView =
    | RedirectToCart
    | OrderSummary(preview: seq<CartItem>, moreItems: Option<nat>, subtotal: int, shipping: int, total: int)

  const PreviewSize: nat := 3

  /** The page for the cart's `items` and `subtotal`: an empty cart sends the shopper back to the cart. */
  function Summary(items: seq<CartItem>, subtotal: int): (v: CheckoutView)
    ensures v.RedirectToCart? <==> items == []
    ensures v.OrderSummary? ==>
              && |v.preview| == (if |items| < PreviewSize then |items| else PreviewSize)
              && (forall i :: 0 <= i < |v.preview| ==> v.preview[i] == items[i])
              && (v.moreItems.Some? <==> |items| > PreviewSize)
              && (v.moreItems.Some? ==> |v.preview| + v.moreItems.value == |items|)
              && v.subtotal == subtotal
              && v.total == v.subtotal + v.shipping
              && (v.shipping == 0 <==> subtotal > FreeShippingAbove)
              && v.shipping == Shipping(subtotal) && v.total == Total(subtotal)
  {
    if items == [] then RedirectToCart
    else
      var n := if |items| < PreviewSize then |items| else PreviewSize;
      OrderSummary(items[..n], if |items| > PreviewSize then Some(|items| - PreviewSize) else None,
                   subtotal, Shipping(subtotal), Total(subtotal))
  }
}
