# Storefront page rules, modelled in Dafny

This project models the decision rules in the page components of a small
React storefront (prime-cart / "ShopVerse"). It covers the checkout form
validator, order total and submission, and the demo login/signup context that
mirrors the user into browser storage. It also covers the discount, badge,
star and quantity-stepper rules on product cards and the product page, the
cart page's order summary and quantity buttons, and the payment-method label
on the order confirmation page.

The cart store, the wishlist store and the product catalog are not part of
this model. The pages only read values from them and call them. So the cart
items, `getSubtotal()`, the catalog lookups and wishlist membership are
inputs here. The calls a page makes (`addToCart`, `updateQuantity`,
`removeFromCart`, `clearCart`, `toggleWishlist`) are returned as data
(`Products.CartCall`, `Products.WishlistCall`).

Conventions:
- Money is in integer cents. Checkout's ₹4000 / ₹199 become 400000 / 19900.
  The cart page's $50 / $9.99 become 5000 / 999. Both pages read the same
  `getSubtotal()`, so each shipping rule takes that same subtotal in cents.
- `Math.round(x)` is floor(x + 1/2). The discount is stated by its rounding
  property: o·(2d − 1) ≤ 200·(o − p) < o·(2d + 1) for an original price o > 0.
  For o < 0 both inequalities flip.
- `{n && <element/>}` with the number `n` equal to 0 renders the text "0".
  So a zero original price shows a stray "0" after the price
  (`ProductDisplay.PriceExtraOf`).
- The submit handler has no guard of its own. It is not reached while an order
  is being placed, because the only submit button is then disabled. A form
  whose default button is disabled is not submitted implicitly (section
  4.10.21.2 of the HTML Living Standard). `Checkout.Submit` therefore does
  nothing while processing.
- `trim()` removes exactly the ECMAScript WhiteSpace and LineTerminator code
  points, listed in `Text.IsWhitespace`.
- `.length` counts UTF-16 code units: a character above U+FFFF counts 2.
- `/^\d{5,6}$/` is a greedy, bounded scan over ASCII digits.
- Ratings are `real`, so `Math.floor` is exact.

Modules: `Optional`, `Text`, `Products`, `ProductDisplay` (the rules the
card and the product page share), `ProductDetail`, `ProductCard`, `CartPage`,
`Checkout`, `Auth` and `OrderConfirmation`.

The login comment says "accept any valid email format", but the code checks
only that the email is non-empty. The model follows the code
(`Auth.LoginAcceptsAnyNonEmptyEmail`).

## Model

| member | source | states |
|---|---|---|
| Text.TrimStartShape | src/pages/CheckoutPage.tsx:45 | the leading pass of `trim()` leaves the input minus a prefix made only of whitespace |
| Text.TrimEndShape | src/pages/CheckoutPage.tsx:45 | the trailing pass of `trim()` leaves a prefix of its input, followed in the input only by whitespace |
| Text.Trim | src/pages/CheckoutPage.tsx:45 | `trim()` never lengthens its input, and its result neither starts nor ends with whitespace (TrimIsCore and TrimDecomposes pin it completely) |
| Text.TrimIsCore | src/pages/CheckoutPage.tsx:45 | `trim()` of a whitespace run, a core with no whitespace at either end, and another whitespace run returns exactly the core |
| Text.TrimDecomposes | src/pages/CheckoutPage.tsx:45 | the trimmed value is a contiguous piece of the input, with only whitespace before and after it |
| Text.TrimEmptyIffBlank | src/pages/CheckoutPage.tsx:45 | a value trims to the empty (falsy) string exactly when every character is whitespace |
| Text.TrimOfTrimmed | src/pages/CheckoutPage.tsx:45 | a value that neither starts nor ends with whitespace is returned unchanged by `trim()` |
| Text.TrimIdempotent | src/pages/CheckoutPage.tsx:45 | trimming a trimmed value changes nothing |
| Text.Utf16Length | src/pages/CheckoutPage.tsx:47 | `.length` counts each character as 1 or 2 code units, so it lies between the character count and twice it, and is 0 only for the empty string |
| Text.Utf16LengthBelowTwo | src/pages/CheckoutPage.tsx:47 | a length below 2 means the empty string or one character of the Basic Multilingual Plane |
| Text.LeadingDigits | src/pages/CheckoutPage.tsx:63 | the greedy `\d{0,n}` run: every character it consumes is an ASCII digit, and it stops only at the cap, at the end of the string, or at a non-digit |
| Text.DigitRangeMeaning | src/pages/CheckoutPage.tsx:63 | the anchored pattern `^\d{5,6}$` accepts exactly the strings of 5 or 6 ASCII digits |
| Text.BeforeFirstSplits | src/context/AuthContext.tsx:41 | `split("@")[0]` is the whole email when it has no `@`; otherwise the email is that prefix, then `@`, then the rest |
| Checkout.FullNameError | src/pages/CheckoutPage.tsx:45-49 | a blank name gets "Full name is required", a non-blank name under 2 code units after trimming gets "Name must be at least 2 characters", and anything else gets no error |
| Checkout.NameTooShortIff | src/pages/CheckoutPage.tsx:47-48 | "too short" happens exactly when the trimmed name is one BMP character |
| Checkout.AddressError | src/pages/CheckoutPage.tsx:51-55 | blank gives "Address is required", under 10 code units after trimming gives "Please enter a complete address", otherwise no error |
| Checkout.CityError | src/pages/CheckoutPage.tsx:57-59 | a city gets "City is required" exactly when blank; any non-blank city is accepted |
| Checkout.PincodeError | src/pages/CheckoutPage.tsx:61-65 | no error iff the trimmed pincode is 5 or 6 ASCII digits; blank gives "required", never "valid pincode"; anything else gives "Please enter a valid pincode" |
| Checkout.Validate | src/pages/CheckoutPage.tsx:42-67 | each field gets at most one message, and that message depends only on the field's own value |
| Checkout.IsValid | src/pages/CheckoutPage.tsx:67-68 | `validateForm()` returns true exactly when the errors object it builds holds no message for any field |
| Checkout.ValidIff | src/pages/CheckoutPage.tsx:42-68 | `validateForm()` is true iff all four acceptance conditions hold: name ≥ 2 and address ≥ 10 code units trimmed, city not blank, pincode 5–6 digits |
| Checkout.ValidationMessagesShown | src/pages/CheckoutPage.tsx:149-151 | every message the validator produces is a non-empty string, so it is rendered under its field |
| Checkout.Shipping | src/pages/CheckoutPage.tsx:39 | shipping is 0 exactly when the subtotal exceeds ₹4000, and ₹199 otherwise |
| Checkout.Total | src/pages/CheckoutPage.tsx:40 | total − subtotal is 0 or ₹199, and it is 0 exactly above ₹4000 |
| Checkout.TotalNotMonotone | src/pages/CheckoutPage.tsx:38-40 | a ₹4000 cart costs more in total than a ₹4000.01 cart |
| Checkout.OptionFor | src/pages/CheckoutPage.tsx:213-216 | each payment method is offered as a radio option whose id is that method's id |
| Checkout.SelectPayment | src/pages/CheckoutPage.tsx:231 | choosing an option sets the payment method to it and leaves the form, errors and processing flag alone |
| Checkout.EditField | src/pages/CheckoutPage.tsx:71-76 | typing sets only that field; afterwards no message is shown for it; if none was shown, the errors are untouched; other fields' values and errors never change |
| Checkout.OrderNumber | src/pages/CheckoutPage.tsx:98 | the order number is "SV" followed by the last 8 characters of the timestamp (all of it when shorter), digits only when the timestamp is |
| Checkout.Submit | src/pages/CheckoutPage.tsx:78-311 | while an order is being placed the disabled button submits nothing and the page is unchanged; otherwise errors are replaced by the validation result; an invalid form only shows the fix-errors toast, with no cart clearing and no navigation; a valid form sets processing, clears the cart and navigates with the order number, the page's total and the chosen method id |
| Checkout.UntouchedSubmitRejected | src/pages/CheckoutPage.tsx:26-87 | pressing Place Order on the freshly opened page marks all four fields as required, shows only the fix-errors toast and keeps the form, method and processing flag |
| Checkout.AtMostOneOrder | src/pages/CheckoutPage.tsx:78-311 | over any sequence of typing, choosing and pressing, the cart is cleared at most once, never after an order is under way, and an order under way stays under way |
| Checkout.Summary | src/pages/CheckoutPage.tsx:105-305 | an empty cart redirects to the cart page; otherwise the first three items are previewed, "+N more" appears exactly when there are more than three and accounts for the rest, shipping is the checkout rule's amount (0 above ₹4000, otherwise ₹199), and the total is subtotal plus that shipping |
| Auth.Boot | src/context/AuthContext.tsx:20-31 | at start-up the user is the saved one and storage mirrors it |
| Auth.Commit | src/context/AuthContext.tsx:25-31 | after every user change the storage slot holds the user, or is removed when the user is null |
| Auth.DisplayName | src/context/AuthContext.tsx:41 | the login display name has no `@` and is the part of the email before the first `@`, or the whole email without one |
| Auth.IsAuthenticated | src/context/AuthContext.tsx:74 | `!!user`; whenever storage mirrors the user, it is true exactly when the storage slot holds a user |
| Auth.Login | src/context/AuthContext.tsx:33-48 | login succeeds iff the email is non-empty and the password has ≥ 6 code units; success stores {fresh id, display name, email unchanged}, mirrored to storage; failure changes nothing |
| Auth.LoginAcceptsAnyNonEmptyEmail | src/context/AuthContext.tsx:37-38 | no email format is checked: any non-empty email, even one without `@`, logs in with a long enough password and then serves as its own display name |
| Auth.Signup | src/context/AuthContext.tsx:50-64 | signup succeeds iff name and email are non-empty and the password has ≥ 6 code units; name and email are stored verbatim; failure changes nothing |
| Auth.Logout | src/context/AuthContext.tsx:66-68 | after logout `isAuthenticated` is false and the storage slot is removed |
| Auth.SessionKeepsStorageMirrored | src/context/AuthContext.tsx:25-31 | from start-up, after any sequence of logins, signups and logouts, storage mirrors the current user |
| Auth.RejectedAttemptsChangeNothing | src/context/AuthContext.tsx:38-47 | any number of rejected login or signup attempts leaves user and storage exactly as they were |
| Auth.LogoutEndsSession | src/context/AuthContext.tsx:66-74 | whatever came before, a session ending in logout is unauthenticated with empty storage |
| ProductDisplay.RoundDiv | src/pages/ProductDetailPage.tsx:62 | `Math.round(n / d)`: the result q satisfies q − 1/2 ≤ n/d < q + 1/2 |
| ProductDisplay.DiscountPercent | src/pages/ProductDetailPage.tsx:61-63 | the discount is 0 without a truthy original price; otherwise it is round((o − p) / o × 100), stated by its rounding bounds for a positive and for a negative original price |
| ProductDisplay.PriceExtraOf | src/pages/ProductDetailPage.tsx:133-137 | after the price nothing is shown without an original price, the struck-through original price when it is non-zero, and a bare "0" when it is zero |
| ProductDisplay.DiscountInRange | src/pages/ProductDetailPage.tsx:61-63 | when 0 ≤ price ≤ originalPrice the discount lies in 0..100 |
| ProductDisplay.ProductBadges | src/pages/ProductDetailPage.tsx:89-98 | the sale badge shows iff isSale and discount > 0, with that percentage; NEW shows iff isNew and not isSale; they never show together |
| ProductDisplay.SaleBadgeIff | src/pages/ProductDetailPage.tsx:89 | with a positive original price, the sale badge shows iff the item is on sale and marked down by at least half a percent |
| ProductDisplay.Stars | src/pages/ProductDetailPage.tsx:113-117 | five stars; star i is filled iff i < floor(rating) |
| ProductDisplay.FilledStars | src/pages/ProductDetailPage.tsx:113-117 | the filled count is floor(rating) clamped to 0..5, i.e. min(5, floor(rating)) for rating ≥ 0 |
| ProductDisplay.WishlistToggle | src/pages/ProductDetailPage.tsx:51-58 | the toggle call goes to the product; the toast says "Removed" iff the product was in the wishlist before the toggle, otherwise "Added" |
| ProductDetail.Decrement | src/pages/ProductDetailPage.tsx:148 | "−" lowers the quantity by one but never below 1 |
| ProductDetail.Increment | src/pages/ProductDetailPage.tsx:155 | "+" raises the quantity, and from any valid quantity a following "−" restores it exactly (so "+" adds one) |
| ProductDetail.RunStaysPositive | src/pages/ProductDetailPage.tsx:148-155 | from any quantity ≥ 1, every sequence of presses keeps it ≥ 1 and raises it by at most one per press |
| ProductDetail.StepperInverses | src/pages/ProductDetailPage.tsx:148-155 | "+" then "−" restores the quantity; "−" then "+" does too above 1; "−" at 1 stays at 1 |
| ProductDetail.AddToCartCall | src/pages/ProductDetailPage.tsx:43-44 | Add to Cart passes the product with the stepper's quantity explicitly |
| ProductDetail.AddedQuantityPositive | src/pages/ProductDetailPage.tsx:17 | starting at 1, whatever the presses, the quantity passed to the cart is ≥ 1 |
| ProductDetail.WithoutId | src/pages/ProductDetailPage.tsx:38 | the filter keeps exactly the products with a different id, each as many times as it was listed, in their original order |
| ProductDetail.RelatedProducts | src/pages/ProductDetailPage.tsx:37-39 | exactly the first min(4, n) of the n listed products with a different id, in listing order; so none has the product's own id, fewer than 4 only when every other listed product is included, and all share the category when the listing does |
| ProductDetail.Open | src/pages/ProductDetailPage.tsx:14-137 | an unknown id shows the not-found view; a known one, when the page first loads, shows the product with quantity 1, its related products, discount, badges, stars, the text after the price (including the stray "0") and wishlist state |
| ProductDetail.ToggleFromDetail | src/pages/ProductDetailPage.tsx:41-58 | the heart button toasts "Removed" iff membership was read as true when the page rendered, before the toggle |
| ProductCard.Card | src/components/ProductCard.tsx:39-122 | the card's discount, badges and text after the price are exactly the shared rules the product page uses (same formula, same badge conditions and percentage); the badges are mutually exclusive; the discount is 0 with no strike price; the original price is struck through iff it is non-zero, and a bare "0" follows the price iff it is zero; star i is filled iff i < floor(rating); the heart's aria-label says "Remove" iff the product is in the wishlist |
| ProductCard.QuickAdd | src/components/ProductCard.tsx:17-20 | quick add calls `addToCart(product)` with no explicit quantity |
| ProductCard.ToggleFromCard | src/components/ProductCard.tsx:27-37 | the toast title and the aria-label both describe the membership before the toggle |
| CartPage.Shipping | src/pages/CartPage.tsx:11 | cart shipping is 0 iff the subtotal exceeds $50, otherwise $9.99 |
| CartPage.Summary | src/pages/CartPage.tsx:10-12 | total is subtotal plus shipping; the "add X more" hint appears iff shipping is charged, and then its amount, 50 − subtotal, is ≥ 0 |
| CartPage.HintFallsShort | src/pages/CartPage.tsx:139-143 | adding the displayed amount brings the subtotal to exactly $50, which still pays $9.99 |
| CartPage.Shortfall | src/pages/CartPage.tsx:139-143 | the corrected hint: the least amount whose addition makes cart shipping free |
| CartPage.Line | src/pages/CartPage.tsx:80-112 | a line shows price × quantity; its buttons request quantity − 1 and quantity + 1 for that line's product id only, and removal of that id |
| CartPage.View | src/pages/CartPage.tsx:14-36 | an empty item list renders the empty-cart state; otherwise one line per item, in order, plus the summary |
| CartPage.ShippingRulesAgreeOnlyWhenFree | src/pages/CartPage.tsx:11 | the cart's rule and the checkout's rule charge the same shipping iff the subtotal exceeds ₹4000 (both free) |
| CartPage.ShippingRulesDisagree | src/pages/CartPage.tsx:11-12 | a $60 cart totals $60 on the cart page but 60 + 199 at checkout |
| OrderConfirmation.PaymentMethodLabel | src/pages/OrderConfirmationPage.tsx:62-66 | "card", "upi" and "cod" map to their labels; any other id is shown verbatim |
| OrderConfirmation.View | src/pages/OrderConfirmationPage.tsx:58-60 | no router state or an empty order number redirects home and renders nothing; otherwise the order number, total and label are shown |
| OrderConfirmation.LabelsMatchCheckout | src/pages/OrderConfirmationPage.tsx:62-65 | every method the checkout offers is labelled exactly as the checkout's radio option labels it |
| OrderConfirmation.LabelForMethod | src/pages/OrderConfirmationPage.tsx:62-66 | the label shown for a method's id is the caption of that method's checkout radio option |
| OrderConfirmation.PlacedOrderIsConfirmed | src/pages/CheckoutPage.tsx:95-102 | a valid checkout submitted while no order is under way navigates to a confirmation that is shown (never redirected), with the same order number, the checkout total and the checkout's label for the chosen method |

## Left out

- The cart store, the wishlist store and the catalog (`CartContext`, `WishlistContext`, `data/products`) are not part of this model. `getSubtotal`, `getTotalItems`, `getProductById`, `getProductsByCategory` and `isInWishlist` appear only as inputs. The cart page heading's item count is not modelled.
- The simulated 500 ms and 2000 ms delays are not modelled. Login, signup and submit are applied to the state they start from. The processing flag is never reset in the source, and the model does not reset it either.
- `Date.now()` is a parameter: the timestamp's digit string. `crypto.randomUUID()` is a parameter too: the fresh user id.
- `localStorage` and JSON are reduced to an optional stored user. A corrupt slot that makes `JSON.parse` throw at start-up, and a slot holding the empty string, are not modelled.
- Floating point is not modelled: money is exact integer cents. Float error in the subtotal, in `(o − p) / o × 100` and in the `> 50` / `> 4000` comparisons is out of scope.
- Display formatting is not modelled: `toFixed(2)`, `toLocaleString`, and the add-to-cart toast text with its number formatting.
- OrderConfirmation.PaymentMethodLabel: in the source the label is an object-literal lookup. An id that names an inherited property ("constructor", "toString") would yield a function rather than the id. The model shows every unknown id verbatim.
- ProductDetail.Open: `useState(1)` sets the quantity only when the page mounts. A related card links to the same `/product/:id` route, so the page stays mounted and the stepper keeps its old quantity when it switches to another product. Open models only a first load. A carried-over quantity is itself the result of presses from 1, and RunStaysPositive allows any starting quantity of at least 1, so the quantity handed to the cart is still at least 1.
- Only the markup's decisions are modelled: which view, which badge, which label, which call. JSX, CSS, icons, router mechanics, toasts other than their titles, and the confetti animation (timers and `Math.random`) are left out.
- Navbar, Footer, HomePage, CategoryCard, WishlistPage and CategoryPage only present data, or depend on the catalog, so they are not modelled.
- The `useAuth` guard that throws outside its provider is not modelled.

## Findings

| source | as written | input that shows it | evidently intended | confidence | as-written member | corrected member |
|---|---|---|---|---|---|---|
| src/pages/CartPage.tsx:141 | the hint says "Add $(50 − subtotal) more for free shipping", but shipping is free only when the subtotal is strictly above $50 | subtotal $49.99 shows "Add $0.01 more"; at $50.00 the cart still charges $9.99. Likewise $50.00 shows "Add $0.00 more" | the least amount that makes shipping free, 50.01 − subtotal (home page and product page both say "over $50") | medium, not executed | CartPage.HintAsWritten, CartPage.HintFallsShort | CartPage.Shortfall |

The cart page model (`CartPage.Summary`) shows the hint amount as the source
computes it. `CartPage.Shortfall` is the corrected amount, with its
minimality proved.
