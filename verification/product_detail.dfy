/**
 * The product detail page: not-found guard, quantity stepper, related products,
 * add-to-cart and wishlist-toggle calls. The product lookup and the
 * same-category list come from the catalog, which is not part of this model,
 * so they are inputs here.
 */
module ProductDetail {
  import opened Optional
  import opened Products
  import opened ProductDisplay

  /** The stepper's starting quantity. */
  const InitialQuantity: int := 1

  /** The "-" button: `Math.max(1, quantity - 1)`. */
  function Decrement(q: int): (r: int)
    ensures r >= 1
    ensures r == q - 1 || (r == 1 && q <= 1)
  {
    if q - 1 > 1 then q - 1 else 1
  }

  /** The "+" button: it raises the quantity, and "-" undoes it. */
  function Increment(q: int): (r: int)
    ensures r > q
    ensures q >= 1 ==> Decrement(r) == q
  {
    q + 1
  }

  datatype Press = Minus | Plus

  /** The stepper's value after a sequence of button presses. */
  function Run(q: int, presses: seq<Press>): int
    decreases |presses|
  {
    if presses == [] then q
    else Run(if presses[0] == Minus then Decrement(q) else Increment(q), presses[1..])
  }

  /** From any positive quantity, no sequence of presses brings the stepper below 1, and each press moves it by at most one. */
  lemma {:induction false} RunStaysPositive(q: int, presses: seq<Press>)
    requires q >= 1
    ensures 1 <= Run(q, presses) <= q + |presses|
    decreases |presses|
  {
    if presses != [] {
      var next := if presses[0] == Minus then Decrement(q) else Increment(q);
      assert next <= q + 1;
      RunStaysPositive(next, presses[1..]);
    }
  }

  /** "+" then "-" is the identity on valid quantities; "-" then "+" is too, above the floor. */
  lemma StepperInverses(q: int)
    requires q >= 1
    ensures Decrement(Increment(q)) == q
    ensures q >= 2 ==> Increment(Decrement(q)) == q
    ensures q == 1 ==> Decrement(q) == q
  {
  }

  /** Add to Cart passes the stepper's quantity explicitly. */
  function AddToCartCall(p: Product, quantity: int): (c: CartCall)
    ensures c.AddToCart? && c.product == p && c.requested == Some(quantity)
  {
    AddToCart(p, Some(quantity))
  }

  /** Whatever the user pressed, the quantity handed to the cart is at least 1. */
  lemma AddedQuantityPositive(p: Product, presses: seq<Press>)
    ensures AddToCartCall(p, Run(InitialQuantity, presses)).requested.value >= 1
  {
    RunStaysPositive(InitialQuantity, presses);
  }

  /** `a` occurs in `b` in order, possibly with gaps. */
  predicate IsSubsequence<T(==)>(a: seq<T>, b: seq<T>)
    decreases |b|
  {
    if a == [] then true
    else if b == [] then false
    else if a[0] == b[0] then IsSubsequence(a[1..], b[1..])
    else IsSubsequence(a, b[1..])
  }

  lemma {:induction false} SubsequencePrefix<T>(a: seq<T>, b: seq<T>, k: nat)
    requires IsSubsequence(a, b) && k <= |a|
    ensures IsSubsequence(a[..k], b)
    decreases |b|
  {
    if k == 0 {
    } else if a[0] == b[0] {
      assert a[..k][1..] == a[1..][..k - 1];
      SubsequencePrefix(a[1..], b[1..], k - 1);
    } else {
      SubsequencePrefix(a, b[1..], k);
    }
  }

  /** `.filter((p) => p.id !== id)`. */
  function WithoutId(s: seq<Product>, id: string): (r: seq<Product>)
    ensures forall x :: x in r <==> x in s && x.id != id
    ensures IsSubsequence(r, s)
    ensures forall x :: multiset(r)[x] == if x.id != id then multiset(s)[x] else 0
  {
    if s == [] then []
    else
      var rest := WithoutId(s[1..], id);
      assert s == [s[0]] + s[1..];
      assert multiset(s) == multiset{s[0]} + multiset(s[1..]);
      assert forall x :: x in s <==> x == s[0] || x in s[1..];
      if s[0].id != id then
        assert ([s[0]] + rest)[1..] == rest;
        assert multiset([s[0]] + rest) == multiset{s[0]} + multiset(rest);
        [s[0]] + rest
      else
        assert rest != [] ==> rest[0] in s[1..];
        rest
  }

  const MaxRelated: nat := 4

  /**
   * `getProductsByCategory(product.category).filter((p) => p.id !== product.id).slice(0, 4)`:
   * the first four other products of the category, in catalog order.
   */
  function RelatedProducts(p: Product, sameCategory: seq<Product>): (r: seq<Product>)
    ensures |r| <= MaxRelated
    ensures var others := WithoutId(sameCategory, p.id);
            && |r| == (if |others| < MaxRelated then |others| else MaxRelated)
            && r == others[..|r|]
    ensures forall x :: x in r ==> x in sameCategory && x.id != p.id
    ensures IsSubsequence(r, sameCategory)
    ensures |r| < MaxRelated ==> forall x :: x in sameCategory && x.id != p.id ==> x in r
    ensures (forall x :: x in sameCategory ==> x.category == p.category) ==>
              forall x :: x in r ==> x.category == p.category
  {
    var candidates := WithoutId(sameCategory, p.id);
    var n := if |candidates| < MaxRelated then |candidates| else MaxRelated;
    var r := candidates[..n];
    assert forall x :: x in r ==> x in candidates;
    SubsequencePrefix(candidates, sameCategory, n);
    assert |r| < MaxRelated ==> r == candidates;
    r
  }

  /** What the page shows for a product id. */
  datatype DetailView =
    | NotFound
    | Detail(product: Product, related: seq<Product>, discount: int, badges: Badges,
             stars: seq<bool>, priceExtra: PriceExtra, inWishlist: bool, quantity: int)

  /**
   * The freshly opened page: `lookup` is the catalog's answer for the URL's id,
   * `sameCategory` its category listing, `inWishlist` the wishlist membership.
   */
  function Open(lookup: Option<Product>, sameCategory: seq<Product>, inWishlist: bool): (v: DetailView)
    ensures v.NotFound? <==> lookup.None?
    ensures v.Detail? ==>
              && v.product == lookup.value
              && v.quantity == InitialQuantity
              && v.related == RelatedProducts(lookup.value, sameCategory)
              && v.discount == DiscountPercent(lookup.value)
              && v.badges == ProductBadges(lookup.value)
              && v.stars == Stars(lookup.value.rating)
              && v.priceExtra == PriceExtraOf(lookup.value)
              && v.inWishlist == inWishlist
  {
    match lookup
    case None => NotFound
    case Some(p) =>
      Detail(p, RelatedProducts(p, sameCategory), DiscountPercent(p), ProductBadges(p),
             Stars(p.rating), PriceExtraOf(p), inWishlist, InitialQuantity)
  }

  /** The heart button: the toast is chosen from the membership the page read before toggling. */
  function ToggleFromDetail(v: DetailView): (f: ToggleFeedback)
    requires v.Detail?
    ensures f.call == ToggleWishlist(v.product)
    ensures f.title == RemovedTitle <==> v.inWishlist
  {
    WishlistToggle(v.product, v.inWishlist)
  }
}
