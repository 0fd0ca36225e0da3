/**
 * Display rules shared, character for character, by the product card and the
 * product detail page: discount percentage, sale / NEW badges, star rating and
 * the wishlist toggle feedback.
 */
module ProductDisplay {
  import opened Optional
  import opened Products

  /** JavaScript `Math.round(n / d)` for integers with `d != 0`: floor(n / d + 1/2). */
  function RoundDiv(n: int, d: int): (q: int)
    requires d != 0
    ensures d > 0 ==> d * (2 * q - 1) <= 2 * n < d * (2 * q + 1)
    ensures d < 0 ==> d * (2 * q - 1) >= 2 * n > d * (2 * q + 1)
  {
    if d > 0 then
      var q := (2 * n + d) / (2 * d);
      assert (2 * d) * q + (2 * n + d) % (2 * d) == 2 * n + d;
      q
    else
      var q := (-(2 * n + d)) / (-2 * d);
      assert (-2 * d) * q + (-(2 * n + d)) % (-2 * d) == -(2 * n + d);
      q
  }

  /** The original price when it is truthy in JavaScript (present and not zero). */
  function StrikePrice(p: Product): Option<int> {
    if p.originalPrice.Some? && p.originalPrice.value != 0 then p.originalPrice else None
  }

  /**
   * What `{product.originalPrice && (<struck price>)}` renders after the price:
   * nothing when the original price is absent, the struck-through original price
   * when it is truthy, and the bare number 0 when it is zero (React prints a
   * falsy number rather than skipping it).
   */
  datatype PriceExtra = NoExtra | Struck(original: int) | StrayZero

  function PriceExtraOf(p: Product): (e: PriceExtra)
    ensures e.NoExtra? <==> p.originalPrice.None?
    ensures e.StrayZero? <==> p.originalPrice == Some(0)
    ensures e.Struck? <==> StrikePrice(p).Some?
    ensures e.Struck? ==> e.original == p.originalPrice.value
  {
    match p.originalPrice
    case None => NoExtra
    case Some(o) => if o == 0 then StrayZero else Struck(o)
  }

  /**
   * `Math.round(((originalPrice - price) / originalPrice) * 100)`, or 0 when
   * `originalPrice` is absent or zero.
   */
  function DiscountPercent(p: Product): (d: int)
    ensures StrikePrice(p).None? ==> d == 0
    ensures StrikePrice(p).Some? && StrikePrice(p).value > 0 ==>
              var o := StrikePrice(p).value;
              o * (2 * d - 1) <= 200 * (o - p.price) < o * (2 * d + 1)
    ensures StrikePrice(p).Some? && StrikePrice(p).value < 0 ==>
              var o := StrikePrice(p).value;
              o * (2 * d - 1) >= 200 * (o - p.price) > o * (2 * d + 1)
  {
    match StrikePrice(p)
    case None => 0
    case Some(o) => RoundDiv(100 * (o - p.price), o)
  }

  /** For an honest markdown (0 <= price <= originalPrice) the discount is a percentage in 0..100. */
  lemma DiscountInRange(p: Product)
    requires p.originalPrice.Some? && 0 <= p.price <= p.originalPrice.value
    ensures 0 <= DiscountPercent(p) <= 100
  {
    var d := DiscountPercent(p);
    if p.originalPrice.value != 0 {
      var o := p.originalPrice.value;
      var n := 200 * (o - p.price);
      assert 0 <= n <= 200 * o;
      assert o * (2 * d - 1) <= n < o * (2 * d + 1);
      ProductSign(o, 201 - 2 * d);
      assert o * (201 - 2 * d) == 200 * o - o * (2 * d - 1);
      ProductSign(o, 2 * d + 1);
    }
  }

  /** Sign of a product with a positive factor. */
  lemma ProductSign(o: int, z: int)
    requires o > 0
    ensures o * z > 0 <==> z > 0
    ensures o * z >= 0 <==> z >= 0
  {
  }

  /** The badges over the product image: a sale badge with its percentage, or NEW. */
  datatype Badges = Badges(sale: Option<int>, isNew: bool)

  function ProductBadges(p: Product): (b: Badges)
    ensures b.sale.Some? <==> p.isSale && DiscountPercent(p) > 0
    ensures b.sale.Some? ==> b.sale.value == DiscountPercent(p)
    ensures b.isNew <==> p.isNew && !p.isSale
    ensures !(b.sale.Some? && b.isNew)
  {
    Badges(if p.isSale && DiscountPercent(p) > 0 then Some(DiscountPercent(p)) else None,
           p.isNew && !p.isSale)
  }

  /**
   * With a positive original price, the sale badge appears exactly for sale items
   * whose markdown is at least half a percent of the original price.
   */
  lemma SaleBadgeIff(p: Product)
    requires p.originalPrice.Some? && p.originalPrice.value > 0
    ensures ProductBadges(p).sale.Some? <==> p.isSale && 200 * (p.originalPrice.value - p.price) >= p.originalPrice.value
  {
    var o := p.originalPrice.value;
    var d := DiscountPercent(p);
    var n := 200 * (o - p.price);
    assert o * (2 * d - 1) <= n < o * (2 * d + 1);
    ProductSign(o, 2 * d - 2);
    assert o * (2 * d - 2) == o * (2 * d - 1) - o;
    ProductSign(o, 2 * d);
    assert o * (2 * d) == o * (2 * d + 1) - o;
  }

  /** Star `i` of five is filled iff `i < Math.floor(rating)`. */
  function Stars(rating: real): (s: seq<bool>)
    ensures |s| == 5
    ensures forall i :: 0 <= i < 5 ==> (s[i] <==> i < rating.Floor)
  {
    seq(5, i => i < rating.Floor)
  }

  /** Number of `true` entries. */
  function CountTrue(s: seq<bool>): nat {
    if s == [] then 0 else (if s[|s| - 1] then 1 else 0) + CountTrue(s[..|s| - 1])
  }

  lemma {:induction false} CountThreshold(n: nat, f: int)
    ensures CountTrue(seq(n, i => i < f)) == if f <= 0 then 0 else if f >= n then n else f
  {
    if n > 0 {
      var s := seq(n, i => i < f);
      assert s[..n - 1] == seq(n - 1, i => i < f);
      CountThreshold(n - 1, f);
    }
  }

  /** The number of filled stars is `floor(rating)` clamped to 0..5. */
  lemma FilledStars(rating: real)
    ensures CountTrue(Stars(rating)) == if rating.Floor <= 0 then 0 else if rating.Floor >= 5 then 5 else rating.Floor
    ensures 0.0 <= rating ==> CountTrue(Stars(rating)) == if rating.Floor >= 5 then 5 else rating.Floor
  {
    CountThreshold(5, rating.Floor);
  }

  /** The feedback of a wishlist toggle, chosen from the membership read BEFORE the toggle. */
  datatype ToggleFeedback = ToggleFeedback(call: WishlistCall, title: string, description: string)

  const RemovedTitle := "Removed from wishlist"
  const AddedTitle := "Added to wishlist"

  function WishlistToggle(p: Product, inWishlistBefore: bool): (f: ToggleFeedback)
    ensures f.call == ToggleWishlist(p)
    ensures f.title == RemovedTitle <==> inWishlistBefore
    ensures f.title == AddedTitle <==> !inWishlistBefore
    ensures f.description == p.name + (if inWishlistBefore then " has been removed from your wishlist."
                                        else " has been added to your wishlist.")
  {
    if inWishlistBefore then
      ToggleFeedback(ToggleWishlist(p), RemovedTitle, p.name + " has been removed from your wishlist.")
    else
      ToggleFeedback(ToggleWishlist(p), AddedTitle, p.name + " has been added to your wishlist.")
  }
}
