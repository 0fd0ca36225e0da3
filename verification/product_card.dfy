/** The product card used in listings: badges, stars, quick add and the wishlist heart. */
module ProductCard {
  import opened Optional
  import opened Products
  import opened ProductDisplay

  const RemoveLabel := "Remove from wishlist"
  const AddLabel := "Add to wishlist"

  datatype CardView = CardView(
    discount: int,
    badges: Badges,
    stars: seq<bool>,
    priceExtra: PriceExtra,
    wishlistLabel: string)

  /** The card for `p`, given the wishlist membership read when it renders. */
  function Card(p: Product, inWishlist: bool): (c: CardView)
    ensures !(c.badges.sale.Some? && c.badges.isNew)
    ensures c.badges.sale.Some? <==> p.isSale && c.discount > 0
    ensures c.badges.isNew <==> p.isNew && !p.isSale
    ensures c.discount == DiscountPercent(p) && c.badges == ProductBadges(p) && c.priceExtra == PriceExtraOf(p)
    ensures StrikePrice(p).None? ==> c.discount == 0
    ensures c.priceExtra.Struck? <==> StrikePrice(p).Some?
    ensures c.priceExtra.StrayZero? <==> p.originalPrice == Some(0)
    ensures |c.stars| == 5 && forall i :: 0 <= i < 5 ==> (c.stars[i] <==> i < p.rating.Floor)
    ensures c.wishlistLabel == RemoveLabel <==> inWishlist
    ensures c.wishlistLabel == AddLabel <==> !inWishlist
  {
    CardView(DiscountPercent(p), ProductBadges(p), Stars(p.rating), PriceExtraOf(p),
             if inWishlist then RemoveLabel else AddLabel)
  }

  /** Quick add: `addToCart(product)` with no explicit quantity. */
  function QuickAdd(p: Product): (c: CartCall)
    ensures c.AddToCart? && c.product == p && c.requested.None?
  {
    AddToCart(p, None)
  }

  /** The heart button: its aria-label and its toast both describe the membership before the toggle. */
  function ToggleFromCard(p: Product, inWishlist: bool): (f: ToggleFeedback)
    ensures f.call == ToggleWishlist(p)
    ensures f.title == RemovedTitle <==> Card(p, inWishlist).wishlistLabel == RemoveLabel
    ensures f.title == AddedTitle <==> Card(p, inWishlist).wishlistLabel == AddLabel
  {
    WishlistToggle(p, inWishlist)
  }
}
