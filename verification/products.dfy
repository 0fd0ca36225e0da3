/**
 * The product record as the pages read it, and the calls the pages make into
 * the cart and wishlist stores. The stores and the catalog themselves are not
 * part of this model: pages only produce these calls as data.
 * Money is in integer cents (hundredths of the currency unit).
 */
module Products {
  import opened Optional

  /** Product fields the pages use. `originalPrice` is JavaScript-optional. */
  datatype Product = Product(
    id: string,
    name: string,
    category: string,
    price: int,
    originalPrice: Option<int>,
    rating: real,
    reviews: nat,
    isNew: bool,
    isSale: bool)

  /** A cart line as the cart store exposes it. */
  datatype CartItem = CartItem(product: Product, quantity: int)

  /** A call into the cart store; `AddToCart` without a quantity uses the store's default. */
  datatype CartCall =
    | AddToCart(product: Product, requested: Option<int>)
    | UpdateQuantity(productId: string, quantity: int)
    | RemoveFromCart(productId: string)
    | ClearCart

  /** A call into the wishlist store. */
  datatype WishlistCall = ToggleWishlist(product: Product)
}
