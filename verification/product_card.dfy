/**
 * The product card (project/src/components/ProductCard.tsx): what it shows
 * for a product and the cart call its two Add buttons make.
 */
module ProductCard {
  import opened Wrappers
  import opened Types
  import opened Catalog

  /** What the card renders; `discountBadge` holds the badge's percentage when the badge is shown. */
  datatype CardView = CardView(
    image: string,
    price: real,
    strikePrice: Option<real>,
    discountBadge: Option<Option<int>>,
    featuredBadge: bool,
    inStockLabel: bool,
    addButtonDisabled: bool,
    overlayAddDisabled: bool)

  function Render(p: Product): (v: CardView)
    ensures v.image == ImageAt(p.images, 0)
    ensures v.price == CurrentPrice(p)
    ensures v.discountBadge.Some? <==> HasDiscount(p)
    ensures v.discountBadge.Some? ==> v.discountBadge.value == DiscountPercent(p)
    ensures v.strikePrice.Some? <==> HasDiscount(p)
    ensures v.strikePrice.Some? ==> v.strikePrice.value == p.price
    ensures v.featuredBadge <==> p.featured
    ensures v.inStockLabel <==> p.stockQuantity > 0
    ensures v.addButtonDisabled <==> p.stockQuantity == 0
    ensures !v.overlayAddDisabled
  {
    CardView(
      ImageAt(p.images, 0),
      CurrentPrice(p),
      if HasDiscount(p) then Some(p.price) else None,
      if HasDiscount(p) then Some(DiscountPercent(p)) else None,
      p.featured,
      p.stockQuantity > 0,
      p.stockQuantity == 0,
      false)
  }

  /** Both Add buttons call `addToCart(product)` with no quantity. */
  function HandleAddToCart(p: Product): (call: CartCall)
    ensures call.product == p && call.quantity.None?
  {
    AddToCart(p, None)
  }

  /**
   * An out-of-stock product shows "Out of Stock" and a disabled bottom
   * button, yet its hover overlay still offers Add, which adds it.
   */
  lemma OutOfStockStillAddableFromOverlay(p: Product)
    requires p.stockQuantity == 0
    ensures Render(p).addButtonDisabled && !Render(p).inStockLabel
    ensures !Render(p).overlayAddDisabled
    ensures HandleAddToCart(p) == AddToCart(p, None)
  {
  }

  /** A negative stock count is neither "In Stock" nor a disabled button. */
  lemma NegativeStockLeavesButtonEnabled(p: Product)
    requires p.stockQuantity < 0
    ensures !Render(p).inStockLabel && !Render(p).addButtonDisabled
  {
  }
}
