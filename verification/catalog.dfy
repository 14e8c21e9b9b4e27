/**
 * Price and image rules that the product card, the product modal and the
 * checkout summary each derive from a product in the same way
 * (project/src/components/ProductCard.tsx:14-15, ProductModal.tsx:19-20,
 * Checkout.tsx:76).
 */
module Catalog {
  import opened Wrappers
  import opened Types

  /** The image shown when a product has no usable image at the wanted index. */
  const PlaceholderImage: string := "https://images.pexels.com/photos/1275229/pexels-photo-1275229.jpeg"

  /** JavaScript truthiness of an optional number: present and not zero. */
  predicate Truthy(n: Option<real>) {
    n.Some? && n.value != 0.0
  }

  /** `!!product.sale_price`: a discount is shown exactly when the sale price is truthy. */
  predicate HasDiscount(p: Product) {
    Truthy(p.salePrice)
  }

  /** `product.sale_price || product.price`: the unit price that is shown and charged. */
  function CurrentPrice(p: Product): (r: real)
    ensures HasDiscount(p) ==> Some(r) == p.salePrice
    ensures !HasDiscount(p) ==> r == p.price
  {
    if Truthy(p.salePrice) then p.salePrice.value else p.price
  }

  /** The sale price wins whenever it is truthy, even when it is not below the price. */
  lemma SalePriceAlwaysWins(p: Product, s: real)
    requires p.salePrice == Some(s) && s != 0.0
    ensures CurrentPrice(p) == s && HasDiscount(p)
  {
  }

  /** A sale price of zero counts as no sale price at all. */
  lemma ZeroSalePriceIsIgnored(p: Product)
    requires p.salePrice == Some(0.0)
    ensures CurrentPrice(p) == p.price && !HasDiscount(p)
  {
  }

  /** `Math.round`: the nearest integer, halves rounded up. */
  function Round(x: real): (n: int)
    ensures n as real - 0.5 <= x < n as real + 0.5
  {
    (x + 0.5).Floor
  }

  /**
   * `Math.round(((price - currentPrice) / price) * 100)`. A price of zero
   * makes the division non-finite (`NaN` or an infinity), shown as `None`.
   */
  function DiscountPercent(p: Product): (pct: Option<int>)
    ensures pct.Some? <==> p.price != 0.0
  {
    if p.price == 0.0 then None
    else Some(Round((p.price - CurrentPrice(p)) / p.price * 100.0))
  }

  /** A genuine discount (0 < sale price <= price) shows a percentage from 0 to 100. */
  lemma DiscountWithinPercentRange(p: Product)
    requires HasDiscount(p) && 0.0 < p.salePrice.value <= p.price
    ensures DiscountPercent(p).Some?
    ensures 0 <= DiscountPercent(p).value <= 100
  {
    var s := p.salePrice.value;
    var x := (p.price - s) / p.price * 100.0;
    assert 0.0 <= (p.price - s) / p.price < 1.0 by {
      assert (p.price - s) / p.price * p.price == p.price - s;
    }
    assert 0.0 <= x < 100.0;
  }

  /** A sale price above the price is still a "discount", shown as zero or a negative percentage. */
  lemma MarkupShowsNonPositiveDiscount(p: Product)
    requires HasDiscount(p) && 0.0 < p.price < p.salePrice.value
    ensures DiscountPercent(p).Some? && DiscountPercent(p).value <= 0
  {
    var s := p.salePrice.value;
    assert (p.price - s) / p.price < 0.0 by {
      assert (p.price - s) / p.price * p.price == p.price - s;
    }
  }

  /** `images[i] || placeholder`: a missing or empty image reference falls back to the placeholder. */
  function ImageAt(images: seq<string>, i: int): (url: string)
    ensures 0 <= i < |images| && images[i] != "" ==> url == images[i]
    ensures !(0 <= i < |images| && images[i] != "") ==> url == PlaceholderImage
  {
    if 0 <= i < |images| && images[i] != "" then images[i] else PlaceholderImage
  }

  /** The cart-hook call a component makes; `quantity` is `None` when the call passes none. */
  datatype CartCall = AddToCart(product: Product, quantity: Option<int>)
}
