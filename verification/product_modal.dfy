/**
 * The product detail modal (project/src/components/ProductModal.tsx). Its
 * quantity and selected-image state live in the component and survive the
 * modal closing or being shown for another product.
 */
module ProductModal {
  import opened Wrappers
  import opened Types
  import opened Catalog

  /** What the open modal renders. */
  datatype ModalView = ModalView(
    mainImage: string,
    price: real,
    strikePrice: Option<real>,
    discountLabel: Option<Option<int>>,
    quantity: int,
    addDisabled: bool)

  /** An effect of the Add button: the cart call, then closing the modal. */
  datatype Effect = Call(call: CartCall) | Close

  /** `1 <= n <= stock_quantity`: the quantities the selector accepts. */
  predicate AcceptsQuantity(p: Product, n: int) {
    1 <= n <= p.stockQuantity
  }

  /** With nothing in stock no quantity is accepted. */
  lemma NoQuantityWithoutStock(p: Product, n: int)
    requires p.stockQuantity <= 0
    ensures !AcceptsQuantity(p, n)
  {
  }

  class Modal {
    var quantity: int
    var selectedImageIndex: int

    ghost predicate Valid()
      reads this
    {
      quantity >= 1 && selectedImageIndex >= 0
    }

    constructor ()
      ensures Valid()
      ensures quantity == 1 && selectedImageIndex == 0
    {
      quantity := 1;
      selectedImageIndex := 0;
    }

    /** `handleQuantityChange`: take `n` only when the product can supply it. */
    method HandleQuantityChange(p: Product, n: int)
      requires Valid()
      modifies this
      ensures Valid()
      ensures quantity == (if AcceptsQuantity(p, n) then n else old(quantity))
      ensures selectedImageIndex == old(selectedImageIndex)
    {
      if n >= 1 && n <= p.stockQuantity {
        quantity := n;
      }
    }

    /** A thumbnail click selects that thumbnail's index. */
    method SelectImage(p: Product, index: int)
      requires Valid()
      requires 0 <= index < |p.images|
      modifies this
      ensures Valid()
      ensures selectedImageIndex == index && quantity == old(quantity)
    {
      selectedImageIndex := index;
    }

    /** `handleAddToCart`: add the current quantity of the product, then close. */
    method HandleAddToCart(p: Product) returns (effects: seq<Effect>)
      requires Valid()
      ensures effects == [Call(AddToCart(p, Some(quantity))), Close]
      ensures effects[0].call.quantity.value >= 1
    {
      effects := [Call(AddToCart(p, Some(quantity))), Close];
    }

    /**
     * The modal for `product` when `isOpen`; `None` is the early return
     * that renders nothing. Rendering changes no state.
     */
    function Render(product: Option<Product>, isOpen: bool): (v: Option<ModalView>)
      reads this
      ensures v.None? <==> !isOpen || product.None?
      ensures v.Some? ==> v.value.quantity == quantity
      ensures v.Some? ==> v.value.mainImage == ImageAt(product.value.images, selectedImageIndex)
      ensures v.Some? ==> v.value.price == CurrentPrice(product.value)
      ensures v.Some? ==>
        v.value.discountLabel == (if HasDiscount(product.value) then Some(DiscountPercent(product.value)) else None)
      ensures v.Some? ==>
        v.value.strikePrice == (if HasDiscount(product.value) then Some(product.value.price) else None)
      ensures v.Some? ==> (v.value.addDisabled <==> product.value.stockQuantity == 0)
    {
      if !isOpen || product.None? then None
      else
        var p := product.value;
        Some(ModalView(
          ImageAt(p.images, selectedImageIndex),
          CurrentPrice(p),
          if HasDiscount(p) then Some(p.price) else None,
          if HasDiscount(p) then Some(DiscountPercent(p)) else None,
          quantity,
          p.stockQuantity == 0))
    }
  }

  /**
   * The quantity chosen for one product carries over to the next product
   * the modal shows, even beyond that product's stock, and Add stays enabled.
   */
  method StaleQuantityCarriesOver(first: Product, second: Product) returns (v: ModalView, effects: seq<Effect>)
    requires first.stockQuantity >= 5
    requires second.stockQuantity == 2
    ensures v.quantity == 5 && !v.addDisabled
    ensures |effects| == 2 && effects[0] == Call(AddToCart(second, Some(5)))
  {
    var m := new Modal();
    m.HandleQuantityChange(first, 5);
    m.HandleQuantityChange(second, 6);
    var shown := m.Render(Some(second), true);
    v := shown.value;
    effects := m.HandleAddToCart(second);
  }

  /**
   * After the third image of one product is selected, a product with a
   * single image shows the placeholder instead of its own image.
   */
  method StaleImageFallsBack(first: Product, second: Product) returns (v: ModalView)
    requires |first.images| == 3 && |second.images| == 1
    ensures v.mainImage == PlaceholderImage
  {
    var m := new Modal();
    m.SelectImage(first, 2);
    var shown := m.Render(Some(second), true);
    v := shown.value;
  }
}
