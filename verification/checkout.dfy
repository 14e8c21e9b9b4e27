/**
 * The checkout view (project/src/components/Checkout.tsx): the price rule,
 * the form state and its update handler, the order payload, and the
 * submission state machine around the data service's order creation.
 * The cart total comes from the cart hook, which is not part of this
 * model, so it is an input.
 */
module Checkout {
  import opened Wrappers
  import opened Types
  import opened Catalog
  import Api

  // ---------------------------------------------------------------------
  // Pricing
  // ---------------------------------------------------------------------

  const TaxRate: real := 0.08
  const FreeShippingAbove: real := 50.0
  const FlatShipping: real := 9.99

  /** Shipping is free strictly above the threshold and flat otherwise. */
  function Shipping(subtotal: real): (s: real)
    ensures s == 0.0 <==> subtotal > FreeShippingAbove
    ensures s == 0.0 || s == FlatShipping
  {
    if subtotal > FreeShippingAbove then 0.0 else FlatShipping
  }

  /** The order summary's subtotal, tax, shipping and total. */
  function PriceOrder(subtotal: real): (t: Api.Totals)
    ensures t.subtotal == subtotal && t.tax == subtotal * TaxRate && t.shipping == Shipping(subtotal)
    ensures t.total == t.subtotal + t.tax + t.shipping
  {
    var tax := subtotal * TaxRate;
    var shipping := Shipping(subtotal);
    Api.Totals(subtotal, tax, shipping, subtotal + tax + shipping)
  }

  /** Worked figures: 42.00 pays shipping and totals 55.35; 60.00 ships free and totals 64.80. */
  lemma PricingExamples()
    ensures PriceOrder(42.0) == Api.Totals(42.0, 3.36, 9.99, 55.35)
    ensures PriceOrder(60.0) == Api.Totals(60.0, 4.8, 0.0, 64.8)
    ensures PriceOrder(50.0).shipping == 9.99
  {
  }

  /** The total is the taxed subtotal plus at most the flat shipping fee. */
  lemma TotalBounds(subtotal: real)
    ensures subtotal * 1.08 <= PriceOrder(subtotal).total <= subtotal * 1.08 + FlatShipping
    ensures PriceOrder(subtotal).total == subtotal * 1.08 <==> subtotal > FreeShippingAbove
  {
  }

  /** Crossing the free-shipping threshold lowers the total: the total is not monotone. */
  lemma TotalNotMonotone()
    ensures PriceOrder(50.0).total > PriceOrder(50.01).total
  {
  }

  // ---------------------------------------------------------------------
  // The form and its update handler
  // ---------------------------------------------------------------------

  /**
   * The key `handleInputChange` writes under: one of the three record
   * sections, or a key the form data does not declare (the checkbox and
   * the payment radios pass the empty key).
   */
  datatype SectionKey = CustomerSection | BillingSection | ShippingSection | Undeclared(name: string)

  const DeclaredKeys: set<string> := {"customer", "billing_address", "shipping_address", "payment_method", "same_as_billing"}

  predicate WellFormedKey(k: SectionKey) {
    k.Undeclared? ==> k.name !in DeclaredKeys
  }

  /** The record currently stored under `k`; `{}` when there is none, as `...undefined` spreads. */
  function Section(f: CheckoutData, k: SectionKey): PartialRecord {
    match k
    case CustomerSection => f.customer
    case BillingSection => f.billingAddress
    case ShippingSection => f.shippingAddress
    case Undeclared(name) => if name in f.otherSections then f.otherSections[name] else map[]
  }

  /** `{...prev, [section]: {...prev[section], [field]: value}}`. */
  function WithField(f: CheckoutData, k: SectionKey, field: string, value: Value): (g: CheckoutData)
    requires WellFormedKey(k)
    ensures Section(g, k) == Section(f, k)[field := value]
    ensures forall k' {:trigger Section(g, k')} :: k' != k ==> Section(g, k') == Section(f, k')
    ensures g.paymentMethod == f.paymentMethod && g.sameAsBilling == f.sameAsBilling
  {
    var updated := Section(f, k)[field := value];
    match k
    case CustomerSection => f.(customer := updated)
    case BillingSection => f.(billingAddress := updated)
    case ShippingSection => f.(shippingAddress := updated)
    case Undeclared(name) => f.(otherSections := f.otherSections[name := updated])
  }

  /** One call of `handleInputChange`. */
  datatype Edit = Edit(section: SectionKey, field: string, value: Value)

  /** The "Same as billing" checkbox handler (line 273). */
  function CheckboxEdit(checked: bool): Edit {
    Edit(Undeclared(""), "same_as_billing", Flag(checked))
  }

  /** The payment-method radio handlers (lines 300 and 310). */
  function PaymentRadioEdit(choice: string): Edit {
    Edit(Undeclared(""), "payment_method", Text(choice))
  }

  predicate WellFormedEdits(es: seq<Edit>) {
    forall i :: 0 <= i < |es| ==> WellFormedKey(es[i].section)
  }

  /** The form after a sequence of handler calls. */
  function ApplyEdits(f: CheckoutData, es: seq<Edit>): CheckoutData
    requires WellFormedEdits(es)
    decreases |es|
  {
    if es == [] then f
    else ApplyEdits(WithField(f, es[0].section, es[0].field, es[0].value), es[1..])
  }

  /**
   * Unchecking "Same as billing" or picking PayPal only records the choice
   * under the empty key; the fields the payload reads keep their values.
   */
  lemma HandlersWriteUnderEmptyKey(f: CheckoutData, checked: bool, choice: string)
    ensures var g := ApplyEdits(f, [CheckboxEdit(checked)]);
      g.sameAsBilling == f.sameAsBilling && g.paymentMethod == f.paymentMethod
      && "" in g.otherSections && "same_as_billing" in g.otherSections[""]
      && g.otherSections[""]["same_as_billing"] == Flag(checked)
    ensures var g := ApplyEdits(f, [PaymentRadioEdit(choice)]);
      g.sameAsBilling == f.sameAsBilling && g.paymentMethod == f.paymentMethod
      && "" in g.otherSections && "payment_method" in g.otherSections[""]
      && g.otherSections[""]["payment_method"] == Text(choice)
  {
    var g := ApplyEdits(f, [CheckboxEdit(checked)]);
    assert [CheckboxEdit(checked)][1..] == [];
    var g1 := WithField(f, Undeclared(""), "same_as_billing", Flag(checked));
    assert ApplyEdits(g1, []) == g1;
    assert g == WithField(f, Undeclared(""), "same_as_billing", Flag(checked));
    assert Section(g, Undeclared("")) == Section(f, Undeclared(""))["same_as_billing" := Flag(checked)];
    var h := ApplyEdits(f, [PaymentRadioEdit(choice)]);
    assert [PaymentRadioEdit(choice)][1..] == [];
    var h1 := WithField(f, Undeclared(""), "payment_method", Text(choice));
    assert ApplyEdits(h1, []) == h1;
    assert h == WithField(f, Undeclared(""), "payment_method", Text(choice));
    assert Section(h, Undeclared("")) == Section(f, Undeclared(""))["payment_method" := Text(choice)];
  }

  /** No sequence of form edits changes the payment method or "same as billing". */
  lemma {:induction false} EditsKeepTopLevelFields(f: CheckoutData, es: seq<Edit>)
    requires WellFormedEdits(es)
    ensures ApplyEdits(f, es).paymentMethod == f.paymentMethod
    ensures ApplyEdits(f, es).sameAsBilling == f.sameAsBilling
    decreases |es|
  {
    if es != [] {
      EditsKeepTopLevelFields(WithField(f, es[0].section, es[0].field, es[0].value), es[1..]);
    }
  }

  function BlankAddress(): PartialRecord {
    map["first_name" := Text(""), "last_name" := Text(""), "address_line_1" := Text(""),
        "address_line_2" := Text(""), "city" := Text(""), "state" := Text(""),
        "postal_code" := Text(""), "country" := Text("US")]
  }

  /** The form's initial state (lines 18-47). */
  function InitialForm(): (f: CheckoutData)
    ensures f.paymentMethod == "credit_card" && f.sameAsBilling
  {
    CheckoutData(
      map["first_name" := Text(""), "last_name" := Text(""), "email" := Text(""), "phone" := Text("")],
      BlankAddress(), BlankAddress(), "credit_card", true, map[])
  }

  // ---------------------------------------------------------------------
  // The order payload
  // ---------------------------------------------------------------------

  /** `cartItems.map(...)`: one payload line per cart item, priced at its current price. */
  function PayloadItems(cart: seq<CartItem>): (items: seq<Api.LineItem>)
    ensures |items| == |cart|
    ensures forall i :: 0 <= i < |cart| ==>
      items[i].productId == cart[i].product.id && items[i].quantity == cart[i].quantity
      && items[i].price == CurrentPrice(cart[i].product)
  {
    if cart == [] then []
    else [Api.LineItem(cart[0].product.id, cart[0].quantity, CurrentPrice(cart[0].product))]
         + PayloadItems(cart[1..])
  }

  /** `orderData`, built from the form, the cart and the cart total. */
  function BuildOrderData(f: CheckoutData, cart: seq<CartItem>, subtotal: real): (d: Api.OrderData)
    ensures d.customer == f.customer && d.billing == f.billingAddress
    ensures d.shipping == if f.sameAsBilling then f.billingAddress else f.shippingAddress
    ensures d.totals == PriceOrder(subtotal) && d.paymentMethod == f.paymentMethod
    ensures d.items == PayloadItems(cart)
  {
    Api.OrderData(
      f.customer,
      PayloadItems(cart),
      f.billingAddress,
      if f.sameAsBilling then f.billingAddress else f.shippingAddress,
      PriceOrder(subtotal),
      f.paymentMethod)
  }

  /**
   * Whatever the shopper does with the form, the submitted order ships to
   * the billing address and is paid by credit card.
   */
  lemma SubmittedShippingIsBilling(es: seq<Edit>, cart: seq<CartItem>, subtotal: real)
    requires WellFormedEdits(es)
    ensures var d := BuildOrderData(ApplyEdits(InitialForm(), es), cart, subtotal);
      d.shipping == d.billing && d.paymentMethod == "credit_card"
  {
    EditsKeepTopLevelFields(InitialForm(), es);
  }

  /**
   * A successful submission stores one item row per cart item, in cart
   * order, at the price shown for it, and an order whose total is the
   * priced cart total.
   */
  lemma SubmittedOrderChargesShownPrices(db: Api.Db, f: CheckoutData, cart: seq<CartItem>, subtotal: real,
                                         now: nat, random36: string, faults: Api.Faults)
    requires Api.CreateOrderSpec(db, BuildOrderData(f, cart, subtotal), now, random36, faults).0.Success?
    ensures var (r, db') := Api.CreateOrderSpec(db, BuildOrderData(f, cart, subtotal), now, random36, faults);
      var added := db'.orderItems[|db.orderItems|..];
      && |added| == |cart|
      && (forall i :: 0 <= i < |cart| ==>
            added[i].orderId == r.value.id && added[i].productId == cart[i].product.id
            && added[i].quantity == cart[i].quantity && added[i].price == CurrentPrice(cart[i].product)
            && added[i].total == CurrentPrice(cart[i].product) * cart[i].quantity as real)
      && r.value.totalAmount == PriceOrder(subtotal).total
  {
    var d := BuildOrderData(f, cart, subtotal);
    Api.CreatedOrderIsPending(db, d, now, random36, faults);
    var res := Api.CreateOrderSpec(db, d, now, random36, faults);
    var rows := Api.ItemRows(res.0.value.id, d.items);
    assert res.1.orderItems == db.orderItems + rows;
    assert res.1.orderItems[|db.orderItems|..] == rows;
  }

  // ---------------------------------------------------------------------
  // The component's state
  // ---------------------------------------------------------------------

  /** A call the view makes to its parent: `onClose()`. */
  datatype ViewEffect = CloseView

  class CheckoutPage {
    var formData: CheckoutData
    /** The cart as the cart hook shows it; `clearCart` empties it. */
    var cart: seq<CartItem>
    var isSubmitting: bool
    var orderComplete: bool
    var orderNumber: string

    constructor (cart: seq<CartItem>)
      ensures formData == InitialForm() && this.cart == cart
      ensures !isSubmitting && !orderComplete && orderNumber == ""
    {
      formData := InitialForm();
      this.cart := cart;
      isSubmitting, orderComplete, orderNumber := false, false, "";
    }

    /** The Place Order button is disabled while a submission is in flight. */
    predicate SubmitDisabled()
      reads this
    {
      isSubmitting
    }

    /** `handleInputChange`: only `formData[section][field]` changes. */
    method HandleInputChange(section: SectionKey, field: string, value: Value)
      requires WellFormedKey(section)
      modifies this
      ensures formData == WithField(old(formData), section, field, value)
      ensures cart == old(cart) && isSubmitting == old(isSubmitting)
      ensures orderComplete == old(orderComplete) && orderNumber == old(orderNumber)
    {
      formData := WithField(formData, section, field, value);
    }

    /** The start of `handleSubmit`: mark the submission in flight and build the payload. */
    method StartSubmit(subtotal: real) returns (data: Api.OrderData)
      modifies this
      ensures isSubmitting && SubmitDisabled()
      ensures data == BuildOrderData(formData, cart, subtotal)
      ensures formData == old(formData) && cart == old(cart)
      ensures orderComplete == old(orderComplete) && orderNumber == old(orderNumber)
    {
      isSubmitting := true;
      data := BuildOrderData(formData, cart, subtotal);
    }

    /**
     * The end of `handleSubmit`: on success record the number, show the
     * confirmation and clear the cart; on failure change nothing else.
     * Either way the submission is over.
     */
    method FinishSubmit(outcome: Result<Order, Api.PgError>)
      modifies this
      ensures !isSubmitting && !SubmitDisabled()
      ensures formData == old(formData)
      ensures outcome.Success? ==> orderNumber == outcome.value.orderNumber && orderComplete && cart == []
      ensures outcome.Failure? ==> orderNumber == old(orderNumber) && orderComplete == old(orderComplete) && cart == old(cart)
    {
      if outcome.Success? {
        orderNumber := outcome.value.orderNumber;
        orderComplete := true;
        cart := [];
      }
      isSubmitting := false;
    }

    /** `handleSubmit`: build the payload, await order creation, record the outcome. */
    method HandleSubmit(subtotal: real, store: Api.Store, now: nat, random36: string, faults: Api.Faults)
      returns (r: Result<Order, Api.PgError>)
      modifies this, store
      ensures (r, store.State()) == Api.CreateOrderSpec(old(store.State()), BuildOrderData(old(formData), old(cart), subtotal), now, random36, faults)
      ensures !isSubmitting && formData == old(formData)
      ensures r.Success? ==> orderNumber == r.value.orderNumber && orderComplete && cart == []
      ensures r.Failure? ==> orderNumber == old(orderNumber) && orderComplete == old(orderComplete) && cart == old(cart)
    {
      var data := StartSubmit(subtotal);
      r := store.CreateOrder(data, now, random36, faults);
      FinishSubmit(r);
    }

    /** "Continue Shopping" on the confirmation: hide it, then ask the parent to close the view. */
    method ContinueShopping() returns (effects: seq<ViewEffect>)
      modifies this
      ensures !orderComplete && effects == [CloseView]
      ensures formData == old(formData) && cart == old(cart)
      ensures isSubmitting == old(isSubmitting) && orderNumber == old(orderNumber)
    {
      orderComplete := false;
      effects := [CloseView];
    }
  }
}
