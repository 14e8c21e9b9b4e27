/**
 * The records of the storefront (project/src/types/index.ts): products,
 * customers, orders, order items, cart items and the checkout form data.
 * Identifiers that the data service generates (uuids) are modelled as
 * natural numbers; money is `real`; counts are `int`.
 */
module Types {
  import opened Wrappers

  type Id = nat

  /** A value written into a form record: an input's text or a checkbox state. */
  datatype Value = Text(text: string) | Flag(flag: bool)

  /** A property read from a partial record: `None` when it is undefined. */
  type Field = Option<Value>

  /** A `Partial<...>` record whose properties are addressed by name at run time. */
  type PartialRecord = map<string, Value>

  function Get(r: PartialRecord, name: string): (f: Field)
    ensures f.Some? <==> name in r
    ensures f.Some? ==> r[name] == f.value
  {
    if name in r then Some(r[name]) else None
  }

  datatype ProductStatus = Active | Inactive

  datatype OrderStatus = Pending | Processing | Shipped | Delivered | Cancelled

  datatype PaymentStatus = PaymentPending | Paid | PaymentFailed | Refunded

  /** The column value the service stores for a product status. */
  function ProductStatusName(s: ProductStatus): (name: string)
    ensures name == "active" || name == "inactive"
  {
    match s
    case Active => "active"
    case Inactive => "inactive"
  }

  function ParseProductStatus(name: string): (s: Option<ProductStatus>)
    ensures s.Some? <==> name == "active" || name == "inactive"
  {
    if name == "active" then Some(Active)
    else if name == "inactive" then Some(Inactive)
    else None
  }

  function OrderStatusName(s: OrderStatus): string {
    match s
    case Pending => "pending"
    case Processing => "processing"
    case Shipped => "shipped"
    case Delivered => "delivered"
    case Cancelled => "cancelled"
  }

  function ParseOrderStatus(name: string): (s: Option<OrderStatus>)
    ensures s.Some? <==> name in {"pending", "processing", "shipped", "delivered", "cancelled"}
  {
    if name == "pending" then Some(Pending)
    else if name == "processing" then Some(Processing)
    else if name == "shipped" then Some(Shipped)
    else if name == "delivered" then Some(Delivered)
    else if name == "cancelled" then Some(Cancelled)
    else None
  }

  function PaymentStatusName(s: PaymentStatus): string {
    match s
    case PaymentPending => "pending"
    case Paid => "paid"
    case PaymentFailed => "failed"
    case Refunded => "refunded"
  }

  function ParsePaymentStatus(name: string): (s: Option<PaymentStatus>)
    ensures s.Some? <==> name in {"pending", "paid", "failed", "refunded"}
  {
    if name == "pending" then Some(PaymentPending)
    else if name == "paid" then Some(Paid)
    else if name == "failed" then Some(PaymentFailed)
    else if name == "refunded" then Some(Refunded)
    else None
  }

  /** Each status name parses back to its status, and only the names do. */
  lemma StatusNamesRoundTrip(p: ProductStatus, o: OrderStatus, y: PaymentStatus)
    ensures ParseProductStatus(ProductStatusName(p)) == Some(p)
    ensures ParseOrderStatus(OrderStatusName(o)) == Some(o)
    ensures ParsePaymentStatus(PaymentStatusName(y)) == Some(y)
  {
    match o
    case Pending =>
    case Processing =>
    case Shipped =>
    case Delivered =>
    case Cancelled =>
  }

  /** A product category. */
  datatype Category = Category(
    id: Id,
    name: string,
    description: Option<string>,
    imageUrl: Option<string>,
    slug: string)

  /** A catalogue product. `price` is required, `salePrice` optional. */
  datatype Product = Product(
    id: Id,
    name: string,
    description: Option<string>,
    price: real,
    salePrice: Option<real>,
    sku: string,
    stockQuantity: int,
    categoryId: Option<Id>,
    images: seq<string>,
    slug: string,
    featured: bool,
    status: ProductStatus)

  /**
   * A customer row. The interface declares email and names as strings; a row
   * that order creation inserts carries whatever the checkout form held, which
   * may be undefined, so every field keeps the optional shape.
   */
  datatype Customer = Customer(
    id: Id,
    email: Field,
    firstName: Field,
    lastName: Field,
    phone: Field)

  /** An order row; addresses are the form's partial address records. */
  datatype Order = Order(
    id: Id,
    orderNumber: string,
    customerId: Option<Id>,
    status: OrderStatus,
    totalAmount: real,
    subtotal: real,
    taxAmount: real,
    shippingAmount: real,
    billingAddress: PartialRecord,
    shippingAddress: PartialRecord,
    paymentStatus: PaymentStatus,
    paymentMethod: Option<string>)

  /** An order line, with its own quantity, unit price and line total. */
  datatype OrderItem = OrderItem(
    orderId: Id,
    productId: Id,
    quantity: int,
    price: real,
    total: real)

  /** A cart entry: a product and a quantity. */
  datatype CartItem = CartItem(product: Product, quantity: int)

  /**
   * The checkout form. `otherSections` holds records written under a key the
   * interface does not declare: JavaScript's computed property names let the
   * form handler create such keys.
   */
  datatype CheckoutData = CheckoutData(
    customer: PartialRecord,
    billingAddress: PartialRecord,
    shippingAddress: PartialRecord,
    paymentMethod: string,
    sameAsBilling: bool,
    otherSections: map<string, PartialRecord>)
}
