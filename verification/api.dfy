/**
 * The data-access layer (project/src/services/api.ts) over an abstract data
 * service. Every call to the service is answered by an explicit input: a
 * `Response` for the reads, a `Faults` record for the writes of order
 * creation. The clock and the random source are parameters too.
 */
module Api {
  import opened Wrappers
  import opened Types

  // ---------------------------------------------------------------------
  // Order numbers: "ORD-" + decimal timestamp + "-" + upper-cased random suffix
  // ---------------------------------------------------------------------

  predicate IsDigit(c: char) {
    '0' <= c <= '9'
  }

  predicate AllDigits(s: string) {
    forall i :: 0 <= i < |s| ==> IsDigit(s[i])
  }

  function DigitValue(c: char): (d: nat)
    requires IsDigit(c)
    ensures d < 10
  {
    c as int - '0' as int
  }

  function DigitChar(d: nat): (c: char)
    requires d < 10
    ensures IsDigit(c) && DigitValue(c) == d
  {
    ('0' as int + d) as char
  }

  /** The decimal numeral of `n`, as `String(Date.now())` writes it: no leading zeros. */
  function Decimal(n: nat): (s: string)
    ensures |s| >= 1 && AllDigits(s)
    ensures |s| > 1 ==> s[0] != '0'
    decreases n
  {
    if n < 10 then [DigitChar(n)] else Decimal(n / 10) + [DigitChar(n % 10)]
  }

  /** The value of a numeral. */
  function ParseDecimal(s: string): nat
    requires AllDigits(s)
  {
    if s == [] then 0 else ParseDecimal(s[..|s| - 1]) * 10 + DigitValue(s[|s| - 1])
  }

  lemma {:induction false} DecimalRoundTrip(n: nat)
    ensures ParseDecimal(Decimal(n)) == n
    decreases n
  {
    var s := Decimal(n);
    if n >= 10 {
      assert s[..|s| - 1] == Decimal(n / 10);
      DecimalRoundTrip(n / 10);
    }
  }

  /**
   * `Math.random().toString(36).substr(2, 9)`: up to nine characters after
   * the leading "0." of the random number's base-36 numeral.
   */
  function RandomSuffix(random36: string): (s: string)
    ensures |s| <= 9
    ensures |random36| <= 2 ==> s == []
    ensures |random36| > 2 ==> |s| == if |random36| - 2 < 9 then |random36| - 2 else 9
    ensures |random36| > 2 ==> s == random36[2..][..|s|]
  {
    if |random36| <= 2 then []
    else if |random36| - 2 < 9 then random36[2..]
    else random36[2..11]
  }

  function UpperChar(c: char): char {
    if 'a' <= c <= 'z' then (c as int - 32) as char else c
  }

  /** `toUpperCase` on the ASCII letters that a base-36 numeral holds. */
  function UpperCase(s: string): (u: string)
    ensures |u| == |s|
    ensures forall i :: 0 <= i < |s| ==> u[i] == UpperChar(s[i])
  {
    if s == [] then [] else [UpperChar(s[0])] + UpperCase(s[1..])
  }

  const OrderPrefix: string := "ORD-"

  /** The order number of an order created at time `now` with random numeral `random36`. */
  function OrderNumber(now: nat, random36: string): (o: string)
    ensures |o| >= 6 && o[..4] == OrderPrefix
    ensures |o| <= 5 + |Decimal(now)| + 9
  {
    OrderPrefix + Decimal(now) + "-" + UpperCase(RandomSuffix(random36))
  }

  /** The index of the first '-' in `s`, if there is one. */
  function DashIndex(s: string): (k: Option<nat>)
    ensures k.Some? ==> k.value < |s| && s[k.value] == '-' && '-' !in s[..k.value]
    ensures k.None? ==> '-' !in s
  {
    if s == [] then None
    else if s[0] == '-' then Some(0)
    else match DashIndex(s[1..])
      case None => None
      case Some(j) =>
        assert s[..j + 1] == [s[0]] + s[1..][..j];
        Some(j + 1)
  }

  /** Reads the timestamp and the suffix back out of an order number. */
  function ParseOrderNumber(o: string): Option<(nat, string)> {
    if |o| < 4 || o[..4] != OrderPrefix then None
    else
      var rest := o[4..];
      match DashIndex(rest)
      case None => None
      case Some(k) =>
        if AllDigits(rest[..k]) then Some((ParseDecimal(rest[..k]), rest[k + 1..])) else None
  }

  /** An order number determines the timestamp and the upper-cased suffix it was built from. */
  lemma OrderNumberRoundTrip(now: nat, random36: string)
    ensures ParseOrderNumber(OrderNumber(now, random36)) == Some((now, UpperCase(RandomSuffix(random36))))
  {
    var d := Decimal(now);
    var u := UpperCase(RandomSuffix(random36));
    var o := OrderNumber(now, random36);
    var rest := o[4..];
    assert rest == d + "-" + u;
    assert rest[|d|] == '-';
    assert rest[..|d|] == d;
    var k := DashIndex(rest);
    assert '-' !in d by {
      forall i | 0 <= i < |d| ensures d[i] != '-' { assert IsDigit(d[i]); }
    }
    assert k == Some(|d|);
    assert rest[|d| + 1..] == u;
    DecimalRoundTrip(now);
  }

  /** Orders created at different times never share an order number. */
  lemma OrderNumbersDifferAcrossTimestamps(t1: nat, t2: nat, r1: string, r2: string)
    requires OrderNumber(t1, r1) == OrderNumber(t2, r2)
    ensures t1 == t2
    ensures UpperCase(RandomSuffix(r1)) == UpperCase(RandomSuffix(r2))
  {
    OrderNumberRoundTrip(t1, r1);
    OrderNumberRoundTrip(t2, r2);
  }

  // ---------------------------------------------------------------------
  // Answers of the data service
  // ---------------------------------------------------------------------

  /** An error the data service reports. */
  datatype PgError = PgError(code: string, message: string)

  /** The code `.single()` reports when no row matches. */
  const NoRowsCode: string := "PGRST116"

  /** The `{ data, error }` pair a query resolves to. */
  datatype Response<T> = Response(data: Option<T>, error: Option<PgError>)

  /** The list calls: throw the error, else the rows, or `[]` when there are none. */
  function ListOrEmpty<T>(resp: Response<seq<T>>): (r: Result<seq<T>, PgError>)
    ensures r.Failure? <==> resp.error.Some?
    ensures r.Failure? ==> r.error == resp.error.value
    ensures r.Success? && resp.data.None? ==> r.value == []
    ensures r.Success? && resp.data.Some? ==> r.value == resp.data.value
  {
    if resp.error.Some? then Failure(resp.error.value) else Success(resp.data.GetOr([]))
  }

  /** The single-row calls: "no rows" becomes `null`, any other error is thrown. */
  function SingleOrNull<T>(resp: Response<T>): (r: Result<Option<T>, PgError>)
  {
    if resp.error.Some? then
      if resp.error.value.code == NoRowsCode then Success(None) else Failure(resp.error.value)
    else Success(resp.data)
  }

  /**
   * A single-row read fails exactly on an error other than "no rows", with
   * that error, and yields a row exactly when the service returned one
   * without error.
   */
  lemma SingleOrNullOutcomes<T>(resp: Response<T>)
    ensures SingleOrNull(resp).Failure? <==> resp.error.Some? && resp.error.value.code != NoRowsCode
    ensures SingleOrNull(resp).Failure? ==> SingleOrNull(resp).error == resp.error.value
    ensures SingleOrNull(resp) == Success(None) <==> (resp.error.Some? && resp.error.value.code == NoRowsCode) || (resp.error.None? && resp.data.None?)
    ensures (SingleOrNull(resp).Success? && SingleOrNull(resp).value.Some?) <==> resp.error.None? && resp.data.Some?
  {
  }

  // ---------------------------------------------------------------------
  // Reads: categories, products, one product, one order
  // ---------------------------------------------------------------------

  /** A clause of a query against the data service. */
  datatype Clause =
    | Eq(column: string, value: Value)
    | MatchesAny(pattern: string)
    | Limit(count: int)
    | OrderBy(column: string, ascending: bool)
    | Single

  datatype ProductFilters = ProductFilters(
    category: Option<string>,
    featured: Option<bool>,
    limit: Option<int>,
    search: Option<string>)

  const ActiveOnly: Clause := Eq("status", Text(ProductStatusName(Active)))
  const NewestFirst: Clause := OrderBy("created_at", false)

  /** `getCategories`: ordered by name, rows or `[]`. */
  method GetCategories(resp: Response<seq<Category>>) returns (query: seq<Clause>, r: Result<seq<Category>, PgError>)
    ensures query == [OrderBy("name", true)]
    ensures r == ListOrEmpty(resp)
  {
    query := [OrderBy("name", true)];
    r := ListOrEmpty(resp);
  }

  /** The category filter is applied when it is a non-empty string. */
  function CategoryClauses(f: Option<ProductFilters>): seq<Clause> {
    if f.Some? && f.value.category.Some? && f.value.category.value != "" then [Eq("category_id", Text(f.value.category.value))] else []
  }

  /** The featured filter is applied only when it is `true`. */
  function FeaturedClauses(f: Option<ProductFilters>): seq<Clause> {
    if f.Some? && f.value.featured == Some(true) then [Eq("featured", Flag(true))] else []
  }

  /** The search text is matched against name or description when it is non-empty. */
  function SearchClauses(f: Option<ProductFilters>): seq<Clause> {
    if f.Some? && f.value.search.Some? && f.value.search.value != "" then
      var s := f.value.search.value;
      [MatchesAny("name.ilike.%" + s + "%,description.ilike.%" + s + "%")]
    else []
  }

  /** The row limit is applied when it is non-zero. */
  function LimitClauses(f: Option<ProductFilters>): seq<Clause> {
    if f.Some? && f.value.limit.Some? && f.value.limit.value != 0 then [Limit(f.value.limit.value)] else []
  }

  /** The number of filters that are truthy. */
  function TruthyFilterCount(f: Option<ProductFilters>): (n: nat)
    ensures n <= 4
  {
    |CategoryClauses(f)| + |FeaturedClauses(f)| + |SearchClauses(f)| + |LimitClauses(f)|
  }

  /**
   * `getProducts`: the query is built clause by clause, always restricted to
   * active products and ordered newest first, with one clause per truthy filter.
   */
  method GetProducts(filters: Option<ProductFilters>, resp: Response<seq<Product>>)
    returns (query: seq<Clause>, r: Result<seq<Product>, PgError>)
    ensures query == [ActiveOnly] + CategoryClauses(filters) + FeaturedClauses(filters)
                     + SearchClauses(filters) + LimitClauses(filters) + [NewestFirst]
    ensures |query| == 2 + TruthyFilterCount(filters)
    ensures query[0] == ActiveOnly && query[|query| - 1] == NewestFirst
    ensures r == ListOrEmpty(resp)
  {
    query := [ActiveOnly];
    if filters.Some? && filters.value.category.Some? && filters.value.category.value != "" {
      query := query + [Eq("category_id", Text(filters.value.category.value))];
    }
    if filters.Some? && filters.value.featured == Some(true) {
      query := query + [Eq("featured", Flag(true))];
    }
    if filters.Some? && filters.value.search.Some? && filters.value.search.value != "" {
      var s := filters.value.search.value;
      query := query + [MatchesAny("name.ilike.%" + s + "%,description.ilike.%" + s + "%")];
    }
    if filters.Some? && filters.value.limit.Some? && filters.value.limit.value != 0 {
      query := query + [Limit(filters.value.limit.value)];
    }
    query := query + [NewestFirst];
    r := ListOrEmpty(resp);
  }

  /** Falsy filters (`featured: false`, `limit: 0`, empty strings) add no clause. */
  lemma FalsyFiltersAddNothing(f: ProductFilters)
    requires f.featured.None? || f.featured == Some(false)
    requires f.limit.None? || f.limit == Some(0)
    requires f.category.None? || f.category == Some("")
    requires f.search.None? || f.search == Some("")
    ensures TruthyFilterCount(Some(f)) == 0
    ensures CategoryClauses(Some(f)) + FeaturedClauses(Some(f)) + SearchClauses(Some(f)) + LimitClauses(Some(f)) == []
  {
  }

  /** `getProduct`: the active product with this slug, `null` when there is none. */
  method GetProduct(slug: string, resp: Response<Product>) returns (query: seq<Clause>, r: Result<Option<Product>, PgError>)
    ensures query == [Eq("slug", Text(slug)), ActiveOnly, Single]
    ensures r == SingleOrNull(resp)
  {
    query := [Eq("slug", Text(slug)), ActiveOnly, Single];
    r := SingleOrNull(resp);
  }

  /** `getOrder`: the order with this number, `null` when there is none. */
  method GetOrder(orderNumber: string, resp: Response<Order>) returns (query: seq<Clause>, r: Result<Option<Order>, PgError>)
    ensures query == [Eq("order_number", Text(orderNumber)), Single]
    ensures r == SingleOrNull(resp)
  {
    query := [Eq("order_number", Text(orderNumber)), Single];
    r := SingleOrNull(resp);
  }

  // ---------------------------------------------------------------------
  // Order creation
  // ---------------------------------------------------------------------

  /** A line of the order payload. */
  datatype LineItem = LineItem(productId: Id, quantity: int, price: real)

  datatype Totals = Totals(subtotal: real, tax: real, shipping: real, total: real)

  /** The argument of `createOrder`. */
  datatype OrderData = OrderData(
    customer: PartialRecord,
    items: seq<LineItem>,
    billing: PartialRecord,
    shipping: PartialRecord,
    totals: Totals,
    paymentMethod: string)

  /** The errors the service reports for each step of order creation; `None` is success. */
  datatype Faults = Faults(
    lookup: Option<PgError>,
    customerInsert: Option<PgError>,
    orderInsert: Option<PgError>,
    itemsInsert: Option<PgError>)

  /** The rows of the data service that order creation reads and writes. */
  datatype Db = Db(
    customers: seq<Customer>,
    orders: seq<Order>,
    orderItems: seq<OrderItem>,
    nextId: Id)

  /** The customer rows whose email equals `email`, in table order. */
  function WithEmail(cs: seq<Customer>, email: Field): (r: seq<Customer>)
    ensures |r| <= |cs|
    ensures forall c :: c in r <==> c in cs && c.email == email
  {
    if cs == [] then []
    else (if cs[0].email == email then [cs[0]] else []) + WithEmail(cs[1..], email)
  }

  /** Each row with the email is kept as often as it occurs; every other row is dropped. */
  lemma {:induction false} WithEmailMultiplicity(cs: seq<Customer>, email: Field)
    ensures forall c :: multiset(WithEmail(cs, email))[c] == if c.email == email then multiset(cs)[c] else 0
  {
    if cs != [] {
      assert cs == [cs[0]] + cs[1..];
      WithEmailMultiplicity(cs[1..], email);
    }
  }

  lemma {:induction false} WithEmailAppend(a: seq<Customer>, b: seq<Customer>, email: Field)
    ensures WithEmail(a + b, email) == WithEmail(a, email) + WithEmail(b, email)
  {
    if a != [] {
      assert (a + b)[1..] == a[1..] + b;
      WithEmailAppend(a[1..], b, email);
    } else {
      assert a + b == b;
    }
  }

  /** `.eq('email', email).single()`: a row only when exactly one row matches. */
  function SingleByEmail(cs: seq<Customer>, email: Field): (r: Option<Customer>)
    ensures r.Some? <==> |WithEmail(cs, email)| == 1
    ensures r.Some? ==> r.value in cs && r.value.email == email
  {
    var rows := WithEmail(cs, email);
    if |rows| == 1 then
      assert rows[0] in rows;
      Some(rows[0])
    else None
  }

  /** No two customer rows share an email. */
  ghost predicate UniqueEmails(cs: seq<Customer>) {
    forall e: Field {:trigger WithEmail(cs, e)} :: |WithEmail(cs, e)| <= 1
  }

  /** The customer row inserted for the form's customer record. */
  function NewCustomer(id: Id, c: PartialRecord): Customer {
    Customer(id, Get(c, "email"), Get(c, "first_name"), Get(c, "last_name"), Get(c, "phone"))
  }

  /** The order row inserted for an order: both statuses start as pending. */
  function NewOrder(id: Id, orderNumber: string, customerId: Id, data: OrderData): Order {
    Order(id, orderNumber, Some(customerId), Pending,
          data.totals.total, data.totals.subtotal, data.totals.tax, data.totals.shipping,
          data.billing, data.shipping, PaymentPending, Some(data.paymentMethod))
  }

  /** The order-item rows: one per payload line, each with its line total. */
  function ItemRows(orderId: Id, items: seq<LineItem>): (rows: seq<OrderItem>)
    ensures |rows| == |items|
    ensures forall i :: 0 <= i < |items| ==>
      rows[i].orderId == orderId && rows[i].productId == items[i].productId
      && rows[i].quantity == items[i].quantity && rows[i].price == items[i].price
      && rows[i].total == rows[i].price * rows[i].quantity as real
  {
    if items == [] then []
    else
      var it := items[0];
      [OrderItem(orderId, it.productId, it.quantity, it.price, it.price * it.quantity as real)]
        + ItemRows(orderId, items[1..])
  }

  /**
   * Lines 85-108: the customer an order belongs to. The lookup's error is
   * never inspected: a failed lookup reads as "no customer" and leads to
   * an insert.
   */
  function ResolveCustomer(db: Db, c: PartialRecord, faults: Faults): Result<(Customer, Db), PgError> {
    var found := if faults.lookup.Some? then None else SingleByEmail(db.customers, Get(c, "email"));
    if found.Some? then Success((found.value, db))
    else if faults.customerInsert.Some? then Failure(faults.customerInsert.value)
    else
      var row := NewCustomer(db.nextId, c);
      Success((row, db.(customers := db.customers + [row], nextId := db.nextId + 1)))
  }

  /** `createOrder`: the outcome and the service's rows afterwards. */
  function CreateOrderSpec(db: Db, data: OrderData, now: nat, random36: string, faults: Faults): (Result<Order, PgError>, Db) {
    match ResolveCustomer(db, data.customer, faults)
    case Failure(e) => (Failure(e), db)
    case Success((customer, db1)) =>
      if faults.orderInsert.Some? then (Failure(faults.orderInsert.value), db1)
      else
        var order := NewOrder(db1.nextId, OrderNumber(now, random36), customer.id, data);
        var db2 := db1.(orders := db1.orders + [order], nextId := db1.nextId + 1);
        if faults.itemsInsert.Some? then (Failure(faults.itemsInsert.value), db2)
        else (Success(order), db2.(orderItems := db2.orderItems + ItemRows(order.id, data.items)))
  }

  /** Whether the email lookup yields a customer that is then reused. */
  predicate LookupFinds(db: Db, data: OrderData, faults: Faults) {
    faults.lookup.None? && SingleByEmail(db.customers, Get(data.customer, "email")).Some?
  }

  /** The data service, with the tables order creation touches. */
  class Store {
    var customers: seq<Customer>
    var orders: seq<Order>
    var orderItems: seq<OrderItem>
    var nextId: Id

    function State(): Db
      reads this
    {
      Db(customers, orders, orderItems, nextId)
    }

    constructor (db: Db)
      ensures State() == db
    {
      customers, orders, orderItems, nextId := db.customers, db.orders, db.orderItems, db.nextId;
    }

    /** `createOrder`, step by step, each failing write throwing before the next one. */
    method CreateOrder(data: OrderData, now: nat, random36: string, faults: Faults) returns (r: Result<Order, PgError>)
      modifies this
      ensures (r, State()) == CreateOrderSpec(old(State()), data, now, random36, faults)
    {
      var orderNumber := OrderNumber(now, random36);

      var customer: Customer;
      var existing: Option<Customer> := None;
      if faults.lookup.None? {
        existing := SingleByEmail(customers, Get(data.customer, "email"));
      }
      if existing.Some? {
        customer := existing.value;
      } else {
        if faults.customerInsert.Some? {
          return Failure(faults.customerInsert.value);
        }
        customer := NewCustomer(nextId, data.customer);
        customers := customers + [customer];
        nextId := nextId + 1;
      }

      if faults.orderInsert.Some? {
        return Failure(faults.orderInsert.value);
      }
      var order := NewOrder(nextId, orderNumber, customer.id, data);
      orders := orders + [order];
      nextId := nextId + 1;

      var rows := ItemRows(order.id, data.items);
      if faults.itemsInsert.Some? {
        return Failure(faults.itemsInsert.value);
      }
      orderItems := orderItems + rows;
      return Success(order);
    }
  }

  // ---------------------------------------------------------------------
  // Properties of order creation
  // ---------------------------------------------------------------------

  /** A customer the lookup finds is reused: no customer row is written. */
  lemma ExistingCustomerIsReused(db: Db, data: OrderData, now: nat, random36: string, faults: Faults)
    requires LookupFinds(db, data, faults)
    ensures CreateOrderSpec(db, data, now, random36, faults).1.customers == db.customers
    ensures var r := CreateOrderSpec(db, data, now, random36, faults).0;
      r.Success? ==> r.value.customerId == Some(SingleByEmail(db.customers, Get(data.customer, "email")).value.id)
  {
  }

  /**
   * When the lookup yields nothing, exactly one customer row is inserted,
   * carrying the form's email, names and phone, and the order refers to it.
   */
  lemma MissingCustomerIsInsertedOnce(db: Db, data: OrderData, now: nat, random36: string, faults: Faults)
    requires !LookupFinds(db, data, faults) && faults.customerInsert.None?
    ensures var db' := CreateOrderSpec(db, data, now, random36, faults).1;
      |db'.customers| == |db.customers| + 1 && db'.customers[..|db.customers|] == db.customers
      && db'.customers[|db.customers|] == Customer(db.nextId, Get(data.customer, "email"),
           Get(data.customer, "first_name"), Get(data.customer, "last_name"), Get(data.customer, "phone"))
    ensures var r := CreateOrderSpec(db, data, now, random36, faults).0;
      r.Success? ==> r.value.customerId == Some(db.nextId)
  {
    var db' := CreateOrderSpec(db, data, now, random36, faults).1;
    assert db'.customers == db.customers + [NewCustomer(db.nextId, data.customer)];
  }

  /**
   * A failed lookup falls through to the insert: a customer whose email is
   * already stored gets a second row with the same email.
   */
  lemma LookupErrorDuplicatesCustomer(db: Db, data: OrderData, now: nat, random36: string, faults: Faults)
    requires |WithEmail(db.customers, Get(data.customer, "email"))| == 1
    requires faults.lookup.Some? && faults.customerInsert.None?
    ensures |WithEmail(CreateOrderSpec(db, data, now, random36, faults).1.customers, Get(data.customer, "email"))| == 2
  {
    var e := Get(data.customer, "email");
    var row := NewCustomer(db.nextId, data.customer);
    assert CreateOrderSpec(db, data, now, random36, faults).1.customers == db.customers + [row];
    WithEmailAppend(db.customers, [row], e);
    assert WithEmail([row], e) == [row] + WithEmail([], e);
  }

  /** With a lookup that does not fail, order creation never creates a second row for an email. */
  lemma UniqueEmailsPreserved(db: Db, data: OrderData, now: nat, random36: string, faults: Faults)
    requires UniqueEmails(db.customers) && faults.lookup.None?
    ensures UniqueEmails(CreateOrderSpec(db, data, now, random36, faults).1.customers)
  {
    var e := Get(data.customer, "email");
    var cs' := CreateOrderSpec(db, data, now, random36, faults).1.customers;
    if !LookupFinds(db, data, faults) && faults.customerInsert.None? {
      var row := NewCustomer(db.nextId, data.customer);
      assert cs' == db.customers + [row];
      assert |WithEmail(db.customers, e)| == 0;
      forall e': Field ensures |WithEmail(cs', e')| <= 1 {
        WithEmailAppend(db.customers, [row], e');
        assert WithEmail([row], e') == (if row.email == e' then [row] else []) + WithEmail([], e');
      }
    }
  }

  /**
   * A created order is stored last, is pending and unpaid, carries the
   * generated number, the payload's totals, addresses and payment method,
   * and has one item row per payload line.
   */
  lemma CreatedOrderIsPending(db: Db, data: OrderData, now: nat, random36: string, faults: Faults)
    requires CreateOrderSpec(db, data, now, random36, faults).0.Success?
    ensures var (r, db') := CreateOrderSpec(db, data, now, random36, faults);
      var o := r.value;
      && o.status == Pending && o.paymentStatus == PaymentPending
      && o.orderNumber == OrderNumber(now, random36)
      && o.totalAmount == data.totals.total && o.subtotal == data.totals.subtotal
      && o.taxAmount == data.totals.tax && o.shippingAmount == data.totals.shipping
      && o.billingAddress == data.billing && o.shippingAddress == data.shipping
      && o.paymentMethod == Some(data.paymentMethod)
      && db'.orders == db.orders + [o]
      && db'.orderItems == db.orderItems + ItemRows(o.id, data.items)
  {
  }

  /** Order creation succeeds exactly when every write it attempts succeeds. */
  lemma CreateOrderSucceedsIffWritesSucceed(db: Db, data: OrderData, now: nat, random36: string, faults: Faults)
    ensures CreateOrderSpec(db, data, now, random36, faults).0.Success?
      <==> (LookupFinds(db, data, faults) || faults.customerInsert.None?)
           && faults.orderInsert.None? && faults.itemsInsert.None?
  {
  }

  /** A failed customer insert throws its error and writes nothing. */
  lemma CustomerInsertFailureWritesNothing(db: Db, data: OrderData, now: nat, random36: string, faults: Faults)
    requires !LookupFinds(db, data, faults) && faults.customerInsert.Some?
    ensures CreateOrderSpec(db, data, now, random36, faults) == (Failure(faults.customerInsert.value), db)
  {
  }

  /** A failed order insert throws its error; no order and no item is written. */
  lemma OrderInsertFailureWritesNoOrder(db: Db, data: OrderData, now: nat, random36: string, faults: Faults)
    requires LookupFinds(db, data, faults) || faults.customerInsert.None?
    requires faults.orderInsert.Some?
    ensures var (r, db') := CreateOrderSpec(db, data, now, random36, faults);
      r == Failure(faults.orderInsert.value) && db'.orders == db.orders && db'.orderItems == db.orderItems
  {
  }

  /**
   * A failed item insert throws its error and leaves the already inserted
   * order row behind, without items.
   */
  lemma ItemsInsertFailureLeavesOrphanOrder(db: Db, data: OrderData, now: nat, random36: string, faults: Faults)
    requires LookupFinds(db, data, faults) || faults.customerInsert.None?
    requires faults.orderInsert.None? && faults.itemsInsert.Some?
    ensures var (r, db') := CreateOrderSpec(db, data, now, random36, faults);
      r == Failure(faults.itemsInsert.value)
      && |db'.orders| == |db.orders| + 1 && db'.orders[..|db.orders|] == db.orders
      && db'.orders[|db.orders|].orderNumber == OrderNumber(now, random36)
      && db'.orderItems == db.orderItems
  {
    var db' := CreateOrderSpec(db, data, now, random36, faults).1;
    assert db'.orders[..|db.orders|] == db.orders;
  }
}
