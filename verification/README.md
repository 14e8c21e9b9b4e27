# Storefront checkout, catalogue display and order creation in Dafny

This project models the computational core of a small storefront web shop:

- the product card and product detail modal: the price shown, the discount
  badge and its percentage, the stock guards, the quantity selector and the
  cart calls the Add buttons make;
- the checkout view: the 8% tax and free-shipping rule, the checkout form and
  its update handler, the order payload built from the form and the cart, and
  the submission state (`isSubmitting`, `orderComplete`, `orderNumber`,
  clearing the cart);
- the data-access layer: the order-number format, customer get-or-create,
  the order and order-item rows with their abort points, the product query's
  filter clauses, and the mapping of "no rows" to `null`;
- the records those parts exchange: products, customers, orders, order
  items, cart items and checkout data, with their status enumerations.

Money is `real` (exact), counts are `int`, uuids are natural numbers handed
out by the store. The data service is an abstract store (`Api.Store`: customer
rows, order rows, order-item rows). The answers of the read calls are explicit
inputs (a `Response` each), and a `Faults` record says which step of order
creation fails. The one answer the model computes itself is order creation's
email lookup: it is taken from the stored customer rows, and `.single()` is
modelled as yielding a row only when exactly one row has the email
(`Api.SingleByEmail`); only the lookup's error is an input. The clock and the random numeral for the order number are
parameters. The cart total comes from the cart hook, which is not part of this
model, so it is a parameter as well, and `clearCart` is modelled as emptying
the checkout view's copy of the cart.

Modules: `Wrappers` (Option, Result), `Types` (types/index.ts), `Catalog`
(the price, discount and image rules shared by the card, the modal and the
checkout), `ProductCard`, `ProductModal`, `Checkout`, `Api` (services/api.ts).

Where the code does something other than what it signals, the model follows
the code:

- Order creation is commented "Create or get customer"
  (project/src/services/api.ts:84), but it ignores the email lookup's error,
  so a failed lookup inserts a second row for an email that is already stored
  (`Api.LookupErrorDuplicatesCustomer`). Without a lookup failure no duplicate
  arises (`Api.UniqueEmailsPreserved`).
- The checkout offers a "Same as billing" checkbox and a PayPal radio button
  (project/src/components/Checkout.tsx:269-277, 304-313), but their handlers
  write under the empty section key, so the submitted order always ships to
  the billing address and is paid by credit card
  (`Checkout.SubmittedShippingIsBilling`).
- The product modal's quantity selector is bounded by the product's stock
  (project/src/components/ProductModal.tsx:27-31), but the quantity and the
  selected image are not reset between products, so a quantity beyond the
  shown product's stock can be added (`ProductModal.StaleQuantityCarriesOver`).

## Model

| member | source | states |
|---|---|---|
| `Types.ParseProductStatus` | project/src/types/index.ts:22 | a product status is exactly "active" or "inactive" |
| `Types.ParseOrderStatus` | project/src/types/index.ts:59 | an order status is exactly one of pending, processing, shipped, delivered, cancelled |
| `Types.ParsePaymentStatus` | project/src/types/index.ts:66 | a payment status is exactly one of pending, paid, failed, refunded |
| `Types.StatusNamesRoundTrip` | project/src/types/index.ts:10-66 | every status name parses back to its own status |
| `Catalog.CurrentPrice` | project/src/components/ProductCard.tsx:14-15 | the sale price is used exactly when it is truthy (present and non-zero), else the base price |
| `Catalog.SalePriceAlwaysWins` | project/src/components/ProductModal.tsx:19-20 | any non-zero sale price is charged and shown as a discount, even one above the base price |
| `Catalog.ZeroSalePriceIsIgnored` | project/src/components/ProductCard.tsx:14-15 | a sale price of 0 falls back to the base price and shows no discount |
| `Catalog.Round` | project/src/components/ProductCard.tsx:35 | the result is the nearest integer, halves rounded up |
| `Catalog.DiscountPercent` | project/src/components/ProductCard.tsx:35 | the percentage is a finite number exactly when the base price is non-zero |
| `Catalog.DiscountWithinPercentRange` | project/src/components/ProductModal.tsx:115 | a sale price in (0, price] shows a percentage between 0 and 100 |
| `Catalog.MarkupShowsNonPositiveDiscount` | project/src/components/ProductCard.tsx:33-35 | a sale price above the base price still shows a badge, with a percentage of at most 0 |
| `Catalog.ImageAt` | project/src/components/ProductModal.tsx:62 | the image at the index when it exists and is non-empty, the placeholder when it is missing or empty |
| `ProductCard.Render` | project/src/components/ProductCard.tsx:14-115 | badge iff discount, featured badge iff featured, "In Stock" iff stock > 0, bottom Add disabled iff stock == 0, overlay Add never disabled |
| `ProductCard.HandleAddToCart` | project/src/components/ProductCard.tsx:17-20 | the card adds the product and passes no quantity |
| `ProductCard.OutOfStockStillAddableFromOverlay` | project/src/components/ProductCard.tsx:56-110 | at stock 0 the bottom button is disabled yet the overlay Add still adds the product |
| `ProductCard.NegativeStockLeavesButtonEnabled` | project/src/components/ProductCard.tsx:99-110 | a negative stock shows "Out of Stock" but leaves the bottom button enabled |
| `ProductModal.NoQuantityWithoutStock` | project/src/components/ProductModal.tsx:27-31 | with no stock no quantity is accepted |
| `ProductModal.Modal.constructor` | project/src/components/ProductModal.tsx:14-15 | quantity starts at 1 and the selected image at 0 |
| `ProductModal.Modal.HandleQuantityChange` | project/src/components/ProductModal.tsx:27-31 | the quantity becomes n iff 1 <= n <= stock, else is unchanged; it stays at least 1 |
| `ProductModal.Modal.SelectImage` | project/src/components/ProductModal.tsx:69-72 | a thumbnail click selects its index and leaves the quantity alone |
| `ProductModal.Modal.HandleAddToCart` | project/src/components/ProductModal.tsx:22-25 | adds the product with the current quantity (at least 1), then closes |
| `ProductModal.Modal.Render` | project/src/components/ProductModal.tsx:17-152 | renders nothing iff closed or no product; otherwise shows the held quantity, the image at the held index, the current price, the struck-through price and the rounded discount percentage exactly when the sale price is truthy, Add disabled iff stock == 0 |
| `ProductModal.StaleQuantityCarriesOver` | project/src/components/ProductModal.tsx:14-17 | a quantity of 5 chosen for one product is shown and added for a product with stock 2 |
| `ProductModal.StaleImageFallsBack` | project/src/components/ProductModal.tsx:15-62 | an image index kept from a product with three images shows the placeholder for a product with one image |
| `Api.Decimal` | project/src/services/api.ts:82 | the timestamp's numeral is non-empty, all digits, no leading zero |
| `Api.DecimalRoundTrip` | project/src/services/api.ts:82 | the numeral reads back as the timestamp |
| `Api.RandomSuffix` | project/src/services/api.ts:82 | the suffix is the at most nine characters after the leading "0." |
| `Api.UpperCase` | project/src/services/api.ts:82 | the suffix keeps its length and each letter is upper-cased |
| `Api.OrderNumber` | project/src/services/api.ts:82 | the order number starts with "ORD-" and is at most 14 characters longer than the timestamp's numeral |
| `Api.OrderNumberRoundTrip` | project/src/services/api.ts:82 | the timestamp and the upper-cased suffix can be read back out of the order number |
| `Api.OrderNumbersDifferAcrossTimestamps` | project/src/services/api.ts:82 | orders created at different timestamps get different order numbers |
| `Api.ListOrEmpty` | project/src/services/api.ts:12-13 | a list call throws the error, else returns the rows or [] when there are none |
| `Api.SingleOrNullOutcomes` | project/src/services/api.ts:66-70 | a single-row read throws exactly on an error other than PGRST116, returns null on PGRST116, returns the row otherwise |
| `Api.GetCategories` | project/src/services/api.ts:6-14 | categories are ordered by name; rows or [] |
| `Api.GetProducts` | project/src/services/api.ts:17-53 | the query always restricts to active products and orders newest first, with one clause per truthy filter |
| `Api.FalsyFiltersAddNothing` | project/src/services/api.ts:31-45 | featured false, limit 0 and empty strings add no clause |
| `Api.GetProduct` | project/src/services/api.ts:55-71 | the active product with the slug, null when there is none |
| `Api.GetOrder` | project/src/services/api.ts:149-168 | the order with the number, null when there is none |
| `Api.WithEmail` | project/src/services/api.ts:86-89 | exactly the customer rows whose email matches |
| `Api.WithEmailMultiplicity` | project/src/services/api.ts:86-89 | every row with the email is kept as often as it is stored, so the count of matching rows is the count the email filter returns |
| `Api.SingleByEmail` | project/src/services/api.ts:86-90 | the lookup yields a row iff exactly one row has the email |
| `Api.ItemRows` | project/src/services/api.ts:132-138 | one row per payload line, in order, with the order's id and total = price x quantity |
| `Api.Store.CreateOrder` | project/src/services/api.ts:74-147 | the outcome and the new store are those of `Api.CreateOrderSpec`: customer resolution, order insert, items insert, each failure throwing before the next write |
| `Api.ExistingCustomerIsReused` | project/src/services/api.ts:92-93 | a found customer is reused: no customer row is written and the order refers to it |
| `Api.MissingCustomerIsInsertedOnce` | project/src/services/api.ts:94-108 | otherwise exactly one customer row is appended with the form's email, names and phone, and the order refers to it |
| `Api.LookupErrorDuplicatesCustomer` | project/src/services/api.ts:86-108 | a failed lookup for a stored email inserts a second row with that email |
| `Api.UniqueEmailsPreserved` | project/src/services/api.ts:84-108 | without a lookup failure, one row per email stays one row per email |
| `Api.CreatedOrderIsPending` | project/src/services/api.ts:110-146 | a created order is pending and unpaid, carries the generated number, the payload's totals, addresses and method, and its item rows follow |
| `Api.CreateOrderSucceedsIffWritesSucceed` | project/src/services/api.ts:106-146 | order creation succeeds iff every write it attempts succeeds |
| `Api.CustomerInsertFailureWritesNothing` | project/src/services/api.ts:95-106 | a failed customer insert throws its error and the store is unchanged |
| `Api.OrderInsertFailureWritesNoOrder` | project/src/services/api.ts:110-129 | a failed order insert throws its error and writes no order and no item |
| `Api.ItemsInsertFailureLeavesOrphanOrder` | project/src/services/api.ts:110-144 | a failed item insert throws its error and leaves the order row behind without items |
| `Checkout.Shipping` | project/src/components/Checkout.tsx:53 | shipping is 0 exactly when the subtotal is above 50, else 9.99 |
| `Checkout.PriceOrder` | project/src/components/Checkout.tsx:51-54 | tax is 8% of the subtotal and the total is subtotal + tax + shipping |
| `Checkout.PricingExamples` | project/src/components/Checkout.tsx:51-54 | 42.00 gives tax 3.36, shipping 9.99, total 55.35; 60.00 gives 4.80, 0, 64.80; exactly 50 pays 9.99 |
| `Checkout.TotalBounds` | project/src/components/Checkout.tsx:51-54 | the total lies between 1.08 x subtotal and that plus 9.99, and equals 1.08 x subtotal iff shipping is free |
| `Checkout.TotalNotMonotone` | project/src/components/Checkout.tsx:53-54 | a 50.00 cart costs more in total than a 50.01 cart |
| `Checkout.WithField` | project/src/components/Checkout.tsx:56-64 | only `formData[section][field]` changes; every other section, the payment method and "same as billing" keep their values |
| `Checkout.HandlersWriteUnderEmptyKey` | project/src/components/Checkout.tsx:270-313 | the checkbox and payment radios record their value under the empty key and leave the fields the payload reads unchanged |
| `Checkout.EditsKeepTopLevelFields` | project/src/components/Checkout.tsx:56-64 | no sequence of form edits changes the payment method or "same as billing" |
| `Checkout.InitialForm` | project/src/components/Checkout.tsx:18-47 | the form starts with payment method credit_card and "same as billing" set |
| `Checkout.PayloadItems` | project/src/components/Checkout.tsx:73-77 | one payload line per cart item, in cart order, same product id and quantity, priced at the current price |
| `Checkout.BuildOrderData` | project/src/components/Checkout.tsx:71-89 | the shipping address is taken from billing when "same as billing" is set, else from the shipping record; customer, items, totals and payment method pass through |
| `Checkout.SubmittedShippingIsBilling` | project/src/components/Checkout.tsx:45-80 | after any form edits the submitted order ships to the billing address and is paid by credit card |
| `Checkout.SubmittedOrderChargesShownPrices` | project/src/components/Checkout.tsx:71-91 | a successful submission stores one item row per cart item at its shown price, with total price x quantity, and the order's total is the priced cart total |
| `Checkout.CheckoutPage.constructor` | project/src/components/Checkout.tsx:13-47 | the view starts not submitting, not complete, with an empty order number and the initial form |
| `Checkout.CheckoutPage.HandleInputChange` | project/src/components/Checkout.tsx:56-64 | the form becomes `WithField` of the old form; nothing else changes |
| `Checkout.CheckoutPage.StartSubmit` | project/src/components/Checkout.tsx:66-89 | the submission is in flight (button disabled) and the payload is built from the form and cart |
| `Checkout.CheckoutPage.FinishSubmit` | project/src/components/Checkout.tsx:91-100 | success records the number, completes and clears the cart; failure leaves cart, number and completion; submitting ends either way |
| `Checkout.CheckoutPage.HandleSubmit` | project/src/components/Checkout.tsx:66-101 | the store changes as order creation says; success completes and clears the cart, failure keeps them; submitting ends |
| `Checkout.CheckoutPage.ContinueShopping` | project/src/components/Checkout.tsx:117-121 | the confirmation is hidden, nothing else of the view's state changes, and the view then asks its parent to close (`onClose`) |

## Left out

- The cart hook (add, update, remove, clear, totals, item count) is not part of this model: its total is a parameter and `clearCart` empties the checkout view's copy of the cart.
- The data service's own behaviour (pattern matching, joins, how error codes arise, unique constraints) is not modelled: the reads' answers and every step's error are inputs. Only the email lookup of order creation is computed from the stored rows, with `.single()` taken as "exactly one matching row".
- Binary floating point, `NaN` and `toFixed` formatting are not modelled: money is exact `real`, counts are `int`.
- `Date.now()` and `Math.random()` are parameters; uniqueness of order numbers created within the same millisecond depends on the random suffix and is only probabilistic, so it is not stated.
- Asynchronous interleaving, React rendering beyond the state named above, `alert` and `console` are left out, and so are the checkout's backdrop and X buttons, which only call `onClose()` (project/src/components/Checkout.tsx:134, 140). The `onClose()` calls after "Continue Shopping" and after adding from the product modal are kept, as effects.
- Form validation exists only as browser `required` and `type="email"` attributes, so there is no validator to model.
- project/src/App.tsx, Header.tsx, Footer.tsx and Cart.tsx are presentation and are not part of this model.
- Checkout.WithField: the section keys "payment_method" and "same_as_billing" are excluded, because no caller passes them and spreading a scalar into a record is outside the model.
- Api.UpperCase: upper-cases ASCII letters only, which covers every character a base-36 numeral holds.
- Api.SingleByEmail: an undefined email is compared like any other value; what the service does with it is not modelled.
- Timestamps (`created_at`, `updated_at`), SEO fields, order notes, address ids, types and defaults, the product's joined category and order-item row ids are not modelled; nothing in the core reads them.
