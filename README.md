# Shop backend: carts, orders, stock and payments

This project is a Dafny model of the bookkeeping core of a small online
shop's backend (Express handlers over Mongoose documents). It covers how a
product's price and stock are stored and derived. It follows how a cart is
read, filled, changed and emptied, and how a checkout or a buy-now turns
lines into an order while taking the stock. It also covers how an order is
cancelled (the stock goes back), how an admin overwrites its status, and how
the payment gateway's intent, confirmation and refund move the payment and
order states. The request validators that guard these routes are modelled
as predicates on the request.

Modules:

- `Common`: identifiers, `Option`, `Result` and `Outcome`, and the error
  kinds a handler answers with (one per distinct failure response).
- `Text`: JavaScript's `trim` and white space, used by the schema's `trim`
  setter and the validators' `trim()` sanitizers.
- `ProductModel`: the product record, its schema validators, the
  `effectivePrice` and `stockStatus` virtuals, and the `Catalog` class
  (the product collection, whose `stock` the order handlers change).
- `OrderModel`: the order document as a class. It holds the schema's
  validators, the two `pre('save')` hooks, `save()` and `updateStatus`.
- `CartController`: the `Cart` class and the five cart handlers.
- `OrderController`: checkout and buy-now (proved against the
  specification function `ReserveAll`), cancel (proved against
  `RestoreAll`), the admin status update, pricing and pagination.
- `PaymentController`: the live gateway handlers (intent, confirm, status,
  refund).
- `Validation`: the request validator chains.

A handler receives the documents it would look up as parameters (`null`
when the lookup finds nothing). It also receives whether the route's
validators passed (`requestValid`). It returns `Ok`/`Pass` or the error kind
of its failure response. Checkout and buy-now run inside a database
transaction. Here they check every line against a working copy of the
product collection and write it back only when the order is stored. Every
other handler restores the fields it wrote when `save()` rejects the
document, so a failed request leaves its documents unchanged.

Every handler saves through `Order.Save`, the save with the two hooks run
before validation. The schema as written is validated before its hooks run,
so its required order number rejects every new order (see "## Findings";
`Order.SaveAsWritten` models that save). The checkout and buy-now contracts
therefore describe the evidently intended program; as written, both are
always rejected at the save and their transaction is rolled back.

## Model

| member | source | states |
|---|---|---|
| Text.Decimal | controllers/cartController.js:92 | the decimal text JavaScript gives a whole number: digits only, no leading 0 |
| Text.DecimalRoundTrip | controllers/cartController.js:92 | reading a number's decimal text gives the number back |
| Text.DigitsValueConcat | controllers/cartController.js:92 | the digits of a concatenation denote the first part shifted left by the second's length, plus the second |
| Text.TrimStart | middleware/validation.js:5-7 | the result is the suffix of the input left after dropping leading white space only |
| Text.TrimEnd | middleware/validation.js:5-7 | the result is the prefix of the input left after dropping trailing white space only |
| Text.Trim | models/Product.js:7 | the trimmed value neither starts nor ends with white space, and is empty exactly when the input is all white space |
| Text.TrimOfTrimmed | models/Product.js:7 | a string with no white space at either end is unchanged by `trim` |
| Text.TrimIdempotent | models/Product.js:7 | trimming twice is trimming once, so the schema's setter does not change a name the validator already trimmed |
| Text.TrimStartPrepend | middleware/validation.js:5-7 | leading padding is exactly what the start trim removes |
| Text.TrimStartAppend | middleware/validation.js:5-7 | after the first non-blank character everything is kept verbatim |
| Text.TrimEndAppend | middleware/validation.js:5-7 | trailing padding is exactly what the end trim removes |
| Text.TrimIgnoresPadding | middleware/validation.js:5-7 | white space around a value never changes its trimmed form |
| ProductModel.NewProduct | models/Product.js:4-19 | a new product is active, has the default stock of 0 when none is given, is out of stock exactly at 0, and passes the schema iff the trimmed name has 1..100 characters, the description 1..1000, and price and stock are not negative |
| ProductModel.SchemaValid | models/Product.js:4-74 | the product schema's validators: name 1..100 and description 1..1000 characters, price and stock not negative, rating average from 0 to 5 |
| ProductModel.EffectivePrice | models/Product.js:95-97 | the effective price is the discount when one is set and not 0, the list price otherwise; a stored product with no negative discount is never priced below 0 |
| ProductModel.StockStatusOf | models/Product.js:100-104 | out of stock exactly at 0, in stock exactly above 5, low stock for every other value; for a stored product (stock at least 0) low stock is exactly 1..5 |
| ProductModel.StockStatus.Label | models/Product.js:100-104 | the text the virtual reports for each of the three statuses |
| ProductModel.Catalog.constructor | models/Product.js:3-86 | the collection holds the given products |
| ProductModel.Catalog.Valid | models/Product.js:3-86 | every product in the collection passes its schema, as every save validated it |
| OrderModel.OrderStatusName | models/Order.js:89-93 | the enum string stored for each of the five states |
| OrderModel.ParseOrderStatus | models/Order.js:89-93 | a string is accepted exactly when it names one of the five states, and parses to the state it names |
| OrderModel.WithDefaultCountry | models/Order.js:44-74 | an absent country becomes the default "India"; a given country and every other field are kept |
| OrderModel.ItemsTotal | models/Order.js:137 | the sum of line totals is not negative when no line total is |
| OrderModel.ItemsTotalAppend | models/Order.js:137 | the sum over concatenated lines is the sum of the sums |
| OrderModel.NumberValid | models/Order.js:33-37 | the order number is required: present and not empty |
| OrderModel.ItemValid | models/Order.js:3-30 | a line needs a name, a quantity of at least 1, and a price and total not negative |
| OrderModel.AddressValid | models/Order.js:44-74 | every address field is required, so present and not empty |
| OrderModel.PaymentInfoValid | models/Order.js:76-80 | the payment method is required and one of `stripe` and `cod` |
| OrderModel.NotesValid | models/Order.js:114-117 | notes are optional and at most 500 characters |
| OrderModel.ContentValid | models/Order.js:3-117 | every validator of the order schema except the order number's |
| OrderModel.Creatable | models/Order.js:128-140 | a new order built from these values passes validation once the hooks gave it a number and recomputed its totals |
| OrderModel.ContentKept | models/Order.js:128-140 | what a status or payment update and its save keep: lines, address, charges, notes, an existing number, and consistent totals |
| OrderModel.Order.constructor | models/Order.js:31-125 | a new order holds the caller's values plus the defaults: default country, pending order and payment, no number, no tracking, no timestamps, no reason |
| OrderModel.Order.SchemaValid | models/Order.js:32-122 | the document passes every validator of the schema |
| OrderModel.Order.TotalsConsistent | models/Order.js:136-140 | the subtotal is the sum of the line totals and the total adds shipping and tax, as the second hook sets them |
| OrderModel.Order.Valid | models/Order.js:32-140 | a stored order: it passed validation and its totals were recomputed |
| OrderModel.Order.NumberAfterHooks | models/Order.js:128-133 | the first hook keeps a number and generates one only when it is missing or empty |
| OrderModel.Order.ValidAfterHooks | models/Order.js:128-140 | the document passes validation once both hooks have run |
| OrderModel.Order.Save | models/Order.js:128-140 | a save with the hooks before validation succeeds exactly when the document is valid after them. A stored order is valid, keeps an existing number (or takes the generated one) and has subtotal and total recomputed from its lines. A rejected save changes nothing, and saving a stored order is a no-op |
| OrderModel.Order.SaveAsWritten | models/Order.js:33-37 | with validation before the hooks (the framework's order), a document without a number is always rejected |
| OrderModel.Order.SetProgress | models/Order.js:89-122 | writes exactly the status, payment, tracking, timestamp and reason fields |
| OrderModel.Order.SaveProgress | controllers/orderController.js:313-318 | a handler's write of the progress fields and its save: stored exactly when the order is valid after the hooks, with the written fields, validity and the rest of the content kept; a rejected save leaves the order as it was |
| OrderModel.Order.UpdateStatus | models/Order.js:148-156 | the status is set; `deliveredAt` is stamped only for delivered and `cancelledAt` only for cancelled; nothing else changes and a valid order stays valid |
| OrderModel.NewOrderRejectedAsWritten | models/Order.js:33-37 | every new order is rejected by the as-written save |
| OrderModel.NewOrderSaved | models/Order.js:128-140 | a new order is stored exactly when its content passes the schema, with the generated number and totals recomputed whatever the caller passed |
| CartController.Cart.constructor | controllers/cartController.js:13-15 | a new cart belongs to the user and is empty |
| CartController.UniqueLines | controllers/cartController.js:84-111 | at most one line per product, what the merge-or-append of the add keeps |
| CartController.FindLine | controllers/cartController.js:84-86 | the index found is the first line of the product, or -1 when no line has it |
| CartController.Available | controllers/cartController.js:20-27 | the read's filter: the product exists, is active and has stock above 0 |
| CartController.KeepAvailable | controllers/cartController.js:20-27 | the read keeps exactly the lines whose product exists, is active and is in stock; when it drops none the cart is unchanged |
| CartController.KeepAvailableAppend | controllers/cartController.js:20-27 | the filter works line by line and keeps the order of the lines |
| CartController.KeepAvailableUnique | controllers/cartController.js:20-27 | filtering keeps one line per product |
| CartController.WithoutProduct | controllers/cartController.js:222-232 | remove keeps exactly the lines of other products, and drops one exactly when the product has a line |
| CartController.WithoutProductAppendOwn | controllers/cartController.js:104-111 | appending a line of a product does not change the other products' lines |
| CartController.WithoutProductUpdateOwn | controllers/cartController.js:90-103 | rewriting a line of a product does not change the other products' lines |
| CartController.WithoutProductUnique | controllers/cartController.js:222-232 | removing keeps one line per product |
| CartController.SpliceIsRemove | controllers/cartController.js:166-167 | with one line per product, splicing out the product's line is the same as removing the product |
| CartController.SpliceAfterFirst | controllers/cartController.js:166-167 | a sequence fact `SpliceIsRemove` relies on, not a property of the handler: splicing out a line past the first equals the first line followed by the splice of the rest |
| CartController.UniqueLinesTail | controllers/cartController.js:84-111 | dropping the first line keeps one line per product |
| CartController.OnlyFirstLine | controllers/cartController.js:84-86 | with one line per product, the first line's product has no later line |
| CartController.AppendedLine | controllers/cartController.js:104-111 | an appended line of a new product becomes that product's line and keeps lines unique |
| CartController.RewrittenLine | controllers/cartController.js:90-103 | a line rewritten for its own product stays that product's line and keeps lines unique |
| CartController.QuantityOf | controllers/cartController.js:84-92 | the quantity of the product's line, or 0 when the cart has none |
| CartController.AddFits | controllers/cartController.js:70-100 | the add's two stock checks: the quantity alone, and the line's quantity after the add |
| CartController.AddLine | controllers/cartController.js:84-111 | after an add the product's line holds the old quantity plus the added one at the current price, the other lines are untouched, one line is added only for a new product, and lines stay unique |
| CartController.QuantityValue | middleware/validation.js:115-118 | a request quantity as a number: a string of digits reads as a number not below 0 |
| CartController.MergedQuantityAsWritten | controllers/cartController.js:90-100 | `line + quantity` as written: a number adds, a string is appended to the line's decimal text, so the result is the line shifted left by the string's length plus its value |
| CartController.StringQuantityInflates | controllers/cartController.js:90-100 | as written, a string quantity on a line of 1 or more always stores more than the line plus the number |
| CartController.StringQuantityExample | controllers/cartController.js:90-100 | a line of 3 plus `"2"` stores 32 as written where 5 is meant |
| CartController.StringQuantityMergesAsNumber | controllers/cartController.js:90-103 | with the quantity converted, a number and its decimal text merge alike, and the merge is the line `AddLine` stores |
| CartController.GetCart | controllers/cartController.js:8-37 | a missing cart is created empty; otherwise the cart keeps exactly its available lines, and every line it returns is available |
| CartController.MergeLine | controllers/cartController.js:84-111 | the merge yields the add's lines exactly when the line's new quantity fits the stock, and nothing otherwise |
| CartController.AddToCart | controllers/cartController.js:42-127 | validation error, 404 for an unknown or inactive product, 400 unless the quantity (default 1) fits the stock alone and added to the line; otherwise the lines become the add's result at the effective price, and the line never exceeds the stock; a failure leaves the cart unchanged |
| CartController.UpdateCartItem | controllers/cartController.js:132-205 | 404s for a missing cart or line; quantity 0 or less splices the line out; otherwise the product must be active with enough stock and the line takes the quantity and the current price; failures change nothing and lines stay unique |
| CartController.RemoveFromCart | controllers/cartController.js:210-246 | succeeds exactly when the product has a line; it then drops every line of the product, otherwise 404 with the cart unchanged |
| CartController.ClearCart | controllers/cartController.js:251-273 | empties an existing cart; 404 exactly when there is none |
| OrderController.Price | controllers/orderController.js:143-146 | shipping is free exactly above 500 and 50 otherwise; tax is 18% of the subtotal rounded to the nearest unit; the total is the sum of the three |
| OrderController.TaxIsRounded | controllers/orderController.js:145 | only one whole number satisfies the rounding bounds, so they define the tax |
| OrderController.PriceNonNegative | controllers/orderController.js:143-146 | for a subtotal of at least 0 no amount is negative and the total is at least the subtotal |
| OrderController.LinesQty | controllers/orderController.js:107-139 | the total quantity the cart lines ask of a product |
| OrderController.ItemsQty | controllers/orderController.js:321-327 | the total quantity the order lines hold of a product |
| OrderController.LineItem | controllers/orderController.js:126-134 | the order line of a cart line: the product's current name, the cart's quantity and captured price, and their product as total |
| OrderController.ReserveLine | controllers/orderController.js:107-141 | one turn of the checkout loop: a missing product throws, an inactive one or too little stock is a 400, the decremented product must pass its schema (a validation error, as for an order), otherwise the line is priced and its stock taken |
| OrderController.ReserveAll | controllers/orderController.js:104-141 | the checkout loop over the cart lines in order, stopping at the first failure |
| OrderController.ReserveFailurePersists | controllers/orderController.js:104-141 | a line that fails decides the whole checkout |
| OrderController.ReserveStock | controllers/orderController.js:104-141 | a successful checkout lowers each product's stock by exactly what the cart asks of it, and changes nothing else |
| OrderController.ReserveItems | controllers/orderController.js:104-141 | the order lines mirror the cart lines one for one, with the catalog's name and the cart's captured price; every product existed and was active |
| OrderController.ReserveSubtotal | controllers/orderController.js:104-141 | the running subtotal equals the sum of the order's line totals |
| OrderController.ReserveQuantities | controllers/orderController.js:104-141 | the order asks of each product what the cart asked |
| OrderController.UniqueInit | controllers/orderController.js:104-141 | dropping the last cart line keeps lines unique, and its product has no earlier line |
| OrderController.LinesQtyUnique | controllers/cartController.js:84-111 | with one line per product, the cart asks of a product exactly its line's quantity, or 0 |
| OrderController.ReserveSucceedsIff | controllers/orderController.js:104-141 | over a valid catalog and a cart with unique lines, checkout succeeds exactly when every line's product exists, is active and has the quantity in stock |
| OrderController.ReserveLastLine | controllers/orderController.js:104-141 | once the earlier lines are reserved, the last line succeeds exactly when its product exists, is active and has the line's quantity in stock |
| OrderController.ReserveKeepsCatalogValid | controllers/orderController.js:104-141 | a successful checkout over a valid catalog leaves it valid (no stock below 0) |
| OrderController.RestoreLine | controllers/orderController.js:322-326 | one `$inc`: the product's stock grows by the line's quantity, and a product that no longer exists is skipped |
| OrderController.RestoreAll | controllers/orderController.js:321-327 | the cancel loop over the order lines in order |
| OrderController.RestoreStock | controllers/orderController.js:321-327 | cancelling gives each product back exactly the quantity the order holds of it, and changes nothing else |
| OrderController.RestoreKeepsCatalogValid | controllers/orderController.js:321-327 | giving stock back over lines of quantity at least 0 keeps every product of a valid catalog valid |
| OrderController.CancelUndoesCheckout | controllers/orderController.js:321-327 | cancelling the order a checkout created restores the catalog exactly |
| OrderController.TextOr | controllers/orderController.js:317 | `x \|\| fallback`: the value when present and not empty, the fallback otherwise |
| OrderController.IsNewOrder | controllers/orderController.js:149-164 | the order a successful checkout stores: its lines, a generated number, pending order and payment, the pricing rule's totals, no tracking, delivery or cancellation |
| OrderController.ReserveLines | controllers/orderController.js:104-141 | the checkout loop computes exactly `ReserveAll`, and from a schema-valid collection leaves a schema-valid one |
| OrderController.CreateOrderFromCart | controllers/orderController.js:72-187 | validation error; empty cart; otherwise the result of the reservation loop decides: the first failing line's error, a schema rejection, or a fresh valid order with those lines and the pricing rule's totals, the catalog's stock reduced, the cart emptied; any failure leaves catalog and cart unchanged; a valid catalog stays valid |
| OrderController.BuyNow | controllers/orderController.js:192-281 | validation error, 404 for a missing or inactive product, 400 for stock below the quantity; otherwise a fresh valid order of one line at the effective price, and the product's stock reduced (the same as checkout of that single line); any failure leaves the catalog unchanged; a valid catalog stays valid |
| OrderController.Cancellable | controllers/orderController.js:305-311 | the owner may cancel unless the order is shipped, delivered or cancelled |
| OrderController.CancelOrder | controllers/orderController.js:286-343 | 404 unless the caller owns the order; refused once shipped, delivered or cancelled; otherwise the order becomes cancelled with the given or default reason and the catalog gets every line's stock back; the payment, tracking, delivery, lines, address, charges and notes stay, and a valid catalog stays valid; any failure changes nothing |
| OrderController.GiveBackStock | controllers/orderController.js:321-327 | the loop's collection ends as the cancel specification's |
| OrderController.UpdateOrderStatus | controllers/orderController.js:394-427 | 404 for a missing order; any known status is set with no transition check and no stock change; an unknown status fails; a tracking number is kept unless a new one is given; only delivered stamps a date; the payment, cancellation, lines, address, charges and notes stay; failures change nothing |
| OrderController.CheckoutThenCancel | controllers/orderController.js:72-343 | a checkout that succeeds is always cancellable by its owner, and the catalog is then back as before |
| OrderController.QueryOr | controllers/orderController.js:12-13 | `parseInt(q) \|\| fallback`: the parsed number unless absent or 0, and never 0 with a non-zero fallback |
| OrderController.Skip | controllers/orderController.js:14 | the number of orders before the requested page |
| OrderController.PageCount | controllers/orderController.js:30 | the page count is the smallest number of pages of `limit` orders holding `total` |
| OrderController.PagesCoverOrders | controllers/orderController.js:12-30 | with a positive page size every order is on a page from 1 to the page count |
| PaymentController.GatewayAmount | controllers/paymentController.js:368 | the amount in paise is a multiple of 100 that converts back to the total |
| PaymentController.CreatePaymentIntent | controllers/paymentController.js:331-392 | 503 without a client, validation error, 404 for a missing or foreign order, 400 for a paid one; otherwise the gateway order id is stored, every other field stays, and the whole total in paise is returned, which is the stored total's amount when the order's totals were consistent; any failure leaves the order unchanged |
| PaymentController.ConfirmPayment | controllers/paymentController.js:397-451 | 503, validation error, 404 unless the caller's order carries this gateway id, 400 for a bad signature; otherwise payment completed with the payment id and the order processing, whatever its state, with every other field kept; failures change nothing |
| PaymentController.RefundPayment | controllers/paymentController.js:484-521 | 503, 404, 400 unless the payment is completed; once the gateway accepts, payment refunded and the order cancelled with the given or default reason, with no stock returned and every other field kept; failures change nothing |
| PaymentController.PaymentStatusOf | controllers/paymentController.js:456-479 | 404 exactly for a missing or foreign order; otherwise the number, both statuses, the total and the method (or the gateway's name) |
| PaymentController.StoredOrderNeverReportsGateway | controllers/paymentController.js:473 | a stored order always reports its own method, never the fallback |
| PaymentController.RefundThenCancel | controllers/paymentController.js:484-521 | after a refund the owner's cancel is refused, so the refunded order's stock never goes back |
| PaymentController.ConfirmAfterRefund | controllers/paymentController.js:397-451 | a confirmation after a refund moves the order back to completed and processing |
| Validation.IsIntIn | middleware/validation.js:115-118 | `isInt({min, max})`: a whole number within the bounds |
| Validation.ValidPostalCode | middleware/validation.js:148-150 | `/^[1-9][0-9]{5}$/`: six characters, a first digit from 1 to 9 and five more digits |
| Validation.DigitsValueRange | middleware/validation.js:148-150 | n digits denote a number below 10^n, and at least 10^(n-1) exactly when the first is not 0 |
| Validation.PostalCodeIsSixDigitNumber | middleware/validation.js:148-150 | a postal code passes exactly when it is six digits denoting 100000..999999 |
| Validation.FirstLine | middleware/validation.js:16 | the part of the password a lookahead sees: the prefix up to the first line terminator |
| Validation.ValidPassword | middleware/validation.js:13-17 | at least six characters, and a lower-case letter, an upper-case letter and a digit before the first line break |
| Validation.ValidPasswordHasClasses | middleware/validation.js:13-17 | an accepted password has at least 6 characters, a lower-case letter, an upper-case letter and a digit |
| Validation.SingleLinePassword | middleware/validation.js:13-17 | for a one-line password the rule is exactly those four conditions |
| Validation.SecondLineIgnored | middleware/validation.js:16 | letter and digit classes that appear only after a line break do not count |
| Validation.ValidUserName | middleware/validation.js:5-8 | a name of 2 to 50 characters once trimmed |
| Validation.ValidRegister | middleware/validation.js:4-22 | the registration chain: name, e-mail, password, and an optional mobile phone |
| Validation.ValidLogin | middleware/validation.js:24-32 | the login chain: a valid e-mail and a password that is not empty |
| Validation.OptionalTrimmedAtMost | middleware/validation.js:63-67 | an optional field of at most the given length once trimmed |
| Validation.ValidProfileUpdate | middleware/validation.js:34-68 | the profile chain: every field optional, with its length, phone or postal code rule when present |
| Validation.ValidPasswordChange | middleware/validation.js:70-79 | a current password that is not empty and a new password that meets the password rule |
| Validation.ValidProductRequest | middleware/validation.js:82-108 | the product chain: trimmed name and description lengths, price and optional discount not negative, a listed category, a whole stock at least 0, an optional URL |
| Validation.UserNameIgnoresPadding | middleware/validation.js:5-8 | white space around a name never changes whether it is accepted |
| Validation.ValidProductRequestStores | middleware/validation.js:82-108 | an accepted product request with whole numbers makes a product the schema accepts |
| Validation.NewProductValid | models/Product.js:4-51 | a trimmed name of 1..100, a description of 1..1000 and non-negative price and stock pass the schema |
| Validation.ValidCartAdd | middleware/validation.js:111-119 | a product id and an optional whole quantity from 1 to 10 |
| Validation.ValidCartUpdate | middleware/validation.js:121-128 | a product id and a required whole quantity from 0 to 10 |
| Validation.CartAddQuantityRange | middleware/validation.js:111-119 | an accepted add asks for 1 to 10 units, counting the handler's default |
| Validation.CartUpdateRemovesOnlyAtZero | middleware/validation.js:121-128 | for an accepted update, the handler's remove branch is taken exactly for 0 |
| Validation.ValidAddressRequest | middleware/validation.js:132-158 | the address rules of the checkout chain: trimmed lengths, postal code, optional country, mobile phone |
| Validation.ValidCheckout | middleware/validation.js:131-168 | the checkout chain: the address rules, an optional method among `stripe` and `cod`, optional notes of at most 500 characters once trimmed |
| Validation.ValidBuyNow | middleware/validation.js:170-178 | a product id, a whole quantity from 1 to 10, and the checkout chain |
| Validation.TrimOption | middleware/validation.js:151-155 | an optional field stays absent or arrives trimmed |
| Validation.SanitizedAddress | middleware/validation.js:132-155 | the address the handler receives: the sanitized fields trimmed, the others as sent |
| Validation.SanitizedAddressValid | middleware/validation.js:131-158 | an accepted address (phone check refuses "", country not blank) arrives in a form the order schema accepts |
| Validation.ValidCheckoutCreatable | middleware/validation.js:131-168 | an accepted checkout with schema-valid lines yields an order the schema accepts once saved |
| Validation.BlankCountryPassesButFailsSchema | middleware/validation.js:151-155 | a white-space country passes its validator but fails the order schema |
| Validation.ValidPaymentIntent | middleware/validation.js:181-185 | the order id is a valid object id |
| Validation.ValidPaymentConfirm | middleware/validation.js:187-191 | a payment intent id that is present and not empty |

## Left out

- Transactions, sessions and concurrency: checkout and buy-now are atomic here (all or nothing). Two requests racing for the same stock are not modelled.
- Prices and quantities are whole numbers. JavaScript numbers are doubles, so fractional prices and the rounding of `subtotal * 0.18` in floating point are not modelled.
- The order number `ORD-<time>-<random>` comes from the clock and a random generator. It arrives as the parameter `generated`, and its uniqueness is not modelled.
- `createdAt`/`updatedAt`, `deliveredAt` and `cancelledAt` are timestamps. The model keeps the last two as flags saying whether they are set.
- The gateway's HTTP calls and the HMAC-SHA256 signature check are not modelled. Their outcomes arrive as parameters, and the partial refund `amount` is not modelled.
- The Stripe handlers in `controllers/paymentController.js` (lines 1-311, commented out) are not modelled.
- The library checks `isEmail`, `isMobilePhone`, `isMongoId`, `isURL` and `normalizeEmail` are parameters. Their definitions are not part of this model.
- Authentication, users, routes, configuration, the server, the seed script, `productController` and the error handler are not part of this model.
- `models/Cart.js` is not part of this model. The cart's fields are taken from the way the handlers use them.
- HTTP status codes and messages become error kinds, and `populate` of product details is not modelled.
- OrderController.CreateOrderFromCart, OrderController.BuyNow: both use the corrected save (`Order.Save`); as written every checkout and buy-now fails at the save and rolls back (see "## Findings").
- getOrder and the order listings' queries are not modelled: they only read. Only their page and page-count arithmetic is modelled.
- A negative page or limit from the query string reaches `skip` unchecked. The model does not model the database's answer to it.
- CartController.AddToCart: takes the request quantity as a number, the converted form `QuantityValue` gives. The validators accept a string of digits too (`isInt` tests the value's text and no chain calls `toInt()`), and the merge then concatenates it; that is the second row of "## Findings". Other spellings `isInt` accepts (a sign, leading zeros) are not modelled.
- CartController.UpdateCartItem, OrderController.BuyNow: a string quantity reaches them too, but they only compare it with numbers, multiply by it or subtract it, and the schema casts it on save, so it behaves as its number; the model takes numbers there.
- OrderController.UpdateOrderStatus: a request without a status is not modelled. The source then sets `orderStatus` to undefined; the path is not required, the enum validator lets undefined through and the route has no validator chain, so the order is stored without a status and the handler reports success. The model's status is always a string and an order always holds a state.
- A cancel through the admin status update stamps no `cancelledAt` and returns no stock. The model keeps this behaviour and states it in the handler's contract.
- `razorpayOrderId` is not declared in the order schema, so Mongoose's strict mode would drop it on save. The model keeps it, as the handlers expect.
- `discountPrice` is commented out of the product schema. The handlers still read it, and the model keeps it as an optional value.
- ProductModel.NewProduct, OrderModel.Creatable, Validation.ValidCheckoutCreatable: the schema's `maxlength` (product name and description, order notes) counts UTF-16 code units, and the validators' `isLength` counts code points less the variation selectors U+FE0E and U+FE0F. The model counts code points for both, so it differs from the source on text outside the Basic Multilingual Plane (for `maxlength`) and on text holding variation selectors (for `isLength`).
- `validatePaymentConfirm` requires a `paymentIntentId` that the confirm handler never reads. It is modelled as `ValidPaymentConfirm` only.
- A checkout line whose product was deleted throws inside the loop and is reported as `Internal`.
- Validation.ValidCheckoutCreatable: a blank country is excluded by a precondition. `BlankCountryPassesButFailsSchema` shows that such a request passes the validators and then fails the save.

## Findings

| source | as written | input that shows it | evidently intended | confidence | as-written member | corrected member |
|---|---|---|---|---|---|---|
| models/Order.js:33-37 | `orderNumber` is `required`, and the number is generated in a `pre('save')` hook; Mongoose validates before the `save` hooks run | any new order built by checkout or buy-now, which sets no `orderNumber` | the hook fills the number first and validation then passes (a `pre('validate')` hook, or no `required`) | medium, not executed | OrderModel.NewOrderRejectedAsWritten | OrderModel.NewOrderSaved |
| controllers/cartController.js:90-100 | `cart.items[i].quantity + quantity`, with `quantity` as the request sent it; the validators at middleware/validation.js:115-118 accept a JSON string of digits and do not convert it | a line of quantity 3, a stock of 40 and `{"quantity": "2"}`: `3 + "2"` is `"32"`, which passes `"32" > 40` as false and is stored as 32 | the line becomes 5 (a `toInt()` sanitizer, or `Number(quantity)`) | medium, not executed | CartController.StringQuantityInflates | CartController.StringQuantityMergesAsNumber |
