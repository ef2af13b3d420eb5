# Order service model

A Dafny model of the order controller of a small e-commerce API
(`controllers/orderController.js`). The model covers five handlers:

- `createOrder` validates a cart. It prices the cart against the product
  catalog, asks a payment stub for a client secret and stores one order owned
  by the caller.
- `getAllOrders`, `getSingleOrder` and `getCurrentUserOrders` read the order
  store.
- `updateOrder` records a payment intent id and marks an order paid.

Modules:

- `Types` (Types.dfy): the entities, the error kinds, JavaScript truthiness
  of the tax and shipping fee, and the payment stub `FakeStripe`.
- `Pricing` (Pricing.dfy): the pure specification of what `createOrder`
  produces (`PlaceOrder`), the pricing loop itself (`PriceCart`) and the
  steps of `createOrder` before the order is stored (`Checkout`, which runs
  the request checks and hands the rest to `PriceAndCharge`). It also
  holds two definitions of the subtotal and the lemmas linking them: one
  summed over the cart against the catalog, one summed over the order items.
- `Store` (Store.dfy): the class `OrderStore`. It holds a
  `map<OrderId, Order>` and the next id to hand out, and has one method per
  handler. Its invariant (`StoreInvariant`) says three things:
  - every order is stored under its own id;
  - every id is below the next one to hand out;
  - every order is well formed: at least one item, subtotal equal to the
    sum over its items, and total equal to tax + shipping fee + subtotal.

Modelling choices:

- Amounts, prices, the tax and the shipping fee are integers (minor units).
- An absent request field is `None`. The tax and shipping-fee check follows
  the code (`!tax || !shippingFee`): an absent value and the value 0 are both
  rejected. A negative value is accepted.
- The product lookup is a map access into `Catalog`. The snapshot's
  `product` field is the looked-up id, since a lookup by `_id` returns the
  product with that `_id`.
- The order store hands out ids from a counter, so a new id is always fresh.
  Queries list orders in ascending id, which is creation order; this order
  is the model's choice (see "## Left out").
- The permission check is a parameter `permits(caller, owner)`. When it
  answers false, the result is `Unauthorized`.
- A new order's status is `Pending` and its payment intent id is absent.
  These defaults come from the order schema, which is not part of this model.

## Model

| member | source | states |
|---|---|---|
| Types.FakeStripe | controllers/orderController.js:8-11 | the stub returns the fixed client secret "someRandomValue" and echoes the requested amount unchanged |
| Pricing.FirstMissing | controllers/orderController.js:33-38 | the result is None exactly when every cart product is in the catalog; otherwise it is the index of an unknown product with every earlier product known, i.e. the first failing lookup in cart order |
| Pricing.Snapshots | controllers/orderController.js:40-49 | one order item per cart entry, same length and order; item i takes its amount and product id from cart[i] and its name, price and image from the catalog entry for cart[i].product |
| Pricing.SubtotalOfSnapshots | controllers/orderController.js:31-50 | the subtotal summed over the built order items equals the sum over the cart of amount times catalog price |
| Pricing.ItemsSubtotalNonNegative | controllers/orderController.js:50 | with non-negative amounts and prices the accumulated subtotal is non-negative |
| Pricing.PlaceOrderFailures | controllers/orderController.js:18-38 | an absent or empty cart gives BadRequest("No cart items provided."); otherwise a falsy tax or shipping fee (absent or 0) gives BadRequest("Please provide tax and shipping fee."); createOrder succeeds exactly when the cart is non-empty, tax and shipping fee are truthy and every product is known; a NotFound names an unknown product all of whose earlier cart entries are known, so no order results even when earlier items were valid; conversely a non-empty cart with truthy tax and shipping fee and some unknown product gives NotFound for the first unknown product in cart order |
| Pricing.UnknownProductScenario | controllers/orderController.js:33-38 | a cart whose earlier entries are known and whose last entry names the unknown product "X" fails with NotFound for "X" |
| Pricing.PlaceOrderSuccess | controllers/orderController.js:30-70 | on success the order is owned by the caller, is pending with no payment intent id, has one snapshot per cart entry in cart order (amount from the cart; name, price, image from the catalog), a subtotal equal to the sum of amount times catalog price, total = tax + shippingFee + subtotal, and the client secret the stub returns for that total |
| Pricing.PlacedOrderWellFormed | controllers/orderController.js:30-70 | every order createOrder creates has at least one item, a subtotal equal to the sum over its items and a total of tax + shipping fee + subtotal |
| Pricing.PlacedOrderTotalBound | controllers/orderController.js:50-52 | with non-negative amounts and prices the created order's total is at least its tax plus shipping fee |
| Pricing.OrderScenario | controllers/orderController.js:33-52 | two units of a product priced 10 with tax 5 and shipping fee 3 give subtotal 20 and total 28 |
| Pricing.PriceCart | controllers/orderController.js:30-51 | the loop succeeds exactly when every cart product is in the catalog; on failure it returns NotFound for the first unknown product in cart order; on success it returns the snapshots in cart order and a subtotal equal both to the sum over the cart and to the sum over the built items |
| Pricing.Checkout | controllers/orderController.js:18-69 | the cart check, then the tax and shipping-fee check, then the pricing, stub call and order construction give exactly PlaceOrder's outcome for the request, caller and fresh id |
| Pricing.PriceAndCharge | controllers/orderController.js:30-69 | for a request that passed both checks, the pricing loop, the stub call with the total and currency "usd" and the order construction give exactly PlaceOrder's outcome |
| Store.FindExact | controllers/orderController.js:94 | a store query returns exactly the stored orders that pass the user filter, each under its own id, in strictly ascending id order |
| Store.FindCount | controllers/orderController.js:94-95 | the number of orders a query returns is the number of stored ids whose order passes the filter |
| Store.InsertKeepsInvariant | controllers/orderController.js:62-70 | storing a well-formed order under the next id keeps the store invariant, and that id was not in use |
| Store.PaymentUpdateKeepsInvariant | controllers/orderController.js:109-111 | changing only the status and payment intent id of a stored order keeps the store invariant, so the total does not drift |
| Store.OrderStore.CreateOrder | controllers/orderController.js:13-73 | the result is exactly PlaceOrder for the request and the caller's user id; on success exactly one order is added under a fresh id; on any error the store is unchanged |
| Store.OrderStore.GetAllOrders | controllers/orderController.js:75-78 | returns every stored order, each once, in creation order, with a count equal to the number of stored orders |
| Store.OrderStore.GetSingleOrder | controllers/orderController.js:80-91 | an unknown id gives NotFound with that id; a known id gives Unauthorized when the permission check fails and the stored order otherwise |
| Store.OrderStore.GetCurrentUserOrders | controllers/orderController.js:93-96 | returns exactly the stored orders whose user is the caller, in creation order, with a count equal to the number of such orders |
| Store.OrderStore.UpdateOrder | controllers/orderController.js:99-114 | an unknown id gives NotFound and a failed permission check gives Unauthorized, both leaving the store unchanged; otherwise the order's payment intent id is set to the given value and its status to paid whatever it was before, no other field of it and no other order changes, and the invariant holds |

## Left out

- HTTP plumbing: request parsing, status codes and JSON responses. Handlers return a result or an error value instead.
- Persistence: the product and order document stores are in-memory maps, and order ids come from a counter instead of database-generated ids. The product and order schemas are not part of this model, apart from the pending status default.
- The permission utility: it is not part of this model, and it is a parameter of the handlers that use it.
- Asynchronous execution and concurrent requests. Each handler runs as one sequential step.
- Lookup and stub calls as events: lookups and the stub have no side effects here, so "no lookup before validation" shows only as the result and the unchanged store.
- Error classes and message text of the NotFound errors: errors are a datatype that carries the offending product or order id.
- JavaScript dynamic typing and floating-point prices: amounts, prices, tax and shipping fee are integers, and the cart field is either absent or a list.
- The real payment gateway: only the deterministic stub is modelled; its currency argument ("usd") does not influence its answer.
- Result order of the queries: the finds at controllers/orderController.js:76 and :94 use no sort, so the source promises no order; listing results in ascending id (creation order) is the model's choice, and only the set of results and their count reflect the source.
