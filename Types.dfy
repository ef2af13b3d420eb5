/** Entities of the order service: catalog products, cart entries, order
    snapshots, orders, the errors the handlers raise and the payment stub. */
module Types {

  type ProductId = string
  type UserId = string
  /** Orders are keyed by an id the store hands out when it creates them. */
  type OrderId = nat

  datatype Option<+T> = None | Some(value: T)

  /** A catalog entry, as the product lookup returns it. */
  datatype Product = Product(name: string, image: string, price: int)

  /** The catalog: product lookup by id is a map access. */
  type Catalog = map<ProductId, Product>

  /** One entry of the request's cart. */
  datatype CartItem = CartItem(product: ProductId, amount: int)

  /** The snapshot of a product embedded in an order at creation time. */
  datatype OrderItem = OrderItem(amount: int, name: string, price: int, image: string, product: ProductId)

  datatype Status = Pending | Paid

  datatype Order = Order(
    id: OrderId,
    orderItems: seq<OrderItem>,
    total: int,
    subtotal: int,
    tax: int,
    shippingFee: int,
    clientSecret: string,
    status: Status,
    paymentIntentId: Option<string>,
    user: UserId)

  /** The authenticated caller attached to the request. */
  datatype Caller = Caller(userId: UserId, role: string)

  datatype Error =
    | BadRequest(message: string)
    | ProductNotFound(product: ProductId)
    | OrderNotFound(order: OrderId)
    | Unauthorized

  datatype Result<+T> = Ok(value: T) | Err(error: Error)

  const NoCartItemsMessage: string := "No cart items provided."
  const MissingTaxOrShippingMessage: string := "Please provide tax and shipping fee."

  /** JavaScript truthiness of an optional number: absent and zero are falsy. */
  predicate Truthy(x: Option<int>)
  {
    x.Some? && x.value != 0
  }

  /** What the payment stub hands back. */
  datatype PaymentIntent = PaymentIntent(clientSecret: string, amount: int)

  const StubClientSecret: string := "someRandomValue"
  const Currency: string := "usd"

  /** The payment stub: a fixed client secret, the requested amount echoed. */
  function FakeStripe(amount: int, currency: string): (r: PaymentIntent)
    ensures r.amount == amount
    ensures r.clientSecret == StubClientSecret
  {
    PaymentIntent(StubClientSecret, amount)
  }
}
