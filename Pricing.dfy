/** Cart validation and pricing done by createOrder: the specification of the
    order it creates (PlaceOrder) and the pricing loop itself (PriceCart). */
module Pricing {
  import opened Types

  /** Every cart entry names a product of the catalog. */
  predicate AllKnown(cart: seq<CartItem>, catalog: Catalog)
  {
    forall i :: 0 <= i < |cart| ==> cart[i].product in catalog
  }

  /** The index of the first cart entry whose product is not in the catalog. */
  function FirstMissing(cart: seq<CartItem>, catalog: Catalog): (r: Option<nat>)
    ensures r.None? <==> AllKnown(cart, catalog)
    ensures r.Some? ==> r.value < |cart| && cart[r.value].product !in catalog
    ensures r.Some? ==> forall j :: 0 <= j < r.value ==> cart[j].product in catalog
  {
    if cart == [] then None
    else if cart[0].product !in catalog then Some(0)
    else match FirstMissing(cart[1..], catalog)
      case None => None
      case Some(k) => Some(k + 1)
  }

  /** An unknown product preceded only by known ones is the first missing one. */
  lemma FirstMissingAt(cart: seq<CartItem>, catalog: Catalog, i: nat)
    requires i < |cart| && cart[i].product !in catalog
    requires forall j :: 0 <= j < i ==> cart[j].product in catalog
    ensures FirstMissing(cart, catalog) == Some(i)
  {
  }

  /** The order item built from one cart entry and its catalog product. */
  function Snapshot(item: CartItem, p: Product): OrderItem
  {
    OrderItem(item.amount, p.name, p.price, p.image, item.product)
  }

  /** The order items, one per cart entry, appended in cart order. */
  function Snapshots(cart: seq<CartItem>, catalog: Catalog): (items: seq<OrderItem>)
    requires AllKnown(cart, catalog)
    ensures |items| == |cart|
    ensures forall i :: 0 <= i < |items| ==> items[i] == Snapshot(cart[i], catalog[cart[i].product])
  {
    if cart == [] then []
    else
      var n := |cart| - 1;
      Snapshots(cart[..n], catalog) + [Snapshot(cart[n], catalog[cart[n].product])]
  }

  /** The sum of amount times price over a list of order items. */
  function ItemsSubtotal(items: seq<OrderItem>): int
  {
    if items == [] then 0
    else
      var n := |items| - 1;
      ItemsSubtotal(items[..n]) + items[n].amount * items[n].price
  }

  /** One step of the pricing loop: the snapshots of the first i + 1 entries
      are those of the first i followed by the snapshot of entry i. */
  lemma SnapshotsStep(cart: seq<CartItem>, catalog: Catalog, i: nat)
    requires i < |cart| && forall j :: 0 <= j <= i ==> cart[j].product in catalog
    ensures AllKnown(cart[..i], catalog) && AllKnown(cart[..i + 1], catalog)
    ensures Snapshots(cart[..i + 1], catalog)
            == Snapshots(cart[..i], catalog) + [Snapshot(cart[i], catalog[cart[i].product])]
  {
    assert cart[..i + 1][..i] == cart[..i];
  }

  /** Appending an item adds its amount times price to the subtotal. */
  lemma ItemsSubtotalSnoc(items: seq<OrderItem>, x: OrderItem)
    ensures ItemsSubtotal(items + [x]) == ItemsSubtotal(items) + x.amount * x.price
  {
    assert (items + [x])[..|items|] == items;
  }

  /** The sum over the cart of amount times catalog price (reference definition). */
  function CartSubtotal(cart: seq<CartItem>, catalog: Catalog): int
    requires AllKnown(cart, catalog)
  {
    if cart == [] then 0
    else cart[0].amount * catalog[cart[0].product].price + CartSubtotal(cart[1..], catalog)
  }

  lemma {:induction false} ItemsSubtotalCons(x: OrderItem, rest: seq<OrderItem>)
    ensures ItemsSubtotal([x] + rest) == x.amount * x.price + ItemsSubtotal(rest)
    decreases |rest|
  {
    if rest != [] {
      var n := |rest| - 1;
      assert ([x] + rest)[..n + 1] == [x] + rest[..n];
      ItemsSubtotalCons(x, rest[..n]);
    }
  }

  /** The subtotal of the snapshots is the cart's subtotal against the catalog. */
  lemma {:induction false} SubtotalOfSnapshots(cart: seq<CartItem>, catalog: Catalog)
    requires AllKnown(cart, catalog)
    ensures ItemsSubtotal(Snapshots(cart, catalog)) == CartSubtotal(cart, catalog)
  {
    if cart != [] {
      var tail := cart[1..];
      assert AllKnown(tail, catalog) by {
        forall j | 0 <= j < |tail| ensures tail[j].product in catalog {
          assert tail[j] == cart[j + 1];
        }
      }
      var head := Snapshot(cart[0], catalog[cart[0].product]);
      assert Snapshots(cart, catalog) == [head] + Snapshots(tail, catalog);
      ItemsSubtotalCons(head, Snapshots(tail, catalog));
      SubtotalOfSnapshots(tail, catalog);
    }
  }

  /** With non-negative amounts and prices the subtotal is non-negative. */
  lemma {:induction false} ItemsSubtotalNonNegative(items: seq<OrderItem>)
    requires forall i :: 0 <= i < |items| ==> items[i].amount >= 0 && items[i].price >= 0
    ensures ItemsSubtotal(items) >= 0
  {
    if items != [] {
      var n := |items| - 1;
      ItemsSubtotalNonNegative(items[..n]);
      assert items[n].amount * items[n].price >= 0;
    }
  }

  /** What every created order satisfies: at least one item, a subtotal that
      is the sum over its items and a total of tax, shipping fee and subtotal. */
  predicate WellFormed(o: Order)
  {
    |o.orderItems| >= 1 &&
    o.subtotal == ItemsSubtotal(o.orderItems) &&
    o.total == o.tax + o.shippingFee + o.subtotal
  }

  /** The outcome of createOrder for a request: the order it creates under
      the given fresh id, or the error it raises. */
  function PlaceOrder(items: Option<seq<CartItem>>, tax: Option<int>, shippingFee: Option<int>,
                      catalog: Catalog, user: UserId, id: OrderId): Result<Order>
  {
    if items.None? || |items.value| < 1 then Err(BadRequest(NoCartItemsMessage))
    else if !Truthy(tax) || !Truthy(shippingFee) then Err(BadRequest(MissingTaxOrShippingMessage))
    else
      var cart := items.value;
      match FirstMissing(cart, catalog)
      case Some(i) => Err(ProductNotFound(cart[i].product))
      case None =>
        var orderItems := Snapshots(cart, catalog);
        var subtotal := CartSubtotal(cart, catalog);
        var total := tax.value + shippingFee.value + subtotal;
        var intent := FakeStripe(total, Currency);
        Ok(Order(id, orderItems, total, subtotal, tax.value, shippingFee.value,
                 intent.clientSecret, Pending, None, user))
  }

  /** When createOrder fails, and with which error: the cart check comes
      first, then the tax and shipping-fee check, then the first unknown
      product in cart order. */
  lemma PlaceOrderFailures(items: Option<seq<CartItem>>, tax: Option<int>, shippingFee: Option<int>,
                           catalog: Catalog, user: UserId, id: OrderId)
    ensures var r := PlaceOrder(items, tax, shippingFee, catalog, user, id);
            (items.None? || items.value == []) ==> r == Err(BadRequest(NoCartItemsMessage))
    ensures var r := PlaceOrder(items, tax, shippingFee, catalog, user, id);
            items.Some? && items.value != [] && (!Truthy(tax) || !Truthy(shippingFee))
            ==> r == Err(BadRequest(MissingTaxOrShippingMessage))
    ensures var r := PlaceOrder(items, tax, shippingFee, catalog, user, id);
            r.Ok? <==> items.Some? && items.value != [] && Truthy(tax) && Truthy(shippingFee)
                       && AllKnown(items.value, catalog)
    ensures var r := PlaceOrder(items, tax, shippingFee, catalog, user, id);
            r.Err? && r.error.ProductNotFound? ==>
              items.Some? && r.error.product !in catalog &&
              exists i :: 0 <= i < |items.value| && items.value[i].product == r.error.product
                          && forall j :: 0 <= j < i ==> items.value[j].product in catalog
    ensures var r := PlaceOrder(items, tax, shippingFee, catalog, user, id);
            items.Some? && items.value != [] && Truthy(tax) && Truthy(shippingFee)
            && !AllKnown(items.value, catalog)
            ==> FirstMissing(items.value, catalog).Some? &&
                r == Err(ProductNotFound(items.value[FirstMissing(items.value, catalog).value].product))
  {
  }

  /** What the order createOrder creates holds: the caller as owner, status
      pending, one snapshot per cart entry in cart order, the cart's subtotal,
      total = tax + shipping fee + subtotal and the stub's client secret for
      that total. */
  lemma PlaceOrderSuccess(items: Option<seq<CartItem>>, tax: Option<int>, shippingFee: Option<int>,
                          catalog: Catalog, user: UserId, id: OrderId)
    ensures var r := PlaceOrder(items, tax, shippingFee, catalog, user, id);
            r.Ok? ==>
              var cart, o := items.value, r.value;
              AllKnown(cart, catalog) &&
              o.id == id && o.user == user && o.status == Pending && o.paymentIntentId == None &&
              o.tax == tax.value && o.shippingFee == shippingFee.value &&
              |o.orderItems| == |cart| &&
              (forall i :: 0 <= i < |cart| ==> o.orderItems[i] == Snapshot(cart[i], catalog[cart[i].product])) &&
              o.subtotal == CartSubtotal(cart, catalog) &&
              o.total == tax.value + shippingFee.value + o.subtotal &&
              o.clientSecret == FakeStripe(o.total, Currency).clientSecret
  {
  }

  /** The error PlaceOrder gives for a request that passes the first two
      checks but names an unknown product. */
  lemma PlaceOrderUnknown(items: Option<seq<CartItem>>, tax: Option<int>, shippingFee: Option<int>,
                          catalog: Catalog, user: UserId, id: OrderId)
    requires items.Some? && items.value != [] && Truthy(tax) && Truthy(shippingFee)
    requires !AllKnown(items.value, catalog)
    ensures var m := FirstMissing(items.value, catalog);
            m.Some? && PlaceOrder(items, tax, shippingFee, catalog, user, id)
                       == Err(ProductNotFound(items.value[m.value].product))
  {
  }

  /** Every order createOrder creates is well formed. */
  lemma PlacedOrderWellFormed(items: Option<seq<CartItem>>, tax: Option<int>, shippingFee: Option<int>,
                              catalog: Catalog, user: UserId, id: OrderId)
    ensures var r := PlaceOrder(items, tax, shippingFee, catalog, user, id);
            r.Ok? ==> WellFormed(r.value)
  {
    var r := PlaceOrder(items, tax, shippingFee, catalog, user, id);
    if r.Ok? {
      SubtotalOfSnapshots(items.value, catalog);
    }
  }

  /** The total is at least tax plus shipping fee when amounts and prices
      are non-negative. */
  lemma PlacedOrderTotalBound(items: Option<seq<CartItem>>, tax: Option<int>, shippingFee: Option<int>,
                              catalog: Catalog, user: UserId, id: OrderId)
    requires items.Some? ==> forall i :: 0 <= i < |items.value| ==> items.value[i].amount >= 0
    requires forall p :: p in catalog ==> catalog[p].price >= 0
    ensures var r := PlaceOrder(items, tax, shippingFee, catalog, user, id);
            r.Ok? ==> r.value.subtotal >= 0 && r.value.total >= r.value.tax + r.value.shippingFee
  {
    var r := PlaceOrder(items, tax, shippingFee, catalog, user, id);
    if r.Ok? {
      SubtotalOfSnapshots(items.value, catalog);
      ItemsSubtotalNonNegative(r.value.orderItems);
    }
  }

  /** The worked example: two units at price 10, tax 5, shipping fee 3. */
  lemma OrderScenario(catalog: Catalog, user: UserId, id: OrderId)
    requires "A" in catalog && catalog["A"].price == 10
    ensures var r := PlaceOrder(Some([CartItem("A", 2)]), Some(5), Some(3), catalog, user, id);
            r.Ok? && r.value.subtotal == 20 && r.value.total == 28
  {
    var cart := [CartItem("A", 2)];
    assert AllKnown(cart, catalog);
    assert cart[1..] == [];
    assert CartSubtotal(cart, catalog) == 2 * 10 + CartSubtotal([], catalog);
  }

  /** A cart naming an unknown product "X" fails with NotFound for "X",
      whatever the earlier entries are. */
  lemma UnknownProductScenario(known: seq<CartItem>, catalog: Catalog, user: UserId, id: OrderId)
    requires "X" !in catalog && AllKnown(known, catalog)
    ensures PlaceOrder(Some(known + [CartItem("X", 1)]), Some(5), Some(3), catalog, user, id)
            == Err(ProductNotFound("X"))
  {
    var cart := known + [CartItem("X", 1)];
    FirstMissingAt(cart, catalog, |known|);
  }

  datatype Priced = Priced(items: seq<OrderItem>, subtotal: int)

  /** The order PlaceOrder builds for a request that passes every check, in
      terms of the items and subtotal the pricing loop produced. */
  lemma PlaceOrderPriced(items: Option<seq<CartItem>>, tax: Option<int>, shippingFee: Option<int>,
                         catalog: Catalog, user: UserId, id: OrderId, priced: Priced)
    requires items.Some? && items.value != [] && Truthy(tax) && Truthy(shippingFee)
    requires AllKnown(items.value, catalog)
    requires priced.items == Snapshots(items.value, catalog)
    requires priced.subtotal == CartSubtotal(items.value, catalog)
    ensures var total := tax.value + shippingFee.value + priced.subtotal;
            PlaceOrder(items, tax, shippingFee, catalog, user, id)
            == Ok(Order(id, priced.items, total, priced.subtotal, tax.value, shippingFee.value,
                        FakeStripe(total, Currency).clientSecret, Pending, None, user))
  {
  }

  /** The pricing loop of createOrder: looks each cart entry up in cart order,
      stops at the first unknown product, appends one snapshot per entry and
      accumulates the subtotal. */
  method PriceCart(cart: seq<CartItem>, catalog: Catalog) returns (r: Result<Priced>)
    ensures r.Ok? <==> AllKnown(cart, catalog)
    ensures r.Err? ==> FirstMissing(cart, catalog).Some? &&
                       r.error == ProductNotFound(cart[FirstMissing(cart, catalog).value].product)
    ensures r.Ok? ==> r.value.items == Snapshots(cart, catalog) &&
                      r.value.subtotal == CartSubtotal(cart, catalog) &&
                      r.value.subtotal == ItemsSubtotal(r.value.items)
  {
    var orderItems: seq<OrderItem> := [];
    var subtotal := 0;
    for i := 0 to |cart|
      invariant forall j :: 0 <= j < i ==> cart[j].product in catalog
      invariant AllKnown(cart[..i], catalog)
      invariant orderItems == Snapshots(cart[..i], catalog)
      invariant subtotal == ItemsSubtotal(orderItems)
    {
      var item := cart[i];
      if item.product !in catalog {
        FirstMissingAt(cart, catalog, i);
        return Err(ProductNotFound(item.product));
      }
      var p := catalog[item.product];
      SnapshotsStep(cart, catalog, i);
      ItemsSubtotalSnoc(orderItems, Snapshot(item, p));
      orderItems := orderItems + [Snapshot(item, p)];
      subtotal := subtotal + item.amount * p.price;
    }
    assert cart[..|cart|] == cart;
    SubtotalOfSnapshots(cart, catalog);
    r := Ok(Priced(orderItems, subtotal));
  }

  /** createOrder up to building the order: checks the request, prices the
      cart, calls the payment stub with the total and currency "usd" and
      builds the order owned by user under the fresh id. */
  method Checkout(items: Option<seq<CartItem>>, tax: Option<int>, shippingFee: Option<int>,
                  catalog: Catalog, user: UserId, id: OrderId) returns (r: Result<Order>)
    ensures r == PlaceOrder(items, tax, shippingFee, catalog, user, id)
  {
    if items.None? || |items.value| < 1 {
      return Err(BadRequest(NoCartItemsMessage));
    }
    if !Truthy(tax) || !Truthy(shippingFee) {
      return Err(BadRequest(MissingTaxOrShippingMessage));
    }
    r := PriceAndCharge(items.value, tax.value, shippingFee.value, catalog, user, id);
  }

  /** The part of createOrder after the request checks: the pricing loop,
      the payment stub call and the order construction. */
  method PriceAndCharge(cart: seq<CartItem>, tax: int, shippingFee: int,
                        catalog: Catalog, user: UserId, id: OrderId) returns (r: Result<Order>)
    requires cart != [] && tax != 0 && shippingFee != 0
    ensures r == PlaceOrder(Some(cart), Some(tax), Some(shippingFee), catalog, user, id)
  {
    var priced := PriceCart(cart, catalog);
    if priced.Err? {
      PlaceOrderUnknown(Some(cart), Some(tax), Some(shippingFee), catalog, user, id);
      return Err(priced.error);
    }
    var total := tax + shippingFee + priced.value.subtotal;
    var paymentIntent := FakeStripe(total, Currency);
    PlaceOrderPriced(Some(cart), Some(tax), Some(shippingFee), catalog, user, id, priced.value);
    r := Ok(Order(id, priced.value.items, total, priced.value.subtotal, tax,
                  shippingFee, paymentIntent.clientSecret, Pending, None, user));
  }
}
