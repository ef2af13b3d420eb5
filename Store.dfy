/** The order handlers over an in-memory order store keyed by order id. */
module Store {
  import opened Types
  import opened Pricing

  /** The query filter of a find: none, or the owning user. */
  predicate Matches(o: Order, user: Option<UserId>)
  {
    user.None? || o.user == user.value
  }

  /** Every stored order carries the id it is stored under. */
  predicate KeyedById(m: map<OrderId, Order>)
  {
    forall k :: k in m ==> m[k].id == k
  }

  /** The ids below n whose order passes the filter. */
  ghost function MatchingIds(m: map<OrderId, Order>, user: Option<UserId>, n: nat): (ids: set<OrderId>)
    ensures forall k :: k in ids <==> k in m && k < n && Matches(m[k], user)
  {
    if n == 0 then {}
    else if n - 1 in m && Matches(m[n - 1], user) then MatchingIds(m, user, n - 1) + {n - 1}
    else MatchingIds(m, user, n - 1)
  }

  /** The orders with id below n that pass the filter, in ascending id order,
      which is the order in which the store created them. */
  function Find(m: map<OrderId, Order>, user: Option<UserId>, n: nat): seq<Order>
  {
    if n == 0 then []
    else
      var prev := Find(m, user, n - 1);
      if n - 1 in m && Matches(m[n - 1], user) then prev + [m[n - 1]] else prev
  }

  /** A find returns exactly the stored orders below n that pass the filter,
      in strictly ascending id order. */
  lemma {:induction false} FindExact(m: map<OrderId, Order>, user: Option<UserId>, n: nat)
    requires KeyedById(m)
    ensures var r := Find(m, user, n);
            forall o :: o in r <==> o.id < n && o.id in m && m[o.id] == o && Matches(o, user)
    ensures var r := Find(m, user, n);
            forall i, j :: 0 <= i < j < |r| ==> r[i].id < r[j].id
  {
    if n > 0 {
      FindExact(m, user, n - 1);
      var prev := Find(m, user, n - 1);
      assert forall i :: 0 <= i < |prev| ==> prev[i] in prev;
    }
  }

  /** A find returns one order per matching id. */
  lemma {:induction false} FindCount(m: map<OrderId, Order>, user: Option<UserId>, n: nat)
    requires KeyedById(m)
    ensures |Find(m, user, n)| == |MatchingIds(m, user, n)|
  {
    if n > 0 {
      FindCount(m, user, n - 1);
      assert n - 1 !in MatchingIds(m, user, n - 1);
    }
  }

  /** b is a with at most its status and payment intent id replaced. */
  predicate SameExceptPayment(a: Order, b: Order)
  {
    a.(status := b.status, paymentIntentId := b.paymentIntentId) == b
  }

  /** The store invariant: orders are stored under their own id, every id is
      below the next one to hand out, and every order is well formed. */
  predicate StoreInvariant(m: map<OrderId, Order>, nextId: nat)
  {
    KeyedById(m) && forall k :: k in m ==> k < nextId && WellFormed(m[k])
  }

  /** Storing a well-formed order under the next id keeps the invariant. */
  lemma InsertKeepsInvariant(m: map<OrderId, Order>, nextId: nat, o: Order)
    requires StoreInvariant(m, nextId) && WellFormed(o) && o.id == nextId
    ensures nextId !in m && StoreInvariant(m[nextId := o], nextId + 1)
  {
  }

  /** Replacing the payment fields of a stored order keeps the invariant. */
  lemma PaymentUpdateKeepsInvariant(m: map<OrderId, Order>, nextId: nat, id: OrderId, o: Order)
    requires StoreInvariant(m, nextId) && id in m && SameExceptPayment(m[id], o)
    ensures StoreInvariant(m[id := o], nextId)
  {
  }

  class OrderStore {
    var orders: map<OrderId, Order>
    /** The id the next created order receives. */
    var nextId: nat

    ghost predicate Valid()
      reads this
    {
      StoreInvariant(orders, nextId)
    }

    constructor ()
      ensures Valid() && orders == map[] && nextId == 0
    {
      orders := map[];
      nextId := 0;
    }

    /** createOrder: validates the request, prices the cart, asks the payment
        stub for a client secret and stores exactly one new order owned by
        the caller; on any error nothing is stored. */
    method CreateOrder(items: Option<seq<CartItem>>, tax: Option<int>, shippingFee: Option<int>,
                       catalog: Catalog, caller: Caller) returns (r: Result<Order>)
      requires Valid()
      modifies this
      ensures Valid()
      ensures r == PlaceOrder(items, tax, shippingFee, catalog, caller.userId, old(nextId))
      ensures r.Ok? ==> r.value.id !in old(orders) && orders == old(orders)[r.value.id := r.value]
                        && nextId == old(nextId) + 1
      ensures r.Err? ==> orders == old(orders) && nextId == old(nextId)
    {
      r := Checkout(items, tax, shippingFee, catalog, caller.userId, nextId);
      if r.Ok? {
        PlaceOrderSuccess(items, tax, shippingFee, catalog, caller.userId, nextId);
        PlacedOrderWellFormed(items, tax, shippingFee, catalog, caller.userId, nextId);
        InsertKeepsInvariant(orders, nextId, r.value);
        orders := orders[nextId := r.value];
        nextId := nextId + 1;
      }
    }

    /** getAllOrders: every stored order, in creation order, and their count. */
    method GetAllOrders() returns (found: seq<Order>, count: nat)
      requires Valid()
      ensures forall o :: o in found <==> o.id in orders && orders[o.id] == o
      ensures forall i, j :: 0 <= i < j < |found| ==> found[i].id < found[j].id
      ensures count == |found| == |orders|
    {
      found := Find(orders, None, nextId);
      FindExact(orders, None, nextId);
      FindCount(orders, None, nextId);
      assert MatchingIds(orders, None, nextId) == orders.Keys;
      count := |found|;
    }

    /** getSingleOrder: the order under id, if the caller may see it. */
    method GetSingleOrder(id: OrderId, caller: Caller, permits: (Caller, UserId) -> bool)
      returns (r: Result<Order>)
      ensures id !in orders ==> r == Err(OrderNotFound(id))
      ensures id in orders && !permits(caller, orders[id].user) ==> r == Err(Unauthorized)
      ensures id in orders && permits(caller, orders[id].user) ==> r == Ok(orders[id])
    {
      if id !in orders {
        return Err(OrderNotFound(id));
      }
      var order := orders[id];
      if !permits(caller, order.user) {
        return Err(Unauthorized);
      }
      r := Ok(order);
    }

    /** getCurrentUserOrders: exactly the caller's orders, in creation order,
        and their count. */
    method GetCurrentUserOrders(caller: Caller) returns (found: seq<Order>, count: nat)
      requires Valid()
      ensures forall o :: o in found <==> o.id in orders && orders[o.id] == o && o.user == caller.userId
      ensures forall i, j :: 0 <= i < j < |found| ==> found[i].id < found[j].id
      ensures count == |found| == |set k | k in orders && orders[k].user == caller.userId|
    {
      found := Find(orders, Some(caller.userId), nextId);
      FindExact(orders, Some(caller.userId), nextId);
      FindCount(orders, Some(caller.userId), nextId);
      assert MatchingIds(orders, Some(caller.userId), nextId)
          == set k | k in orders && orders[k].user == caller.userId;
      count := |found|;
    }

    /** updateOrder: records the payment intent id and marks the order paid,
        whatever its status was; no other field and no other order changes. */
    method UpdateOrder(id: OrderId, paymentIntentId: Option<string>, caller: Caller,
                       permits: (Caller, UserId) -> bool) returns (r: Result<Order>)
      requires Valid()
      modifies this
      ensures Valid() && nextId == old(nextId)
      ensures id !in old(orders) ==> r == Err(OrderNotFound(id)) && orders == old(orders)
      ensures id in old(orders) && !permits(caller, old(orders)[id].user) ==>
                r == Err(Unauthorized) && orders == old(orders)
      ensures id in old(orders) && permits(caller, old(orders)[id].user) ==>
                r.Ok? && orders == old(orders)[id := r.value] &&
                r.value.status == Paid && r.value.paymentIntentId == paymentIntentId &&
                SameExceptPayment(old(orders)[id], r.value)
    {
      if id !in orders {
        return Err(OrderNotFound(id));
      }
      var order := orders[id];
      if !permits(caller, order.user) {
        return Err(Unauthorized);
      }
      order := order.(paymentIntentId := paymentIntentId);
      order := order.(status := Paid);
      PaymentUpdateKeepsInvariant(orders, nextId, id, order);
      orders := orders[id := order];
      r := Ok(order);
    }
  }
}
