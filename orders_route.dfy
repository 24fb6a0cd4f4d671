/** The `/api/orders` route: POST turns the caller's cart into an order and
    empties the cart; GET lists the caller's orders newest first. The
    session, the catalog used by `populate`, the clock and the generated
    order `_id` are parameters. */
module OrdersRoute {
  import opened Models
  import opened Seqs
  import opened Collections
  import CartRoute

  /** The `shippingDetails` object of the request body. */
  datatype ShippingDetails = ShippingDetails(
    address: string,
    city: string,
    state: string,
    zipCode: string,
    country: string)

  /** The request body. `subtotal` and `shippingCost` are sent but unused. */
  datatype OrderRequest = OrderRequest(
    shippingDetails: ShippingDetails,
    subtotal: int,
    shippingCost: int,
    total: int,
    paymentMethod: string)

  /** Every line's product still exists, so `populate` resolved it. */
  predicate AllResolved(items: seq<CartItem>, catalog: map<ProductId, Product>) {
    forall i :: 0 <= i < |items| ==> items[i].productId in catalog
  }

  /** The frozen copy of one populated cart line. */
  function Snapshot(item: CartItem, product: Product): (s: OrderItem) {
    OrderItem(product.id, product.name, product.price, item.quantity, item.size, item.color,
              PrimaryImage(product.images, ""))
  }

  /** `cart.items.map(...)`: one snapshot per line, in order. */
  function SnapshotItems(items: seq<CartItem>, catalog: map<ProductId, Product>): (r: seq<OrderItem>)
    requires AllResolved(items, catalog)
    ensures |r| == |items|
    ensures forall i :: 0 <= i < |r| ==> r[i] == Snapshot(items[i], catalog[items[i].productId])
  {
    seq(|items|, i requires 0 <= i < |items| => Snapshot(items[i], catalog[items[i].productId]))
  }

  /** Each order line copies quantity, size and colour from its cart line and
      name, price and primary image from the product that line refers to. */
  lemma {:induction false} SnapshotCopiesLineAndProduct(items: seq<CartItem>, catalog: map<ProductId, Product>, i: nat)
    requires AllResolved(items, catalog) && CatalogKeyed(catalog) && i < |items|
    ensures var s := SnapshotItems(items, catalog)[i];
      var p := catalog[items[i].productId];
      && s.productId == items[i].productId
      && s.quantity == items[i].quantity && s.size == items[i].size && s.color == items[i].color
      && s.name == p.name && s.price == p.price
      && (|p.images| > 0 ==> s.image == p.images[0])
      && (|p.images| == 0 ==> s.image == "")
  {
  }

  /** `paymentMethod === "cod" ? "pending" : "pending"`. */
  function InitialPaymentStatus(paymentMethod: string): (s: PaymentStatus) {
    if paymentMethod == "cod" then PaymentPending else PaymentPending
  }

  lemma {:induction false} PaymentAlwaysPending(paymentMethod: string)
    ensures InitialPaymentStatus(paymentMethod) == PaymentPending
  {
  }

  /** The order document built from the snapshot and the request. */
  function NewOrder(id: OrderId, u: UserId, items: seq<OrderItem>, request: OrderRequest, now: int): (o: Order)
    ensures o.status == Pending && o.paymentStatus == PaymentPending
    ensures o.totalAmount == request.total
    ensures o.items == items && o.userId == u && o.id == id && o.createdAt == now
  {
    var d := request.shippingDetails;
    Order(id, u, items, request.total,
          ShippingAddress(d.address, d.city, d.state, d.zipCode, d.country),
          Pending, InitialPaymentStatus(request.paymentMethod), now)
  }

  /** POST: check out the caller's cart. A missing or empty cart is a 400;
      a line whose product no longer exists makes the snapshot dereference
      `null`, which the handler reports as a 500. On success the order is
      stored, the cart is emptied and the order is answered with 201. */
  method PlaceOrder(carts: CartStore, orders: OrderStore, catalog: map<ProductId, Product>,
                    session: Option<Session>, request: OrderRequest, newOrderId: OrderId, now: int)
    returns (r: Response<Order>)
    requires carts.Valid() && orders.Valid() && CatalogKeyed(catalog)
    requires FreshOrderId(orders.orders, newOrderId)
    modifies carts, orders
    ensures carts.Valid() && orders.Valid()
    ensures session.None? ==>
      r == Error(401, "Unauthorized")
      && carts.carts == old(carts.carts) && orders.orders == old(orders.orders)
    ensures session.Some? && ItemsOf(old(carts.carts), session.value.userId) == [] ==>
      r == Error(400, "Cart is empty")
      && carts.carts == old(carts.carts) && orders.orders == old(orders.orders)
    ensures session.Some? && ItemsOf(old(carts.carts), session.value.userId) != []
            && !AllResolved(ItemsOf(old(carts.carts), session.value.userId), catalog) ==>
      r == Error(500, "Internal Server Error")
      && carts.carts == old(carts.carts) && orders.orders == old(orders.orders)
    ensures session.Some? && ItemsOf(old(carts.carts), session.value.userId) != []
            && AllResolved(ItemsOf(old(carts.carts), session.value.userId), catalog) ==>
      var u := session.value.userId;
      var order := NewOrder(newOrderId, u, SnapshotItems(old(carts.carts)[u].items, catalog), request, now);
      && r == Ok(201, order)
      && orders.orders == old(orders.orders) + [order]
      && carts.carts == old(carts.carts)[u := old(carts.carts)[u].(items := [])]
      && ItemsOf(carts.carts, u) == []
      && (forall i :: 0 <= i < |order.items| ==>
            order.items[i].productId == old(carts.carts)[u].items[i].productId)
  {
    if session.None? {
      return Error(401, "Unauthorized");
    }
    var u := session.value.userId;
    if u !in carts.carts || |carts.carts[u].items| == 0 {
      return Error(400, "Cart is empty");
    }
    var cart := carts.carts[u];
    if !AllResolved(cart.items, catalog) {
      return Error(500, "Internal Server Error");
    }
    var order := NewOrder(newOrderId, u, SnapshotItems(cart.items, catalog), request, now);
    orders.orders := orders.orders + [order];
    carts.carts := carts.carts[u := cart.(items := [])];
    r := Ok(201, order);
  }

  /** Checkout followed by a GET of the cart with the same session: after
      an order is created, the caller's cart answers an empty item list;
      when checkout fails, the cart answers as it did before. */
  method CheckoutLeavesCartEmpty(carts: CartStore, orders: OrderStore, catalog: map<ProductId, Product>,
                                 session: Option<Session>, request: OrderRequest, newOrderId: OrderId, now: int)
    returns (placed: Response<Order>, after: Response<CartJson>)
    requires carts.Valid() && orders.Valid() && CatalogKeyed(catalog)
    requires FreshOrderId(orders.orders, newOrderId)
    modifies carts, orders
    ensures carts.Valid() && orders.Valid()
    ensures placed.Ok? <==>
      session.Some? && ItemsOf(old(carts.carts), session.value.userId) != []
      && AllResolved(ItemsOf(old(carts.carts), session.value.userId), catalog)
    ensures placed.Ok? ==> placed.code == 201 && after == Ok(200, EmptyCartJson)
    ensures placed.Error? ==> carts.carts == old(carts.carts) && orders.orders == old(orders.orders)
    ensures session.None? ==> after == Error(401, "Unauthorized")
  {
    placed := PlaceOrder(carts, orders, catalog, session, request, newOrderId, now);
    after := CartRoute.Get(carts, session, catalog);
    if placed.Ok? {
      assert after.body.items == [];
    }
  }

  function OwnedBy(u: UserId): Order -> bool {
    (o: Order) => o.userId == u
  }

  /** `Order.find({ userId }).sort({ createdAt: -1 })`. */
  function OrdersOf(orders: seq<Order>, u: UserId): (r: seq<Order>)
    ensures SortedNewestFirst(r)
  {
    NewestFirst(Filter(orders, OwnedBy(u)))
  }

  /** The listing holds exactly the caller's orders, each as often as it is
      stored, newest first. */
  lemma {:induction false} OrdersOfIsTheCallersOrders(orders: seq<Order>, u: UserId, o: Order)
    ensures SortedNewestFirst(OrdersOf(orders, u))
    ensures multiset(OrdersOf(orders, u))[o] == if o.userId == u then multiset(orders)[o] else 0
  {
    FilterMultiset(orders, OwnedBy(u), o);
  }

  /** GET: the caller's orders, newest first. */
  method ListOrders(orders: OrderStore, session: Option<Session>) returns (r: Response<seq<Order>>)
    ensures session.None? <==> r == Error(401, "Unauthorized")
    ensures session.Some? ==>
      && r.Ok? && r.code == 200
      && SortedNewestFirst(r.body)
      && (forall i :: 0 <= i < |r.body| ==> r.body[i].userId == session.value.userId)
      && (forall i :: 0 <= i < |orders.orders| && orders.orders[i].userId == session.value.userId
            ==> orders.orders[i] in r.body)
    ensures session.Some? ==> r == Ok(200, OrdersOf(orders.orders, session.value.userId))
  {
    if session.None? {
      return Error(401, "Unauthorized");
    }
    var u := session.value.userId;
    var mine := Filter(orders.orders, OwnedBy(u));
    var listed := NewestFirst(mine);
    forall i | 0 <= i < |listed| ensures listed[i].userId == u {
      assert listed[i] in multiset(listed);
      assert listed[i] in mine;
    }
    forall i | 0 <= i < |orders.orders| && orders.orders[i].userId == u ensures orders.orders[i] in listed {
      assert orders.orders[i] in mine;
      assert orders.orders[i] in multiset(listed);
    }
    r := Ok(200, listed);
  }
}
