/** The `/api/admin/orders` route: GET lists every order newest first with
    revenue statistics, PATCH replaces one order's status. Both answer 401
    unless the session is an admin's. The start of the current day is a
    parameter in place of the wall clock. */
module AdminOrdersRoute {
  import opened Models
  import opened Seqs
  import opened Collections

  datatype Stats = Stats(totalRevenue: int, totalOrders: int, todayRevenue: int)

  datatype AdminOrders = AdminOrders(orders: seq<Order>, stats: Stats)

  function Amount(): Order -> int {
    (o: Order) => o.totalAmount
  }

  function CreatedSince(start: int): Order -> bool {
    (o: Order) => o.createdAt >= start
  }

  /** Sum of `totalAmount`. */
  function Revenue(orders: seq<Order>): (sum: int)
    ensures orders == [] ==> sum == 0
  {
    SumOf(orders, Amount())
  }

  /** Sum of `totalAmount` over the orders created at or after `start`. */
  function RevenueSince(orders: seq<Order>, start: int): (sum: int)
    ensures orders == [] ==> sum == 0
  {
    Revenue(Filter(orders, CreatedSince(start)))
  }

  /** The three figures of the GET answer. */
  function ComputeStats(orders: seq<Order>, startOfToday: int): (s: Stats)
    ensures s.totalOrders == |orders|
  {
    Stats(Revenue(orders), |orders|, RevenueSince(orders, startOfToday))
  }

  /** Reordering the orders changes none of the statistics. */
  lemma {:induction false} StatsIgnoreOrder(a: seq<Order>, b: seq<Order>, start: int)
    requires multiset(a) == multiset(b)
    ensures ComputeStats(a, start) == ComputeStats(b, start)
  {
    SumPermutation(a, b, Amount());
    var fa, fb := Filter(a, CreatedSince(start)), Filter(b, CreatedSince(start));
    forall x ensures multiset(fa)[x] == multiset(fb)[x] {
      FilterMultiset(a, CreatedSince(start), x);
      FilterMultiset(b, CreatedSince(start), x);
    }
    assert multiset(fa) == multiset(fb);
    SumPermutation(fa, fb, Amount());
    assert |a| == |multiset(a)| == |multiset(b)| == |b|;
  }

  /** Today's revenue and the revenue of earlier orders add up to the total:
      today's revenue sums a part of what the total sums. */
  lemma {:induction false} TodayIsPartOfTotal(orders: seq<Order>, start: int)
    ensures RevenueSince(orders, start) + Revenue(Filter(orders, Not(CreatedSince(start))))
         == Revenue(orders)
  {
    SumPartition(orders, CreatedSince(start), Amount());
  }

  /** With no negative amounts, today's revenue is between 0 and the total. */
  lemma {:induction false} TodayAtMostTotal(orders: seq<Order>, start: int)
    requires forall o :: o in orders ==> o.totalAmount >= 0
    ensures 0 <= RevenueSince(orders, start) <= Revenue(orders)
  {
    SumFilterBound(orders, CreatedSince(start), Amount());
  }

  /** Two orders of 50.00 placed today and one of 30.00 placed the day
      before: today's revenue is 100.00, the total 130.00, three orders. */
  lemma {:induction false} StatsExample(a: Order, b: Order, c: Order, start: int)
    requires a.totalAmount == 5000 && b.totalAmount == 5000 && c.totalAmount == 3000
    requires a.createdAt >= start && b.createdAt >= start && c.createdAt < start
    ensures ComputeStats([a, b, c], start) == Stats(13000, 3, 10000)
  {
    var f := CreatedSince(start);
    assert Filter([c], f) == [];
    assert Filter([b, c], f) == [b] + Filter([c], f);
    assert Filter([a, b, c], f) == [a] + Filter([b, c], f);
    assert Filter([a, b, c], f) == [a, b];
    assert [a, b, c][1..] == [b, c] && [b, c][1..] == [c] && [a, b][1..] == [b] && [c][1..] == [] && [b][1..] == [];
    assert Revenue([c]) == Amount()(c) + Revenue([]) == 3000;
    assert Revenue([b]) == Amount()(b) + Revenue([]) == 5000;
    assert Revenue([b, c]) == 8000;
  }

  /** GET: every order, newest first, with the statistics of the stored
      collection. */
  method Get(orders: OrderStore, session: Option<Session>, startOfToday: int)
    returns (r: Response<AdminOrders>)
    ensures !IsAdmin(session) <==> r == Error(401, "Unauthorized")
    ensures IsAdmin(session) ==>
      && r.Ok? && r.code == 200
      && SortedNewestFirst(r.body.orders)
      && multiset(r.body.orders) == multiset(orders.orders)
      && r.body.stats.totalRevenue == Revenue(orders.orders)
      && r.body.stats.totalOrders == |orders.orders|
      && r.body.stats.todayRevenue == RevenueSince(orders.orders, startOfToday)
  {
    if !IsAdmin(session) {
      return Error(401, "Unauthorized");
    }
    var listed := NewestFirst(orders.orders);
    StatsIgnoreOrder(listed, orders.orders, startOfToday);
    r := Ok(200, AdminOrders(listed, ComputeStats(listed, startOfToday)));
  }

  function WithId(id: OrderId): Order -> bool {
    (o: Order) => o.id == id
  }

  /** PATCH: set the status of the order with the given id. The status is one
      of the four values the schema enumerates. */
  method Patch(orders: OrderStore, session: Option<Session>, orderId: Option<OrderId>,
               status: Option<OrderStatus>)
    returns (r: Response<Order>)
    requires orders.Valid()
    modifies orders
    ensures orders.Valid()
    ensures !IsAdmin(session) ==>
      r == Error(401, "Unauthorized") && orders.orders == old(orders.orders)
    ensures IsAdmin(session) && (!Present(orderId) || status.None?) ==>
      r == Error(400, "Order ID and status required") && orders.orders == old(orders.orders)
    ensures IsAdmin(session) && Present(orderId) && status.Some?
            && (forall i :: 0 <= i < |old(orders.orders)| ==> old(orders.orders)[i].id != orderId.value) ==>
      r == Error(404, "Order not found") && orders.orders == old(orders.orders)
    ensures IsAdmin(session) && Present(orderId) && status.Some? ==>
      forall i :: 0 <= i < |old(orders.orders)| && old(orders.orders)[i].id == orderId.value ==>
        && orders.orders == old(orders.orders)[i := old(orders.orders)[i].(status := status.value)]
        && r == Ok(200, orders.orders[i])
  {
    if !IsAdmin(session) {
      return Error(401, "Unauthorized");
    }
    if !Present(orderId) || status.None? {
      return Error(400, "Order ID and status required");
    }
    var i := FindIndex(orders.orders, WithId(orderId.value));
    if i == -1 {
      return Error(404, "Order not found");
    }
    orders.orders := orders.orders[i := orders.orders[i].(status := status.value)];
    r := Ok(200, orders.orders[i]);
  }
}
