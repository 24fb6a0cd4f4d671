/** The admin order list: the local status update after a PATCH, and the
    values each order card shows (the short order number and the "+N"
    badge after the item thumbnails). */
module AdminOrdersPage {
  import opened Models
  import opened Seqs
  import opened Collections

  /** `orders.map(o => o._id === orderId ? { ...o, status } : o)`. */
  function LocalUpdate(orders: seq<Order>, id: OrderId, status: OrderStatus): (r: seq<Order>)
    ensures |r| == |orders|
    ensures forall i :: 0 <= i < |orders| ==>
      r[i] == if orders[i].id == id then orders[i].(status := status) else orders[i]
  {
    seq(|orders|, i requires 0 <= i < |orders| =>
      if orders[i].id == id then orders[i].(status := status) else orders[i])
  }

  /** `updateStatus`: the list after the PATCH settles; a rejected PATCH
      leaves it as it was. */
  function AfterStatusUpdate(orders: seq<Order>, id: OrderId, status: OrderStatus, reply: Reply<Order>): (r: seq<Order>)
    ensures reply.Rejected? ==> r == orders
    ensures reply.Fulfilled? ==> r == LocalUpdate(orders, id, status)
  {
    if reply.Fulfilled? then LocalUpdate(orders, id, status) else orders
  }

  /** With distinct ids, the local update changes the one order the server
      changed, in the way the admin PATCH handler changes it. */
  lemma {:induction false} LocalUpdateMatchesServer(orders: seq<Order>, i: nat, status: OrderStatus)
    requires OrderIdsUnique(orders) && i < |orders|
    ensures LocalUpdate(orders, orders[i].id, status) == orders[i := orders[i].(status := status)]
  {
    var r := LocalUpdate(orders, orders[i].id, status);
    forall j | 0 <= j < |orders| && j != i ensures r[j] == orders[j] {
      assert orders[j].id != orders[i].id by {
        if j < i {
          assert orders[j].id != orders[i].id;
        }
      }
    }
  }

  /** An id the list does not hold changes nothing. */
  lemma {:induction false} LocalUpdateAbsentId(orders: seq<Order>, id: OrderId, status: OrderStatus)
    requires FreshOrderId(orders, id)
    ensures LocalUpdate(orders, id, status) == orders
  {
  }

  /** `order._id.slice(-8)`: the last eight characters, or the whole id
      when it is shorter. */
  function OrderLabel(id: OrderId): (r: string)
    ensures |id| >= 8 ==> |r| == 8
    ensures |id| < 8 ==> r == id
    ensures id == id[..|id| - |r|] + r
  {
    if |id| >= 8 then id[|id| - 8..] else id
  }

  /** A 24-character ObjectId shows as its last eight characters. */
  lemma {:induction false} ObjectIdLabel(id: OrderId)
    requires |id| == 24
    ensures OrderLabel(id) == id[16..]
  {
  }

  /** The "+N" badge: shown only for more than three items, counting the
      items past the third. */
  function OverflowBadge(items: seq<OrderItem>): (r: Option<int>)
    ensures r.Some? <==> |items| > 3
    ensures r.Some? ==> r.value >= 1 && r.value + 3 == |items|
  {
    if |items| > 3 then Some(|items| - 3) else None
  }
}
