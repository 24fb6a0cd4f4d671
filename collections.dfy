/** The two document collections the core writes, as objects whose fields the
    route handlers reassign: carts keyed by their owner (the schema makes
    `userId` unique, so there is one cart per user) and orders. The
    `sort({ createdAt: -1 })` of the order queries is here too. */
module Collections {
  import opened Models
  import opened Seqs

  /** No two lines of a cart share the merge key (productId, size, color). */
  predicate KeysUnique(items: seq<CartItem>) {
    forall i, j :: 0 <= i < j < |items| ==> KeyOf(items[i]) != KeyOf(items[j])
  }

  /** No two lines of a cart share an `_id`. */
  predicate IdsUnique(items: seq<CartItem>) {
    forall i, j :: 0 <= i < j < |items| ==> items[i].id != items[j].id
  }

  /** Every line's quantity is at least 1 (the code keeps this only when
      every add is positive: POST does not check). */
  predicate QuantitiesPositive(items: seq<CartItem>) {
    forall i :: 0 <= i < |items| ==> items[i].quantity >= 1
  }

  /** `id` is not the `_id` of any line of `items`: what a new line's
      generated `_id` satisfies. */
  predicate FreshItemId(items: seq<CartItem>, id: ItemId) {
    forall i :: 0 <= i < |items| ==> items[i].id != id
  }

  /** The lines of `u`'s cart, or none when `u` has no cart. */
  function ItemsOf(carts: map<UserId, Cart>, u: UserId): (items: seq<CartItem>) {
    if u in carts then carts[u].items else []
  }

  class CartStore {
    var carts: map<UserId, Cart>

    /** Each cart is filed under its owner and keeps its keys and line ids
        distinct. */
    ghost predicate Valid()
      reads this
    {
      forall u :: u in carts ==>
        carts[u].userId == u && KeysUnique(carts[u].items) && IdsUnique(carts[u].items)
    }

    constructor ()
      ensures Valid() && carts == map[]
    {
      carts := map[];
    }
  }

  predicate OrderIdsUnique(orders: seq<Order>) {
    forall i, j :: 0 <= i < j < |orders| ==> orders[i].id != orders[j].id
  }

  predicate FreshOrderId(orders: seq<Order>, id: OrderId) {
    forall i :: 0 <= i < |orders| ==> orders[i].id != id
  }

  class OrderStore {
    var orders: seq<Order>

    ghost predicate Valid()
      reads this
    {
      OrderIdsUnique(orders)
    }

    constructor ()
      ensures Valid() && orders == []
    {
      orders := [];
    }
  }

  // ---- sort({ createdAt: -1 }) ----

  predicate SortedNewestFirst(s: seq<Order>) {
    forall i, j :: 0 <= i < j < |s| ==> s[i].createdAt >= s[j].createdAt
  }

  /** Putting a document no older than the head in front keeps the order. */
  lemma {:induction false} ConsSorted(x: Order, t: seq<Order>)
    requires SortedNewestFirst(t)
    requires t != [] ==> x.createdAt >= t[0].createdAt
    ensures SortedNewestFirst([x] + t)
  {
    var r := [x] + t;
    forall i, j | 0 <= i < j < |r| ensures r[i].createdAt >= r[j].createdAt {
      if i == 0 {
        assert r[j] == t[j - 1];
        assert t[0].createdAt >= t[j - 1].createdAt || j == 1;
      } else {
        assert r[i] == t[i - 1] && r[j] == t[j - 1];
      }
    }
  }

  /** Insert `o` into a list already sorted newest first. */
  function InsertNewestFirst(o: Order, s: seq<Order>): (r: seq<Order>)
    requires SortedNewestFirst(s)
    ensures SortedNewestFirst(r)
    ensures r != [] && (r[0] == o || (s != [] && r[0] == s[0]))
  {
    if s == [] then [o]
    else if o.createdAt >= s[0].createdAt then
      ConsSorted(o, s);
      [o] + s
    else
      var t := InsertNewestFirst(o, s[1..]);
      ConsSorted(s[0], t);
      [s[0]] + t
  }

  /** Inserting adds `o` and keeps everything else. */
  lemma {:induction false} InsertMultiset(o: Order, s: seq<Order>)
    requires SortedNewestFirst(s)
    ensures multiset(InsertNewestFirst(o, s)) == multiset(s) + multiset{o}
  {
    if s != [] && o.createdAt < s[0].createdAt {
      InsertMultiset(o, s[1..]);
      assert s == [s[0]] + s[1..];
    }
  }

  /** The documents of `s` in descending `createdAt` order. The order among
      documents with the same timestamp is left to the database; this is one
      admissible choice. */
  function NewestFirst(s: seq<Order>): (r: seq<Order>)
    ensures SortedNewestFirst(r)
    ensures multiset(r) == multiset(s)
  {
    if s == [] then []
    else
      assert s == [s[0]] + s[1..];
      InsertMultiset(s[0], NewestFirst(s[1..]));
      InsertNewestFirst(s[0], NewestFirst(s[1..]))
  }
}
