/** The client-side cart provider: the cart state every page reads, the
    count and total derived from it, and the actions that send a request to
    `/api/cart` and replace the state with the answer. The session status and
    what each request settles to are parameters in place of the identity
    provider and the network. */
module CartContext {
  import opened Models
  import opened Seqs
  import opened Collections
  import opened CartRoute
  import opened OrdersRoute

  datatype AuthStatus = Loading | Authenticated | Unauthenticated

  /** The body `addToCart` posts. */
  datatype AddRequest = AddRequest(productId: ProductId, quantity: int, size: string, color: string)

  // ---- derived values ----

  function ItemQuantity(): ItemJson -> int {
    (it: ItemJson) => it.quantity
  }

  /** `(item.productId?.price || 0) * item.quantity`: only a line whose
      product was populated has a price; a bare id or `null` counts as 0. */
  function LinePrice(): ItemJson -> int {
    (it: ItemJson) => if it.product.Resolved? then it.product.product.price * it.quantity else 0
  }

  /** `getCartCount`. */
  function CartCount(c: CartJson): (n: int)
    ensures c.items == [] ==> n == 0
  {
    SumOf(c.items, ItemQuantity())
  }

  /** `getCartTotal`. */
  function CartTotal(c: CartJson): (total: int)
    ensures c.items == [] ==> total == 0
  {
    SumOf(c.items, LinePrice())
  }

  /** Price times quantity of one order line. */
  function SnapshotPrice(): OrderItem -> int {
    (it: OrderItem) => it.price * it.quantity
  }

  /** Whichever way the server serialises a cart, the count is the number of
      units in its lines; an empty cart counts 0. */
  lemma {:induction false} CountIsUnitsInCart(cart: Cart, catalog: map<ProductId, Product>)
    ensures CartCount(UnpopulatedCart(cart)) == TotalQuantity(cart.items)
    ensures CartCount(PopulatedCart(cart, catalog)) == TotalQuantity(cart.items)
    ensures CartCount(EmptyCartJson) == 0
  {
    SumOfAgree(UnpopulatedCart(cart).items, ItemQuantity(), cart.items, LineQuantity());
    SumOfAgree(PopulatedCart(cart, catalog).items, ItemQuantity(), cart.items, LineQuantity());
  }

  /** After a successful add the count grows by exactly the quantity sent. */
  lemma {:induction false} CountAfterAdd(items: seq<CartItem>, u: UserId, key: LineKey, quantity: int, newId: ItemId, now: int)
    ensures CartCount(UnpopulatedCart(Cart(u, AddLine(items, key, quantity, newId), now)))
         == TotalQuantity(items) + quantity
  {
    CountIsUnitsInCart(Cart(u, AddLine(items, key, quantity, newId), now), map[]);
    AddTotalQuantity(items, key, quantity, newId);
  }

  /** With every product populated, the total is the sum of price times
      quantity that checkout would freeze into the order's lines. */
  lemma {:induction false} TotalOfPopulatedCart(cart: Cart, catalog: map<ProductId, Product>)
    requires AllResolved(cart.items, catalog)
    ensures CartTotal(PopulatedCart(cart, catalog)) == SumOf(SnapshotItems(cart.items, catalog), SnapshotPrice())
  {
    SumOfAgree(PopulatedCart(cart, catalog).items, LinePrice(), SnapshotItems(cart.items, catalog), SnapshotPrice());
  }

  /** The body POST and DELETE answer without `populate` has no
      prices, so its total is 0 whatever the cart holds. */
  lemma {:induction false} TotalOfUnpopulatedCart(cart: Cart)
    ensures CartTotal(UnpopulatedCart(cart)) == 0
    decreases |cart.items|
  {
    if cart.items != [] {
      var rest := cart.(items := cart.items[1..]);
      assert UnpopulatedCart(cart).items[1..] == UnpopulatedCart(rest).items;
      TotalOfUnpopulatedCart(rest);
    }
  }

  /** A line whose product was deleted adds nothing to the total. */
  lemma {:induction false} DanglingLinesCountZero(c: CartJson, i: nat)
    requires i < |c.items| && c.items[i].product.Dangling?
    ensures CartTotal(c) == SumOf(c.items[..i] + c.items[i + 1..], LinePrice())
  {
    SumRemoveAt(c.items, i, LinePrice());
  }

  // ---- clearCart ----

  /** The cart `clearCart` leaves: emptied when the PUT is fulfilled, as it
      was otherwise. */
  function AfterClear(cart: CartJson, reply: Reply<CartJson>): (r: CartJson)
    ensures reply.Fulfilled? ==> r == EmptyCartJson
    ensures reply.Rejected? ==> r == cart
  {
    if reply.Fulfilled? then EmptyCartJson else cart
  }

  /** What `axios.put('/api/cart')` settles to against the route file as
      written: it exports no PUT handler, so the framework answers 405 and
      the request is rejected. */
  function PutReplyAsWritten(): (x: Reply<CartJson>)
    ensures !Exports(PUT) && x == ReplyOf(Error(MethodNotAllowed, "Method Not Allowed"))
  {
    if Exports(PUT) then Fulfilled(EmptyCartJson) else ReplyOf(Error(MethodNotAllowed, "Method Not Allowed"))
  }

  /** As written, `clearCart` never empties the local cart: after checkout a
      cart of one line still shows that line and its count. */
  lemma {:induction false} ClearCartAsWrittenKeepsLines(line: ItemJson)
    ensures AfterClear(CartJson([line]), PutReplyAsWritten()) == CartJson([line])
    ensures CartCount(AfterClear(CartJson([line]), PutReplyAsWritten())) == line.quantity
  {
    var c := CartJson([line]);
    assert c.items[1..] == [];
    assert CartCount(c) == ItemQuantity()(line) + SumOf([], ItemQuantity());
  }

  class CartProvider {
    var status: AuthStatus
    var cart: CartJson
    var loading: bool

    /** `useState({ items: [] })`, `useState(true)`, before the session is known. */
    constructor ()
      ensures status == Loading && cart == EmptyCartJson && loading
    {
      status := Loading;
      cart := EmptyCartJson;
      loading := true;
    }

    /** `fetchCart`: replace the cart with the GET answer; a failed request
        keeps the old cart. Loading ends either way. */
    method FetchCart(reply: Reply<CartJson>)
      modifies this
      ensures status == old(status) && !loading
      ensures cart == if reply.Fulfilled? then reply.data else old(cart)
    {
      loading := true;
      if reply.Fulfilled? {
        cart := reply.data;
      }
      loading := false;
    }

    /** The effect on `status`: an authenticated session fetches the cart
        (`fetched` is what that GET settles to), an unauthenticated one
        resets it to no items, a loading one does nothing. */
    method OnStatusChange(s: AuthStatus, fetched: Reply<CartJson>)
      modifies this
      ensures status == s
      ensures s == Authenticated ==>
        !loading && cart == if fetched.Fulfilled? then fetched.data else old(cart)
      ensures s == Unauthenticated ==> cart == EmptyCartJson && !loading
      ensures s == Loading ==> cart == old(cart) && loading == old(loading)
    {
      status := s;
      if s == Authenticated {
        FetchCart(fetched);
      } else if s == Unauthenticated {
        cart := EmptyCartJson;
        loading := false;
      }
    }

    /** `addToCart`: without an authenticated session no request is sent and
        nothing is returned; otherwise the POST is sent and the result is
        true with the answer as the new cart, or false with the cart kept. */
    method AddToCart(productId: ProductId, quantity: int, size: string, color: string,
                     reply: Reply<CartJson>)
      returns (sent: Option<AddRequest>, result: Option<bool>)
      modifies this
      ensures status == old(status) && loading == old(loading)
      ensures status != Authenticated ==> sent.None? && result.None? && cart == old(cart)
      ensures status == Authenticated ==>
        && sent == Some(AddRequest(productId, quantity, size, color))
        && result == Some(reply.Fulfilled?)
        && cart == if reply.Fulfilled? then reply.data else old(cart)
    {
      if status != Authenticated {
        return None, None;
      }
      sent := Some(AddRequest(productId, quantity, size, color));
      if reply.Fulfilled? {
        cart := reply.data;
        result := Some(true);
      } else {
        result := Some(false);
      }
    }

    /** `removeFromCart`: after a fulfilled DELETE the cart is fetched again
        (`fetched` is what that GET settles to); a rejected DELETE keeps it. */
    method RemoveFromCart(itemId: ItemId, deleted: Reply<CartJson>, fetched: Reply<CartJson>)
      modifies this
      ensures status == old(status)
      ensures deleted.Rejected? ==> cart == old(cart) && loading == old(loading)
      ensures deleted.Fulfilled? ==>
        !loading && cart == if fetched.Fulfilled? then fetched.data else old(cart)
    {
      if deleted.Fulfilled? {
        FetchCart(fetched);
      }
    }

    /** `updateQuantity`: the PATCH answer becomes the cart; a rejected PATCH
        keeps it. */
    method UpdateQuantity(itemId: ItemId, quantity: int, reply: Reply<CartJson>)
      modifies this
      ensures status == old(status) && loading == old(loading)
      ensures cart == if reply.Fulfilled? then reply.data else old(cart)
    {
      if reply.Fulfilled? {
        cart := reply.data;
      }
    }

    /** `clearCart`: the local cart is emptied only when the PUT is
        fulfilled; a rejected PUT keeps it. */
    method ClearCart(reply: Reply<CartJson>)
      modifies this
      ensures status == old(status) && loading == old(loading)
      ensures cart == AfterClear(old(cart), reply)
    {
      if reply.Fulfilled? {
        cart := EmptyCartJson;
      }
    }

    /** `clearCart` against the route file as written: the PUT is rejected
        and neither the local cart nor any stored cart changes. */
    method ClearCartAsWritten(store: CartStore)
      modifies this
      ensures cart == old(cart) && status == old(status) && loading == old(loading)
      ensures store.carts == old(store.carts)
    {
      ClearCart(PutReplyAsWritten());
    }

    /** `clearCart` against a route that handles PUT: the caller's stored
        cart and the local cart both end with no items. */
    method ClearCartCorrected(store: CartStore, session: Option<Session>, now: int)
      requires store.Valid()
      modifies this, store
      ensures store.Valid()
      ensures status == old(status) && loading == old(loading)
      ensures session.Some? ==> cart == EmptyCartJson && ItemsOf(store.carts, session.value.userId) == []
      ensures session.None? ==> cart == old(cart) && store.carts == old(store.carts)
    {
      var r := Put(store, session, now);
      ClearCart(ReplyOf(r));
    }
  }
}
