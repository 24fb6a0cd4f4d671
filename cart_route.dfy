/** The `/api/cart` route: GET, POST, DELETE and PATCH handlers over the cart
    collection, each gated on a session. The session, the catalog used by
    `populate`, the clock and the generated line `_id` are parameters. */
module CartRoute {
  import opened Models
  import opened Seqs
  import opened Collections

  // ---- the line predicates the handlers search and filter with ----

  function HasKey(key: LineKey): CartItem -> bool {
    (it: CartItem) => KeyOf(it) == key
  }

  function HasId(id: ItemId): CartItem -> bool {
    (it: CartItem) => it.id == id
  }

  function OtherId(id: ItemId): CartItem -> bool {
    (it: CartItem) => it.id != id
  }

  // ---- the cart seen as a bag of keys ----

  function LineQuantity(): CartItem -> int {
    (it: CartItem) => it.quantity
  }

  function QuantityUnder(key: LineKey): CartItem -> int {
    (it: CartItem) => if KeyOf(it) == key then it.quantity else 0
  }

  /** The number of units in the lines. */
  function TotalQuantity(items: seq<CartItem>): (n: int) {
    SumOf(items, LineQuantity())
  }

  /** The number of units filed under `key`. */
  function QuantityOfKey(items: seq<CartItem>, key: LineKey): (n: int) {
    SumOf(items, QuantityUnder(key))
  }

  // ---- what each handler does to a cart's lines ----

  /** POST: add `quantity` to the first line with the key, or append a new
      line when there is none. */
  function AddLine(items: seq<CartItem>, key: LineKey, quantity: int, newId: ItemId): (r: seq<CartItem>)
    ensures |items| <= |r| <= |items| + 1
    ensures exists j :: 0 <= j < |r| && KeyOf(r[j]) == key
  {
    var i := FindIndex(items, HasKey(key));
    if i > -1 then
      var r := items[i := items[i].(quantity := items[i].quantity + quantity)];
      assert HasKey(key)(items[i]) && KeyOf(r[i]) == key;
      r
    else
      var r := items + [CartItem(newId, key.productId, quantity, key.size, key.color)];
      assert KeyOf(r[|items|]) == key;
      r
  }

  /** DELETE: keep the lines whose id differs from `id`. */
  function RemoveLine(items: seq<CartItem>, id: ItemId): (r: seq<CartItem>)
    ensures |r| <= |items|
    ensures forall j :: 0 <= j < |r| ==> r[j].id != id
  {
    Filter(items, OtherId(id))
  }

  /** PATCH: set the quantity of line `i`. */
  function SetQuantity(items: seq<CartItem>, i: nat, quantity: int): (r: seq<CartItem>)
    requires i < |items|
    ensures |r| == |items| && r[i].quantity == quantity
    ensures forall j :: 0 <= j < |r| ==> r[j].id == items[j].id && KeyOf(r[j]) == KeyOf(items[j])
  {
    items[i := items[i].(quantity := quantity)]
  }

  // ---- POST ----

  /** A key already present: that line's quantity grows by the requested
      amount, the number of lines and every other line stay as they were. */
  lemma {:induction false} AddMergesIntoExistingLine(items: seq<CartItem>, key: LineKey, quantity: int, newId: ItemId, i: nat)
    requires KeysUnique(items)
    requires i < |items| && KeyOf(items[i]) == key
    ensures |AddLine(items, key, quantity, newId)| == |items|
    ensures AddLine(items, key, quantity, newId)[i] == items[i].(quantity := items[i].quantity + quantity)
    ensures forall j :: 0 <= j < |items| && j != i ==> AddLine(items, key, quantity, newId)[j] == items[j]
  {
    var k := FindIndex(items, HasKey(key));
    assert HasKey(key)(items[i]);
    assert k != -1 && k <= i;
    assert KeyOf(items[k]) == key;
  }

  /** A new key: exactly one line is appended at the end. */
  lemma {:induction false} AddAppendsNewLine(items: seq<CartItem>, key: LineKey, quantity: int, newId: ItemId)
    requires forall j :: 0 <= j < |items| ==> KeyOf(items[j]) != key
    ensures AddLine(items, key, quantity, newId)
         == items + [CartItem(newId, key.productId, quantity, key.size, key.color)]
  {
  }

  /** Adding keeps at most one line per key. */
  lemma {:induction false} AddKeepsKeysUnique(items: seq<CartItem>, key: LineKey, quantity: int, newId: ItemId)
    requires KeysUnique(items)
    ensures KeysUnique(AddLine(items, key, quantity, newId))
  {
    var r := AddLine(items, key, quantity, newId);
    var k := FindIndex(items, HasKey(key));
    if k > -1 {
      assert forall j :: 0 <= j < |items| ==> KeyOf(r[j]) == KeyOf(items[j]);
    } else {
      assert forall j :: 0 <= j < |items| ==> !HasKey(key)(items[j]);
      assert forall j :: 0 <= j < |items| ==> r[j] == items[j];
    }
  }

  /** With a fresh `_id` for a new line, adding keeps line ids distinct. */
  lemma {:induction false} AddKeepsIdsUnique(items: seq<CartItem>, key: LineKey, quantity: int, newId: ItemId)
    requires IdsUnique(items) && FreshItemId(items, newId)
    ensures IdsUnique(AddLine(items, key, quantity, newId))
  {
    var r := AddLine(items, key, quantity, newId);
    var k := FindIndex(items, HasKey(key));
    if k > -1 {
      assert forall j :: 0 <= j < |items| ==> r[j].id == items[j].id;
    } else {
      assert forall j :: 0 <= j < |items| ==> r[j] == items[j];
    }
  }

  /** Positive quantities stay positive, but only when the added amount is
      positive: the handler does not check it. */
  lemma {:induction false} AddKeepsQuantitiesPositive(items: seq<CartItem>, key: LineKey, quantity: int, newId: ItemId)
    requires QuantitiesPositive(items) && quantity >= 1
    ensures QuantitiesPositive(AddLine(items, key, quantity, newId))
  {
    var k := FindIndex(items, HasKey(key));
    if k == -1 {
      var r := AddLine(items, key, quantity, newId);
      assert forall j :: 0 <= j < |items| ==> r[j] == items[j];
    }
  }

  /** Seen as a bag of keys, adding puts `quantity` more units under `key`
      and changes no other key. */
  lemma {:induction false} AddQuantityOfKey(items: seq<CartItem>, key: LineKey, quantity: int, newId: ItemId, k: LineKey)
    ensures QuantityOfKey(AddLine(items, key, quantity, newId), k)
         == QuantityOfKey(items, k) + (if k == key then quantity else 0)
  {
    var i := FindIndex(items, HasKey(key));
    var f := QuantityUnder(k);
    if i > -1 {
      assert KeyOf(items[i]) == key;
      SumUpdate(items, i, items[i].(quantity := items[i].quantity + quantity), f);
    } else {
      var line := CartItem(newId, key.productId, quantity, key.size, key.color);
      SumConcat(items, [line], f);
      assert SumOf([line], f) == f(line);
    }
  }

  /** Adding adds exactly `quantity` units to the cart. */
  lemma {:induction false} AddTotalQuantity(items: seq<CartItem>, key: LineKey, quantity: int, newId: ItemId)
    ensures TotalQuantity(AddLine(items, key, quantity, newId)) == TotalQuantity(items) + quantity
  {
    var i := FindIndex(items, HasKey(key));
    var f := LineQuantity();
    if i > -1 {
      SumUpdate(items, i, items[i].(quantity := items[i].quantity + quantity), f);
    } else {
      var line := CartItem(newId, key.productId, quantity, key.size, key.color);
      SumConcat(items, [line], f);
      assert SumOf([line], f) == quantity;
    }
  }

  // ---- DELETE ----

  /** Removing drops exactly the lines with that id: every copy of a line
      with another id is still there, no line with the id is. */
  lemma {:induction false} RemoveDropsExactlyThatId(items: seq<CartItem>, id: ItemId, x: CartItem)
    ensures multiset(RemoveLine(items, id))[x] == if x.id == id then 0 else multiset(items)[x]
  {
    FilterMultiset(items, OtherId(id), x);
  }

  /** The lines that remain keep their relative order. */
  lemma {:induction false} RemoveKeepsOrder(a: seq<CartItem>, b: seq<CartItem>, id: ItemId)
    ensures RemoveLine(a + b, id) == RemoveLine(a, id) + RemoveLine(b, id)
  {
    FilterConcat(a, b, OtherId(id));
  }

  /** Removing the same id twice is removing it once. */
  lemma {:induction false} RemoveIdempotent(items: seq<CartItem>, id: ItemId)
    ensures RemoveLine(RemoveLine(items, id), id) == RemoveLine(items, id)
  {
    FilterIdempotent(items, OtherId(id));
  }

  /** Removing an id no line has changes nothing. */
  lemma {:induction false} RemoveAbsentId(items: seq<CartItem>, id: ItemId)
    requires FreshItemId(items, id)
    ensures RemoveLine(items, id) == items
  {
    FilterAllKept(items, OtherId(id));
  }

  /** Removing keeps keys and ids distinct. */
  lemma {:induction false} RemoveKeepsUnique(items: seq<CartItem>, id: ItemId)
    requires KeysUnique(items) && IdsUnique(items)
    ensures KeysUnique(RemoveLine(items, id)) && IdsUnique(RemoveLine(items, id))
  {
    FilterKeepsDistinct(items, OtherId(id), KeyOf);
    FilterKeepsDistinct(items, OtherId(id), (it: CartItem) => it.id);
  }

  lemma {:induction false} RemoveKeepsQuantitiesPositive(items: seq<CartItem>, id: ItemId)
    requires QuantitiesPositive(items)
    ensures QuantitiesPositive(RemoveLine(items, id))
  {
    var r := RemoveLine(items, id);
    forall i | 0 <= i < |r| ensures r[i].quantity >= 1 {
      var j :| 0 <= j < |items| && items[j] == r[i];
    }
  }

  // ---- PATCH ----

  /** Setting a quantity keeps keys and ids, so it keeps them distinct, and
      a quantity of at least 1 keeps every quantity positive. */
  lemma {:induction false} SetQuantityKeepsInvariants(items: seq<CartItem>, i: nat, quantity: int)
    requires i < |items|
    ensures forall j :: 0 <= j < |items| ==>
      KeyOf(SetQuantity(items, i, quantity)[j]) == KeyOf(items[j])
      && SetQuantity(items, i, quantity)[j].id == items[j].id
    ensures KeysUnique(items) ==> KeysUnique(SetQuantity(items, i, quantity))
    ensures IdsUnique(items) ==> IdsUnique(SetQuantity(items, i, quantity))
    ensures QuantitiesPositive(items) && quantity >= 1 ==> QuantitiesPositive(SetQuantity(items, i, quantity))
  {
  }

  /** The quantity is set, not added: the units under the line's key become
      `quantity` in place of the old quantity. */
  lemma {:induction false} SetQuantityOfKey(items: seq<CartItem>, i: nat, quantity: int)
    requires i < |items|
    ensures QuantityOfKey(SetQuantity(items, i, quantity), KeyOf(items[i]))
         == QuantityOfKey(items, KeyOf(items[i])) - items[i].quantity + quantity
  {
    SumUpdate(items, i, items[i].(quantity := quantity), QuantityUnder(KeyOf(items[i])));
  }

  // ---- the handlers ----

  /** GET: the caller's cart with each line's product resolved, or an empty
      item list when the caller has no cart. */
  method Get(store: CartStore, session: Option<Session>, catalog: map<ProductId, Product>)
    returns (r: Response<CartJson>)
    ensures session.None? <==> r == Error(401, "Unauthorized")
    ensures session.Some? && session.value.userId !in store.carts ==> r == Ok(200, EmptyCartJson)
    ensures session.Some? && session.value.userId in store.carts ==>
      r.Ok? && r.code == 200
      && |r.body.items| == |store.carts[session.value.userId].items|
      && forall i :: 0 <= i < |r.body.items| ==>
           r.body.items[i] == Populated(store.carts[session.value.userId].items[i], catalog)
  {
    if session.None? {
      return Error(401, "Unauthorized");
    }
    var u := session.value.userId;
    if u in store.carts {
      r := Ok(200, PopulatedCart(store.carts[u], catalog));
    } else {
      r := Ok(200, EmptyCartJson);
    }
  }

  /** POST: merge into the line with the same (productId, size, color) or
      append a new line, creating the caller's cart when it has none.
      Neither the quantity's sign nor the size and colour are checked. */
  method Post(store: CartStore, session: Option<Session>, productId: ProductId, quantity: int,
              size: string, color: string, newItemId: ItemId, now: int)
    returns (r: Response<CartJson>)
    requires store.Valid()
    requires session.Some? ==> FreshItemId(ItemsOf(store.carts, session.value.userId), newItemId)
    modifies store
    ensures store.Valid()
    ensures session.None? ==> r == Error(401, "Unauthorized") && store.carts == old(store.carts)
    ensures session.Some? ==>
      var u := session.value.userId;
      var cart := Cart(u, AddLine(ItemsOf(old(store.carts), u), LineKey(productId, size, color), quantity, newItemId), now);
      store.carts == old(store.carts)[u := cart] && r == Ok(200, UnpopulatedCart(cart))
  {
    if session.None? {
      return Error(401, "Unauthorized");
    }
    var u := session.value.userId;
    var cart := if u in store.carts then store.carts[u] else Cart(u, [], now);
    var key := LineKey(productId, size, color);
    var items := cart.items;
    var itemIndex := FindIndex(items, HasKey(key));
    if itemIndex > -1 {
      items := items[itemIndex := items[itemIndex].(quantity := items[itemIndex].quantity + quantity)];
    } else {
      items := items + [CartItem(newItemId, productId, quantity, size, color)];
    }
    AddKeepsKeysUnique(cart.items, key, quantity, newItemId);
    AddKeepsIdsUnique(cart.items, key, quantity, newItemId);
    cart := cart.(items := items, updatedAt := now);
    store.carts := store.carts[u := cart];
    r := Ok(200, UnpopulatedCart(cart));
  }

  /** DELETE: drop the lines with the given id. A missing id is refused
      before the cart is looked up; a missing cart is a 404. */
  method Delete(store: CartStore, session: Option<Session>, itemId: Option<ItemId>, now: int)
    returns (r: Response<CartJson>)
    requires store.Valid()
    modifies store
    ensures store.Valid()
    ensures session.None? ==> r == Error(401, "Unauthorized") && store.carts == old(store.carts)
    ensures session.Some? && !Present(itemId) ==>
      r == Error(400, "Item ID required") && store.carts == old(store.carts)
    ensures session.Some? && Present(itemId) && session.value.userId !in old(store.carts) ==>
      r == Error(404, "Cart not found") && store.carts == old(store.carts)
    ensures session.Some? && Present(itemId) && session.value.userId in old(store.carts) ==>
      var u := session.value.userId;
      var cart := old(store.carts)[u].(items := RemoveLine(old(store.carts)[u].items, itemId.value), updatedAt := now);
      store.carts == old(store.carts)[u := cart] && r == Ok(200, UnpopulatedCart(cart))
  {
    if session.None? {
      return Error(401, "Unauthorized");
    }
    if !Present(itemId) {
      return Error(400, "Item ID required");
    }
    var u := session.value.userId;
    if u !in store.carts {
      return Error(404, "Cart not found");
    }
    var cart := store.carts[u];
    RemoveKeepsUnique(cart.items, itemId.value);
    cart := cart.(items := RemoveLine(cart.items, itemId.value), updatedAt := now);
    store.carts := store.carts[u := cart];
    r := Ok(200, UnpopulatedCart(cart));
  }

  /** PATCH: set the quantity of the line with the given id and answer with
      the populated cart. */
  method Patch(store: CartStore, session: Option<Session>, itemId: Option<ItemId>, quantity: int,
               now: int, catalog: map<ProductId, Product>)
    returns (r: Response<CartJson>)
    requires store.Valid()
    modifies store
    ensures store.Valid()
    ensures session.None? ==> r == Error(401, "Unauthorized") && store.carts == old(store.carts)
    ensures session.Some? && (!Present(itemId) || quantity < 1) ==>
      r == Error(400, "Invalid data") && store.carts == old(store.carts)
    ensures session.Some? && Present(itemId) && quantity >= 1 && session.value.userId !in old(store.carts) ==>
      r == Error(404, "Cart not found") && store.carts == old(store.carts)
    ensures session.Some? && Present(itemId) && quantity >= 1 && session.value.userId in old(store.carts)
            && FreshItemId(old(store.carts)[session.value.userId].items, itemId.value) ==>
      r == Error(404, "Item not found in cart") && store.carts == old(store.carts)
    ensures session.Some? && Present(itemId) && quantity >= 1 && session.value.userId in old(store.carts)
            && !FreshItemId(old(store.carts)[session.value.userId].items, itemId.value) ==>
      var u := session.value.userId;
      var before := old(store.carts)[u];
      && u in store.carts
      && var cart := store.carts[u];
      && store.carts.Keys == old(store.carts).Keys
      && (forall v :: v in store.carts && v != u ==> store.carts[v] == old(store.carts)[v])
      && cart.userId == before.userId && cart.updatedAt == now
      && |cart.items| == |before.items|
      && (forall j :: 0 <= j < |before.items| ==>
            cart.items[j] == if before.items[j].id == itemId.value
                             then before.items[j].(quantity := quantity)
                             else before.items[j])
      && r == Ok(200, PopulatedCart(cart, catalog))
  {
    if session.None? {
      return Error(401, "Unauthorized");
    }
    if !Present(itemId) || quantity < 1 {
      return Error(400, "Invalid data");
    }
    var u := session.value.userId;
    if u !in store.carts {
      return Error(404, "Cart not found");
    }
    var cart := store.carts[u];
    var itemIndex := FindIndex(cart.items, HasId(itemId.value));
    if itemIndex > -1 {
      SetQuantityKeepsInvariants(cart.items, itemIndex, quantity);
      cart := cart.(items := SetQuantity(cart.items, itemIndex, quantity), updatedAt := now);
      store.carts := store.carts[u := cart];
      r := Ok(200, PopulatedCart(cart, catalog));
    } else {
      r := Error(404, "Item not found in cart");
    }
  }

  /** PUT, which `clearCart` on the client calls but which this route does
      not define (see README, Findings): empty the caller's cart. */
  method Put(store: CartStore, session: Option<Session>, now: int) returns (r: Response<CartJson>)
    requires store.Valid()
    modifies store
    ensures store.Valid()
    ensures session.None? ==> r == Error(401, "Unauthorized") && store.carts == old(store.carts)
    ensures session.Some? ==> r == Ok(200, EmptyCartJson) && ItemsOf(store.carts, session.value.userId) == []
    ensures session.Some? && session.value.userId !in old(store.carts) ==> store.carts == old(store.carts)
    ensures session.Some? && session.value.userId in old(store.carts) ==>
      var u := session.value.userId;
      store.carts == old(store.carts)[u := old(store.carts)[u].(items := [], updatedAt := now)]
  {
    if session.None? {
      return Error(401, "Unauthorized");
    }
    var u := session.value.userId;
    if u in store.carts {
      store.carts := store.carts[u := store.carts[u].(items := [], updatedAt := now)];
    }
    r := Ok(200, EmptyCartJson);
  }

  // ---- routing ----

  datatype HttpMethod = GET | POST | PUT | DELETE | PATCH

  /** The methods for which the route file exports a handler. */
  predicate Exports(m: HttpMethod) {
    m != PUT
  }

  /** The status the framework answers for a method the route file does not
      export. */
  const MethodNotAllowed: int := 405
}
