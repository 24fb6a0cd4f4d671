/** Records of the store's document collections (products, carts, orders,
    users), the session supplied by the identity provider, and the JSON
    shapes the API routes send back. Money is an integer number of cents and
    every timestamp an integer. */
module Models {

  type UserId = string
  type ProductId = string
  type ItemId = string
  type OrderId = string

  datatype Option<+T> = None | Some(value: T)

  /** A JavaScript value in a truthy position (`!itemId`) that is a string:
      absent and the empty string are both falsy. */
  predicate Present(s: Option<string>) {
    s.Some? && s.value != ""
  }

  // ---- users and sessions ----

  datatype Role = Customer | Admin

  /** `session.user.id` and `session.user.role` (the role defaults to customer). */
  datatype Session = Session(userId: UserId, role: Role)

  predicate IsAdmin(session: Option<Session>) {
    session.Some? && session.value.role == Admin
  }

  // ---- products ----

  datatype Category = Men | Women

  datatype Product = Product(
    id: ProductId,
    name: string,
    description: string,
    price: int,
    category: Category,
    subcategory: string,
    sizes: seq<string>,
    colors: seq<string>,
    images: seq<string>,
    stock: int,
    featured: bool,
    createdAt: int)

  /** The products collection as `populate` sees it: each product is filed
      under its own `_id`. */
  predicate CatalogKeyed(catalog: map<ProductId, Product>) {
    forall k :: k in catalog ==> catalog[k].id == k
  }

  /** `images[0] || fallback`: the primary image when there is one that is not
      the empty string, the fallback otherwise. */
  function PrimaryImage(images: seq<string>, fallback: string): (r: string)
    ensures |images| > 0 && images[0] != "" ==> r == images[0]
    ensures (|images| == 0 || images[0] == "") ==> r == fallback
  {
    if |images| > 0 && images[0] != "" then images[0] else fallback
  }

  // ---- carts ----

  datatype CartItem = CartItem(
    id: ItemId,
    productId: ProductId,
    quantity: int,
    size: string,
    color: string)

  /** The key on which adding to a cart merges lines. */
  datatype LineKey = LineKey(productId: ProductId, size: string, color: string)

  function KeyOf(item: CartItem): (key: LineKey) {
    LineKey(item.productId, item.size, item.color)
  }

  datatype Cart = Cart(userId: UserId, items: seq<CartItem>, updatedAt: int)

  // ---- orders ----

  datatype OrderStatus = Pending | Processing | Shipped | Delivered

  datatype PaymentStatus = PaymentPending | Paid

  /** A frozen copy of a product's name, price and image at checkout time. */
  datatype OrderItem = OrderItem(
    productId: ProductId,
    name: string,
    price: int,
    quantity: int,
    size: string,
    color: string,
    image: string)

  datatype ShippingAddress = ShippingAddress(
    street: string,
    city: string,
    state: string,
    zipCode: string,
    country: string)

  datatype Order = Order(
    id: OrderId,
    userId: UserId,
    items: seq<OrderItem>,
    totalAmount: int,
    shippingAddress: ShippingAddress,
    status: OrderStatus,
    paymentStatus: PaymentStatus,
    createdAt: int)

  // ---- what the routes answer ----

  /** A JSON reply: a success status with a body, or an error status with
      the `error` message of the body. */
  datatype Response<+T> = Ok(code: int, body: T) | Error(code: int, message: string)

  /** How a cart line's `productId` appears in a JSON body: the bare id when
      the cart was not populated, the product document when it was, and
      `null` when it was populated but the product no longer exists. */
  datatype ProductRef = ById(id: ProductId) | Resolved(product: Product) | Dangling

  datatype ItemJson = ItemJson(
    id: ItemId,
    product: ProductRef,
    quantity: int,
    size: string,
    color: string)

  /** The part of a cart body the client reads: its `items`. */
  datatype CartJson = CartJson(items: seq<ItemJson>)

  /** A line as it is serialised without `populate`. */
  function Unpopulated(item: CartItem): (r: ItemJson)
    ensures r.product == ById(item.productId)
    ensures r.id == item.id && r.quantity == item.quantity
    ensures r.size == item.size && r.color == item.color
  {
    ItemJson(item.id, ById(item.productId), item.quantity, item.size, item.color)
  }

  /** A line after `populate("items.productId")` against the catalog. */
  function Populated(item: CartItem, catalog: map<ProductId, Product>): (r: ItemJson)
    ensures r.id == item.id && r.quantity == item.quantity
    ensures r.size == item.size && r.color == item.color
    ensures item.productId in catalog ==> r.product == Resolved(catalog[item.productId])
    ensures item.productId !in catalog ==> r.product == Dangling
  {
    ItemJson(item.id,
             if item.productId in catalog then Resolved(catalog[item.productId]) else Dangling,
             item.quantity, item.size, item.color)
  }

  function UnpopulatedCart(cart: Cart): (r: CartJson)
    ensures |r.items| == |cart.items|
    ensures forall i :: 0 <= i < |r.items| ==> r.items[i] == Unpopulated(cart.items[i])
  {
    CartJson(seq(|cart.items|, i requires 0 <= i < |cart.items| => Unpopulated(cart.items[i])))
  }

  function PopulatedCart(cart: Cart, catalog: map<ProductId, Product>): (r: CartJson)
    ensures |r.items| == |cart.items|
    ensures forall i :: 0 <= i < |r.items| ==> r.items[i] == Populated(cart.items[i], catalog)
  {
    CartJson(seq(|cart.items|, i requires 0 <= i < |cart.items| => Populated(cart.items[i], catalog)))
  }

  const EmptyCartJson: CartJson := CartJson([])

  // ---- what the client sees ----

  /** What an axios request settles to: the response data for a 2xx answer,
      a rejection for any other status. */
  datatype Reply<+T> = Fulfilled(data: T) | Rejected

  function ReplyOf<T>(r: Response<T>): (x: Reply<T>)
    ensures x.Fulfilled? <==> r.Ok? && 200 <= r.code < 300
    ensures x.Fulfilled? ==> x.data == r.body
  {
    if r.Ok? && 200 <= r.code < 300 then Fulfilled(r.body) else Rejected
  }
}

