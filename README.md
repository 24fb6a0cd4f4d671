# Clothing store: carts, checkout and the client state around them

This project models the bookkeeping core of a small Next.js clothing
storefront in Dafny and proves properties of it.

**Carts.** Each user owns at most one cart, a list of lines
`(_id, productId, quantity, size, color)`. The `/api/cart` route answers four
methods:

- GET answers the caller's cart, or an empty list when there is none.
- POST adds to the line with the same `(productId, size, color)`, or appends a new line. It creates the cart on first use.
- DELETE drops the lines with a given `_id`.
- PATCH sets one line's quantity.

All four answer 401 without a session.

**Checkout.** `/api/orders` turns the caller's cart into an order. Each
line is frozen into a snapshot of the product's name, price and first image.
The order starts pending with payment pending, and the cart is emptied. The
same route lists the caller's orders, newest first.

**Admin orders.** `/api/admin/orders` lists every order with three figures:
total revenue, order count and today's revenue. It also sets an order's
status.

**Client state.** On the client side the model covers:

- the cart provider: the state every page reads, its item count and price total, and the actions that replace it with a server answer;
- the home-page carousel;
- the product page's size, colour and quantity pickers;
- the new-product form's editable lists and submit-time filtering;
- the sort menu and the search box, which edit the URL's query parameters;
- the local list updates on the two admin pages.

**How the model is built.** The cart and order collections are objects
(`Collections.CartStore`, `Collections.OrderStore`) whose fields the route
handlers change. The route handlers are methods. Stateful components are
classes whose fields are the components' state.

Inputs that come from outside are parameters:

- the session;
- the product catalogue that `populate` reads, a map from each product's `_id` to the product (`Models.CatalogKeyed`);
- the clock and the start of today;
- the `_id`s the database generates;
- what each client request settles to.

Money is an integer number of cents. `Seqs` holds the JavaScript array
operations the code is written with (`findIndex`, `filter`, sums with
`reduce`). `UrlParams` holds `URLSearchParams` `get`/`set`/`delete` as the
URL Standard defines them.

One discrepancy was found: the client's `clearCart` never succeeds. It is
listed under Findings, and the model uses the corrected behaviour.

Another consequence is proved (`CartContext.TotalOfUnpopulatedCart`):

- POST, DELETE and the client's cart state after `addToCart` hold the cart without `populate`, so every line counts 0 toward `getCartTotal` until the next GET.
- This is how the code behaves, and the cart page may rely on a later fetch, so it is stated rather than claimed as a bug.

## Model

| member | source | states |
|---|---|---|
| CartRoute.Get | app/api/cart/route.js:7-17 | 401 exactly when there is no session; an empty item list when the caller has no cart; otherwise one populated line per stored line, in order |
| CartRoute.Post | app/api/cart/route.js:24-59 | 401 and no change without a session; otherwise the caller's cart, created when missing, becomes AddLine of its lines timestamped now, no other cart changes, the per-key and per-id uniqueness invariant is kept, and the answer is the unpopulated cart |
| CartRoute.AddLine | app/api/cart/route.js:41-53 | the lines grow by at most one, and afterwards some line carries the key that was added |
| CartRoute.AddMergesIntoExistingLine | app/api/cart/route.js:41-50 | a key already present: the number of lines is unchanged, that line's quantity grows by the amount sent, every other line is unchanged |
| CartRoute.AddAppendsNewLine | app/api/cart/route.js:48-53 | a new key: the lines are the old lines followed by exactly one new line with the key, the quantity and the fresh id |
| CartRoute.AddKeepsKeysUnique | app/api/cart/route.js:41-53 | at most one line per (productId, size, color) before implies the same after |
| CartRoute.AddKeepsIdsUnique | app/api/cart/route.js:53 | with a fresh generated `_id`, line ids stay distinct |
| CartRoute.AddKeepsQuantitiesPositive | app/api/cart/route.js:31-53 | positive quantities stay positive only when the amount added is at least 1, which the handler does not check |
| CartRoute.AddQuantityOfKey | app/api/cart/route.js:41-53 | seen as a bag of keys, adding puts exactly the amount sent under the key and changes no other key |
| CartRoute.AddTotalQuantity | app/api/cart/route.js:41-53 | the cart's unit count grows by exactly the amount sent |
| CartRoute.Delete | app/api/cart/route.js:66-91 | 401, then 400 "Item ID required" for a missing or empty id, then 404 "Cart not found", none changing the store; otherwise the caller's lines become RemoveLine of them, timestamped now |
| CartRoute.RemoveLine | app/api/cart/route.js:87 | no remaining line has the id, and no line is added |
| CartRoute.RemoveDropsExactlyThatId | app/api/cart/route.js:87 | every line with the id is gone and every other line keeps its multiplicity |
| CartRoute.RemoveKeepsOrder | app/api/cart/route.js:87 | removal distributes over concatenation, so the remaining lines keep their relative order |
| CartRoute.RemoveIdempotent | app/api/cart/route.js:87 | removing the same id twice equals removing it once |
| CartRoute.RemoveAbsentId | app/api/cart/route.js:87 | an id no line has leaves the lines unchanged |
| CartRoute.RemoveKeepsUnique | app/api/cart/route.js:87 | distinct keys and distinct ids stay distinct |
| CartRoute.RemoveKeepsQuantitiesPositive | app/api/cart/route.js:87 | positive quantities stay positive |
| CartRoute.Patch | app/api/cart/route.js:98-130 | 401; 400 "Invalid data" for a missing or empty id or a quantity below 1; 404 "Cart not found"; 404 "Item not found in cart"; none of these change the store; otherwise only the line with that id gets exactly the new quantity, every other line and cart is unchanged, and the answer is the populated cart |
| CartRoute.SetQuantity | app/api/cart/route.js:118-121 | same number of lines, the chosen line has exactly the new quantity, and every line keeps its id and its key |
| CartRoute.SetQuantityKeepsInvariants | app/api/cart/route.js:118-121 | setting a quantity keeps every key and id, hence their uniqueness, and keeps quantities positive for a quantity of at least 1 |
| CartRoute.SetQuantityOfKey | app/api/cart/route.js:121 | the quantity is replaced, not added: the units under the line's key change by the new minus the old quantity |
| CartRoute.Put | app/context/CartContext.jsx:82-85 | the PUT handler the client expects: 401 without a session, otherwise the caller's stored cart ends with no lines and the answer is an empty item list |
| Collections.NewestFirst | app/api/orders/route.js:77 | the result is sorted by createdAt descending and is a permutation of the input |
| OrdersRoute.SnapshotItems | app/api/orders/route.js:29-37 | one order line per cart line, same length and order, each the snapshot of that line and its product |
| OrdersRoute.Snapshot | app/api/orders/route.js:30-37 | the order line built from one cart line and its populated product; its properties are stated by SnapshotCopiesLineAndProduct |
| OrdersRoute.SnapshotCopiesLineAndProduct | app/api/orders/route.js:29-37 | with the catalogue keyed by product id, a snapshot copies productId, quantity, size and colour from the line and name and price from the product; its image is the product's first image, or "" when there is none |
| OrdersRoute.PaymentAlwaysPending | app/api/orders/route.js:52 | the payment status is pending whatever the payment method |
| OrdersRoute.InitialPaymentStatus | app/api/orders/route.js:52 | the two-armed choice on the payment method; PaymentAlwaysPending proves both arms give pending |
| OrdersRoute.NewOrder | app/api/orders/route.js:40-54 | status pending, payment pending, totalAmount equal to the total the client sent (not recomputed), the snapshot lines, the caller and the creation time |
| OrdersRoute.PlaceOrder | app/api/orders/route.js:9-62 | 401, then 400 "Cart is empty" for a missing or empty cart, then 500 when a line's product no longer exists, none changing either store; otherwise the order is appended, the caller's cart is emptied, every order line names the product of its cart line, nothing else changes, and the order is answered with 201 |
| OrdersRoute.CheckoutLeavesCartEmpty | app/api/orders/route.js:59-60 | checkout followed by a cart GET with the same session: an order is created exactly for a caller whose cart has lines that all resolve, and then the GET answers an empty item list; a failed checkout changes neither store |
| OrdersRoute.OrdersOfIsTheCallersOrders | app/api/orders/route.js:77 | the listing is sorted newest first and holds every order of the caller as often as it is stored and no other order |
| OrdersRoute.OrdersOf | app/api/orders/route.js:77 | the caller's orders sorted newest first |
| OrdersRoute.ListOrders | app/api/orders/route.js:69-79 | 401 exactly when there is no session; otherwise exactly OrdersOf the stored orders and the caller, so only theirs and all of them, each as often as stored, newest first |
| AdminOrdersRoute.StatsIgnoreOrder | app/api/admin/orders/route.js:16-28 | the three figures do not depend on the order of the listing, so sorting before summing changes nothing |
| AdminOrdersRoute.TodayIsPartOfTotal | app/api/admin/orders/route.js:21-28 | today's revenue plus the revenue of the earlier orders is the total revenue |
| AdminOrdersRoute.TodayAtMostTotal | app/api/admin/orders/route.js:21-28 | with non-negative amounts, 0 <= today's revenue <= total revenue |
| AdminOrdersRoute.StatsExample | app/api/admin/orders/route.js:21-28 | two orders of 50.00 today and one of 30.00 yesterday give 130.00, 3 and 100.00 |
| AdminOrdersRoute.Revenue | app/api/admin/orders/route.js:21 | the sum of totalAmount, 0 for no orders; TodayIsPartOfTotal and StatsIgnoreOrder relate it to the other figures |
| AdminOrdersRoute.RevenueSince | app/api/admin/orders/route.js:24-28 | the sum of totalAmount over the orders created at or after the start, 0 for no orders |
| AdminOrdersRoute.ComputeStats | app/api/admin/orders/route.js:21-28 | the three figures, with the order count equal to the number of orders |
| AdminOrdersRoute.Get | app/api/admin/orders/route.js:8-37 | 401 exactly when the session is missing or not an admin's; otherwise every order newest first, total revenue the sum of totalAmount, the order count, and today's revenue the sum over the orders created at or after the start of today |
| AdminOrdersRoute.Patch | app/api/admin/orders/route.js:44-67 | 401; 400 for a missing id or status; 404 "Order not found" for an unknown id; none change the store; otherwise only that order's status is replaced and the updated order is answered |
| CartContext.CountIsUnitsInCart | app/context/CartContext.jsx:91-93 | the count of a cart as the server sends it, populated or not, is its number of units, and 0 for an empty cart |
| CartContext.CartCount | app/context/CartContext.jsx:91-93 | `getCartCount`, 0 for a cart with no items; CountIsUnitsInCart states what it counts |
| CartContext.CountAfterAdd | app/context/CartContext.jsx:44-53 | after a successful add the count is the old number of units plus the quantity sent |
| CartContext.TotalOfPopulatedCart | app/context/CartContext.jsx:95-101 | with every product populated, the total is the sum of price times quantity of the lines checkout would freeze |
| CartContext.TotalOfUnpopulatedCart | app/context/CartContext.jsx:95-101 | a cart without populated products totals 0: a missing price counts as 0 |
| CartContext.DanglingLinesCountZero | app/context/CartContext.jsx:98 | a line whose product was deleted contributes nothing to the total |
| CartContext.CartTotal | app/context/CartContext.jsx:95-101 | `getCartTotal`, 0 for a cart with no items; TotalOfPopulatedCart and TotalOfUnpopulatedCart state what it sums |
| CartContext.AfterClear | app/context/CartContext.jsx:82-88 | the local cart is emptied when the PUT is fulfilled and unchanged when it is rejected |
| CartContext.PutReplyAsWritten | app/context/CartContext.jsx:84 | the route exports no PUT, so the request settles to what a 405 settles to, a rejection |
| CartContext.ClearCartAsWrittenKeepsLines | app/context/CartContext.jsx:82-88 | as written, a one-line cart keeps its line and its count after clearCart |
| CartContext.CartProvider.constructor | app/context/CartContext.jsx:11-13 | status loading, no items, loading flag set |
| CartContext.CartProvider.FetchCart | app/context/CartContext.jsx:25-35 | the cart becomes the GET answer, or stays as it was when the request fails; loading ends either way |
| CartContext.CartProvider.OnStatusChange | app/context/CartContext.jsx:16-23 | authenticated fetches the cart; unauthenticated resets it to no items and stops loading; loading changes nothing |
| CartContext.CartProvider.AddToCart | app/context/CartContext.jsx:37-58 | not authenticated: no request, no result, no change; otherwise the POST body is the four arguments, the result is true with the answer as the new cart, or false with the cart kept |
| CartContext.CartProvider.RemoveFromCart | app/context/CartContext.jsx:60-68 | a fulfilled DELETE refetches the cart; a rejected one changes nothing |
| CartContext.CartProvider.UpdateQuantity | app/context/CartContext.jsx:70-80 | the PATCH answer becomes the cart; a rejected PATCH keeps it |
| CartContext.CartProvider.ClearCart | app/context/CartContext.jsx:82-89 | the new cart is AfterClear of the old one and the reply |
| CartContext.CartProvider.ClearCartAsWritten | app/context/CartContext.jsx:82-89 | against the route as written, neither the local cart nor any stored cart changes |
| CartContext.CartProvider.ClearCartCorrected | app/context/CartContext.jsx:82-89 | against a route with a PUT handler, the local cart and the caller's stored cart both end with no items |
| Hero.SlideImage | app/components/Hero.jsx:81 | the product's first image, or '/images/hero.png' when it has none |
| Hero.NextIndex | app/components/Hero.jsx:35 | stays in [0, n) and is (i + 1) mod n: the last slide wraps to the first |
| Hero.PrevIndex | app/components/Hero.jsx:40 | stays in [0, n) and is (i + n - 1) mod n: the first slide wraps to the last |
| Hero.PrevUndoesNext | app/components/Hero.jsx:33-41 | going back undoes going forward and the other way round |
| Hero.AdvanceWithoutWrap | app/components/Hero.jsx:35 | k forward steps that do not pass the last slide advance the index by k |
| Hero.AdvanceCompose | app/components/Hero.jsx:35 | a steps then b steps equal a + b steps |
| Hero.FullTurn | app/components/Hero.jsx:33-36 | stepping past the last slide lands on the first, and n forward steps come back to the starting slide |
| Hero.Carousel.constructor | app/components/Hero.jsx:9-11 | no products, index 0, loading |
| Hero.Carousel.Load | app/components/Hero.jsx:13-31 | the products of a successful envelope or a bare array, none otherwise; loading ends and the index invariant holds |
| Hero.Carousel.NextSlide | app/components/Hero.jsx:33-36 | no-op without products; otherwise the index becomes NextIndex of the old one; the index stays in range |
| Hero.Carousel.PrevSlide | app/components/Hero.jsx:38-41 | no-op without products; otherwise the index becomes PrevIndex of the old one; the index stays in range |
| AddToCartSection.DefaultColor | app/components/AddToCartSection.jsx:10 | the product's first colour, or '' when it has none |
| AddToCartSection.Decremented | app/components/AddToCartSection.jsx:95 | never below 1; one less for a quantity above 1 |
| AddToCartSection.DecrementUndoesIncrement | app/components/AddToCartSection.jsx:95-102 | minus after plus gives back any quantity of at least 1 |
| AddToCartSection.PressesStayPositive | app/components/AddToCartSection.jsx:94-106 | any sequence of stepper presses from a quantity of at least 1 keeps it at least 1, and each press lowers it by at most one |
| AddToCartSection.Press | app/components/AddToCartSection.jsx:94-102 | the quantity after a run of stepper presses; PressesStayPositive bounds it |
| AddToCartSection.SizeMissing | app/components/AddToCartSection.jsx:16 | the product offers sizes and none is picked: the condition HandleAddToCart refuses on |
| AddToCartSection.AddToCartForm.constructor | app/components/AddToCartSection.jsx:9-13 | no size, the default colour, quantity 1 |
| AddToCartSection.AddToCartForm.SelectSize | app/components/AddToCartSection.jsx:46 | only the size changes |
| AddToCartSection.AddToCartForm.SelectColor | app/components/AddToCartSection.jsx:68 | only the colour changes |
| AddToCartSection.AddToCartForm.Decrement | app/components/AddToCartSection.jsx:95 | the quantity becomes Decremented of the old one |
| AddToCartSection.AddToCartForm.Increment | app/components/AddToCartSection.jsx:102 | the quantity grows by exactly 1 |
| AddToCartSection.AddToCartForm.HandleAddToCart | app/components/AddToCartSection.jsx:15-29 | pressed while enabled: the provider is called exactly when the product offers no sizes or one is picked; without the call nothing is sent and nothing changes; with it, an authenticated provider sends exactly the product id and the current quantity, size and colour, and success is set only on a true result |
| NewProductPage.TrimStart | app/admin/products/new/page.js:54-56 | a suffix of the input, everything dropped is white space, and it does not start with white space |
| NewProductPage.TrimEnd | app/admin/products/new/page.js:54-56 | a prefix of the input, everything dropped is white space, and it does not end with white space |
| NewProductPage.BlankIffAllWhitespace | app/admin/products/new/page.js:54-56 | an entry trims to '' exactly when all of its characters are white space |
| NewProductPage.Trim | app/admin/products/new/page.js:54-56 | `String.prototype.trim`: no longer than the input and neither starting nor ending with white space |
| NewProductPage.ReplaceAt | app/admin/products/new/page.js:34-40 | same length, the new value at the index, every other entry unchanged |
| NewProductPage.AppendBlank | app/admin/products/new/page.js:42 | the old entries followed by one '' |
| NewProductPage.RemoveAt | app/admin/products/new/page.js:43 | exactly the entry at the index is gone, the others keep their order; an index past the end changes nothing |
| NewProductPage.RunImages | app/admin/products/new/page.js:202-210 | the image list after a run of presses on the controls on screen, at most one entry longer per press |
| NewProductPage.ImagesNeverEmpty | app/admin/products/new/page.js:202-210 | with remove offered only while two or more images are listed, no sequence of presses empties a non-empty image list |
| NewProductPage.StartsWithOneImage | app/admin/products/new/page.js:22 | from the initial single empty image field, the image list is never empty |
| NewProductPage.SubmittedDropsExactlyBlanks | app/admin/products/new/page.js:54-56 | the submitted list holds every non-blank entry as often as the form does and no blank entry |
| NewProductPage.SubmittedKeepsOrder | app/admin/products/new/page.js:54-56 | submission distributes over concatenation, so entries keep their order |
| NewProductPage.Submitted | app/admin/products/new/page.js:54-56 | the list with blank entries removed, no longer than the input; SubmittedDropsExactlyBlanks and SubmittedKeepsOrder state which entries stay |
| NewProductPage.HandleInputChange | app/admin/products/new/page.js:26-31 | the named field takes the checked flag for a checkbox and the value otherwise; every other field is unchanged |
| NewProductPage.ControlValue | app/admin/products/new/page.js:30 | a checkbox stores its checked flag and any other control its value |
| NewProductPage.EditingKeepsFields | app/admin/products/new/page.js:26-31 | a run of change events from controls that name fields of the record adds no field; a field no event named keeps its value; the last event's field holds what its control stored |
| NewProductPage.ApplyEdits | app/admin/products/new/page.js:26-31 | the record after a run of change events in firing order; EditingKeepsFields states its properties |
| UrlParams.GetIsFirstNamed | app/components/SortDropdown.jsx:19 | `get` answers the first pair with the name, or nothing |
| UrlParams.Get | app/components/SortDropdown.jsx:19 | `get` answers a value exactly when some pair carries the name |
| UrlParams.Set | app/components/SortDropdown.jsx:27 | after `set` the list holds the pair of the name and the value |
| UrlParams.Delete | app/components/SortDropdown.jsx:25 | after `delete` no pair carries the name, and no pair is added |
| UrlParams.SetNamedPairs | app/components/SortDropdown.jsx:27 | after `set` exactly one pair carries the name, and the pairs of every other name are unchanged and in order |
| UrlParams.FilterOthers | app/components/SortDropdown.jsx:25 | `delete` leaves the pairs of every other name unchanged and in order |
| UrlParams.GetAfterSet | app/components/SearchBar.jsx:19 | after `set`, `get` of the name answers the value, and `get` of any other name answers as before |
| UrlParams.GetAfterDelete | app/components/SearchBar.jsx:21 | after `delete`, `get` of the name answers nothing, and `get` of any other name answers as before |
| UrlParams.SearchParams.SetParam | app/components/SortDropdown.jsx:27 | the pairs become Set of the old pairs |
| UrlParams.SearchParams.DeleteParam | app/components/SortDropdown.jsx:25 | the pairs become Delete of the old pairs |
| SortDropdown.CurrentSort | app/components/SortDropdown.jsx:19 | the `sort` parameter when present and not empty, 'newest' otherwise |
| SortDropdown.CurrentLabel | app/components/SortDropdown.jsx:20 | the label of the option whose value is the current sort, or 'Newest'; never empty |
| SortDropdown.SortedParams | app/components/SortDropdown.jsx:23-28 | for 'newest' no `sort` parameter is left; otherwise the list holds `sort` with the chosen value |
| SortDropdown.FindsOption | app/components/SortDropdown.jsx:20 | looking up an option's value finds that option |
| SortDropdown.ChoiceIsShown | app/components/SortDropdown.jsx:19-28 | after choosing an option, it is the current sort and its label is shown |
| SortDropdown.UnknownSortShowsNewest | app/components/SortDropdown.jsx:20 | a sort value that names no option shows 'Newest' |
| SortDropdown.ChoiceKeepsOtherParams | app/components/SortDropdown.jsx:23-28 | choosing a sort leaves every other query parameter unchanged |
| SortDropdown.Dropdown.Toggle | app/components/SortDropdown.jsx:47 | the menu flips open or closed and the URL is unchanged |
| SortDropdown.Dropdown.HandleSort | app/components/SortDropdown.jsx:22-31 | the pushed parameters have `sort` deleted for 'newest' and set to the value otherwise, and the menu is closed |
| SearchBar.InitialQuery | app/components/SearchBar.jsx:10 | the `q` parameter, or '' |
| SearchBar.SearchedParams | app/components/SearchBar.jsx:17-22 | for '' no `q` parameter is left; otherwise the list holds `q` with the searched value |
| SearchBar.SearchRoundTrip | app/components/SearchBar.jsx:15-22 | searching for a value makes it the query a reload starts with; an empty search removes `q`; every other parameter is unchanged |
| SearchBar.SearchBox.constructor | app/components/SearchBar.jsx:10-11 | the box starts with InitialQuery of the URL and not pending |
| SearchBar.SearchBox.UpdateSearch | app/components/SearchBar.jsx:15-26 | the pushed parameters have `q` set to a non-empty value or deleted for '', and the box is pending |
| SearchBar.SearchBox.HandleChange | app/components/SearchBar.jsx:28-30 | the box shows the typed text and the URL is not yet changed |
| SearchBar.SearchBox.HandleEnter | app/components/SearchBar.jsx:39-45 | Enter searches for what the box holds |
| SearchBar.SearchBox.ClearSearch | app/components/SearchBar.jsx:47-50 | the box is emptied and `q` is removed |
| AdminOrdersPage.LocalUpdate | app/admin/orders/page.js:38-40 | same length; the orders with the id get the new status, every other order is unchanged |
| AdminOrdersPage.AfterStatusUpdate | app/admin/orders/page.js:33-46 | a rejected PATCH leaves the list unchanged; a fulfilled one applies LocalUpdate |
| AdminOrdersPage.LocalUpdateMatchesServer | app/admin/orders/page.js:38-40 | with distinct ids, the local update is the same single replacement the admin PATCH handler makes |
| AdminOrdersPage.LocalUpdateAbsentId | app/admin/orders/page.js:38-40 | an id not in the list changes nothing |
| AdminOrdersPage.OrderLabel | app/admin/orders/page.js:113 | a suffix of the id, eight characters long, or the whole id when it is shorter |
| AdminOrdersPage.ObjectIdLabel | app/admin/orders/page.js:113 | a 24-character ObjectId shows as its characters 16 to 23 |
| AdminOrdersPage.OverflowBadge | app/admin/orders/page.js:196-198 | shown exactly when there are more than 3 items, with items.length - 3, at least 1 |
| AdminProductsPage.DeleteDropsExactlyThatId | app/admin/products/page.js:28-34 | after a confirmed, fulfilled delete, exactly the products with the id are gone, the others keep their multiplicity and their order |
| AdminProductsPage.AfterDelete | app/admin/products/page.js:28-34 | the list never grows, and it is unchanged unless the delete was confirmed and fulfilled |
| AdminProductsPage.DeleteCountsOneLess | app/admin/products/page.js:67 | with distinct ids, deleting a listed product lowers the header count by exactly one |
| AdminProductsPage.ToggleRequest | app/admin/products/page.js:45-48 | the request names the product and sends the negation of its featured flag |
| AdminProductsPage.ReplaceProduct | app/admin/products/page.js:49 | same length; entries with the id become the server's answer, every other entry is unchanged |
| AdminProductsPage.AfterToggle | app/admin/products/page.js:43-53 | a rejected PATCH leaves the list unchanged; a fulfilled one applies ReplaceProduct |
| AdminProductsPage.ToggleReplacesOneEntry | app/admin/products/page.js:49 | with distinct ids, exactly the toggled product's entry is replaced |
| AdminProductsPage.IsLowStock | app/admin/products/page.js:112 | the low-stock flag, stock below 10; ToggleKeepsLowStockFlags uses it |
| AdminProductsPage.CatalogCount | app/admin/products/page.js:67 | the header count, 0 exactly for an empty list |
| AdminProductsPage.ToggleKeepsLowStockFlags | app/admin/products/page.js:112 | when the answer flips only the flag, the toggled entry's flag changes and no product's low-stock flag (stock < 10) changes |

## Left out

- Framework and I/O are parameters or not modelled: NextAuth session retrieval, the database connection, `router.push`, `alert` and `confirm`. `populate` is a lookup in the catalogue map. A stored document is the value in the store object's field.
- Database failures are not modelled. Every handler's catch-all answers 500 for them. The one 500 that is modelled is checkout dereferencing a deleted product.
- Concurrency is not modelled. That includes lost updates between concurrent cart writes and the save-order-then-clear-cart sequence of checkout, which is one step here.
- Timers are not modelled: carousel autoplay, the search debounce and pending reset, and the success-banner timeout.
- Floating point and parsing are not modelled. Money is integer cents. `parseFloat` and `parseInt` of the new-product price and stock, and the product POST itself, are not part of this model.
- Serialising query parameters with `toString` is not modelled. The parameters are kept as a list of pairs.
- The admin listing's `populate("userId", "name email")` is not modelled. Orders carry the user id.
- CartRoute.Post: does not model Mongoose's schema validation on save. A missing field, an empty size or colour string, or a productId that is not an ObjectId would make the save fail and the handler answer 500. Here the line is stored.
- CartRoute.Patch: the quantity is an integer. A missing or non-numeric quantity passes the `quantity < 1` test in JavaScript and is not modelled.
- OrdersRoute.PlaceOrder: a missing `shippingDetails` and failed order validation would be answered with 500 and are not modelled.
- AdminOrdersRoute.Patch: the status is one of the four enumerated values. `findByIdAndUpdate` runs no validators, so the route would also store any other string. An id that is not an ObjectId would be a 500.
- AdminOrdersRoute.Get: today's revenue compares integer timestamps with a start-of-day parameter. The wall clock and `setHours` are not modelled.
- Collections.NewestFirst: the database's order among orders with equal `createdAt` is unspecified. The model fixes one such order, and the lemmas do not depend on it.
- NewProductPage.ReplaceAt: requires an index inside the list, which every caller passes. JavaScript would extend the array for a larger index.
- NewProductPage.ImagesNeverEmpty: the sizes and colours lists offer remove for every entry, so they can become empty. Only the image list has the guard.
- SearchBar.SearchBox.HandleChange: the debounced search that typing schedules is a timer and is not modelled. Enter and clear call the search directly.
- Hero.Carousel.Load: modelled as the one-time mount effect on the initial empty list. Rendering, including which slide is visible, is not modelled.
- The rendering-only parts of every component are not modelled: status icons, class names and layout.

## Findings

| source | as written | input that shows it | evidently intended | confidence | as-written member | corrected member |
|---|---|---|---|---|---|---|
| app/context/CartContext.jsx:84 | `clearCart` sends `PUT /api/cart`, but app/api/cart/route.js exports only GET, POST, DELETE and PATCH. The framework answers 405, the request is rejected, and the local cart keeps its lines. app/(shop)/checkout/shipping/page.js:72 calls `clearCart` after every successful checkout. | a cart with one line after a 201 checkout | the local cart ends empty after checkout, and the stored cart too | not executed | CartContext.ClearCartAsWrittenKeepsLines | CartContext.CartProvider.ClearCartCorrected |
