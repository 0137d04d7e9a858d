# Marketplace rules, modelled in Dafny

This project models the in-memory rules of a small Express/Mongoose
marketplace and its React client, and proves what those rules promise.

Server side:
- order creation, which snapshots the catalogue into line items;
- the order and notification schemas, with their status and type enums and defaults;
- seller notifications;
- the cart and wishlist list updates;
- product uploads, updates and deletion with their ownership rule;
- the profile and role field merges;
- the admin dashboard;
- the token → user → role guard chain;
- the request validators;
- the rate limiter's configuration.

Client side:
- the request helper (URL joining, headers, turning a response into a value or an error);
- the storefront's search, category and wishlist toggle;
- the cart page's total, removal and checkout;
- the seller's order page.

Each database collection is a sequence of records, or a map from user id
to that user's document. A handler whose source updates documents in place
is a method of a class that holds the collection. The pure rules are
functions, and lemmas state what each one promises. Calls to code outside
the model are parameters of the member that makes them:
- `jwt.verify`, an oracle from token to optional id;
- `JSON.parse` and `JSON.stringify`;
- `fetch`, as its outcome;
- the remote image upload, as its result per file;
- `Date.now()` and `new Date()`, as `Time` inputs;
- the results of requests the pages make.

Modules, one per file:
- `Common`: ids, times, JavaScript values and truthiness, handler responses.
- `Strings`: prefix and substring tests, decimal printing, `split`, ASCII lowercasing.
- `Lists`: `filter`, `map`, `findIndex`, `Set` de-duplication, newest-first sort, removal at a position.
- `ProductModel`, `OrderModel`, `NotificationModel`: the schemas.
- `OrderController`, `NotificationController`, `CartController`, `WishlistController`, `ProductController`, `UserController`, `AdminController`: the handlers.
- `AuthMiddleware`, `Validators`, `RateLimiter`: middleware and utilities.
- `ClientApi`, `HomePage`, `CartPage`, `SellerOrdersPage`: the client.

Where the code and its documentation disagree, the model follows the code:
- The product schema has no `seller` field. `Product.seller` is the stored record's field and may be absent. A document loaded through the schema has no `seller` accessor, so `product.seller` is undefined on every product. A seller's update or delete therefore always throws in `toString` and is answered 500. The 403 answer and the owner's pass are never reached.
- The order schema has no `paymentStatus` field, and Mongoose's default strict mode strips paths the schema lacks. So `updateOrderStatus` stores nothing the request sends. It only stamps the order's update time and answers with the order.
- The product routes mount PUT and DELETE `/:id` behind `protect, admin` (`routes/productRoutes.js:36-39`). So no seller reaches `updateProduct` or `deleteProduct` through the routes, and the seller's 500 above arises only when the handler is called directly.
- The order routes pass `getSellerOrders`, `confirmOrderItem`, `shipOrderItem` and `getOrderById` to `router.get`/`router.put`, but the order controller does not define them. Express refuses an undefined handler when it registers a route, so loading the order routes as written throws. The model therefore has no transition relation for confirming or shipping an item. `middleware/authMiddleware.js`, which the routes import the guards from, is not part of this model; the guards modelled are those of `adminMiddleware.js`.
- `createOrder` never sets an item's `seller`. So a notification built from freshly created items fails (`NotificationFromUnassignedItemsFails`).

## Model

| member | source | states |
|---|---|---|
| OrderController.CreateOrderRejectsInvalidProducts | backend/controllers/orderController.js:10-12 | the reply is 400 "Invalid products" exactly when `products` is missing, not an array or empty |
| OrderController.BuildItems | backend/controllers/orderController.js:15-29 | items are built exactly when every line names a stored product; then one snapshot per line in request order; otherwise the TypeError or "Product <id> not found" for a missing product |
| OrderController.SnapshotAll | backend/controllers/orderController.js:16-20 | the first missing product decides the error; all stored gives one snapshot per line |
| OrderController.PickImage | backend/controllers/orderController.js:24 | no images gives ""; a first image with a non-empty url gives that url; an `{url: ""}` entry falls back to the entry itself (and only it does); a plain string entry gives that string |
| OrderController.Snapshot | backend/controllers/orderController.js:21-27 | name, price, image and product id come from the stored product, qty from the request; the item is fresh (pending, no seller) |
| OrderController.CreateOrder | backend/controllers/orderController.js:5-61 | only 400 or 500 on failure; a 201 reply is a valid request's order with the assigned id, the caller as owner, one item per requested line and the required fields |
| OrderController.CreateOrderSucceeds | backend/controllers/orderController.js:5-61 | a request with a product list whose every line names a stored product, with an address, a signed-in caller and a payment method, is answered 201 with the built item snapshots and the client total as the total price |
| OrderController.CreatedItemsFollowRequest | backend/controllers/orderController.js:15-29 | a created order has one item per requested line, in order, copying the stored product's fields and the requested quantity |
| OrderController.MissingProductFailsCreation | backend/controllers/orderController.js:18-20 | a requested product absent from the catalogue makes creation fail with 500 |
| OrderController.CreatedOrderFields | backend/controllers/orderController.js:32-52 | reply 201; paid and `paidAt` stamped exactly when the method is not "cod"; items and total price equal the client total; tax and shipping 0; address from `deliveryAddress` with `pincode` and "India"; owner is the caller; schema defaults |
| OrderController.MissingPaymentMethodFails | backend/controllers/orderController.js:41 | an empty payment method fails the schema's `required` and no order is created |
| OrderController.MyOrders | backend/controllers/orderController.js:64-73 | exactly the caller's orders |
| OrderController.MyOrdersAfterCreate | backend/controllers/orderController.js:64-73 | a new order appears at the end of its owner's listing only |
| OrderModel.StatusNamesRoundTrip | backend/models/Order.js:25-29 | the status enum accepts exactly the five names and each names one status |
| OrderModel.FindOrder | backend/models/Order.js:3-72 | the position of the order with the id, or -1 exactly when none has it |
| NotificationModel.TypeNamesRoundTrip | backend/models/Notification.js:15-19 | the type enum accepts exactly the four names and each names one type |
| NotificationController.CreateNotification | backend/controllers/notificationController.js:75-99 | a notification is created exactly when every item has a seller, the type is one of the enum's names and the seller and order are set; a created one has the assigned id, seller and order, is unread and stamped now |
| NotificationController.SellerNamesScoped | backend/controllers/notificationController.js:77-79 | the product names are those of exactly the seller's items, in item order |
| NotificationController.NotificationScopedToSeller | backend/controllers/notificationController.js:81-92 | a created notification goes to the given seller and order and lists that seller's names |
| NotificationController.NotificationMessage | backend/controllers/notificationController.js:85-88 | "New order placed with N product(s)" with N the count of names, otherwise "Order status updated to " and the type with "_" replaced by spaces |
| NotificationController.NotificationDefaults | backend/controllers/notificationController.js:75-90 | the type defaults to "order_placed", the customer name to "Customer"; a new notification is unread |
| NotificationController.NotificationFromUnassignedItemsFails | backend/controllers/notificationController.js:78-98 | items without a seller make the filter throw, and nothing is created |
| NotificationController.SellerNotifications | backend/controllers/notificationController.js:4-15 | only the caller's notifications, newest first, as a permutation of them |
| NotificationController.SellerNotificationsComplete | backend/controllers/notificationController.js:7-9 | each of the caller's notifications is listed as often as it is stored |
| NotificationController.UnreadCount | backend/controllers/notificationController.js:21-24 | at most the number of notifications; 0 exactly when the seller has no unread one |
| NotificationController.MarkAll | backend/controllers/notificationController.js:63-66 | same length; each unread notification of the seller becomes read with `readAt` set to now and every other field kept; others and read ones stay as they were |
| NotificationController.MarkAllEffect | backend/controllers/notificationController.js:63-66 | afterwards the caller has no unread notification; read ones and other sellers' are untouched |
| NotificationController.MarkOneLowersCount | backend/controllers/notificationController.js:21-49 | marking one unread notification read lowers its owner's unread count by one |
| NotificationController.NotificationCollection.MarkAsRead | backend/controllers/notificationController.js:33-56 | 404 for an unknown id, 403 for another seller's, both changing nothing; otherwise read and stamped, nothing else changes |
| NotificationController.NotificationCollection.MarkAllAsRead | backend/controllers/notificationController.js:59-72 | the collection becomes `MarkAll` of the caller; the success message |
| CartController.FindLine | backend/controllers/cartController.js:19-21 | the first line for the product, or -1 exactly when there is none |
| CartController.Added | backend/controllers/cartController.js:19-27 | the product has a line afterwards, and at most one line is added |
| CartController.Removed | backend/controllers/cartController.js:37-39 | no line of the product remains and no line is added |
| CartController.AddedQuantities | backend/controllers/cartController.js:19-27 | adding raises the product's total quantity by the amount and leaves other products' totals |
| CartController.AddedShape | backend/controllers/cartController.js:23-27 | a present product's line is raised with no line added; a new product is appended at the end; other lines are unchanged |
| CartController.AddedKeepsInvariants | backend/controllers/cartController.js:19-27 | adding keeps at most one line per product, and positive quantities |
| CartController.AddTwice | backend/controllers/cartController.js:19-27 | two adds of a new product give one line with the summed amount |
| CartController.RemovedEffect | backend/controllers/cartController.js:37-39 | every line of the product is dropped, others keep their order; an absent product changes nothing |
| CartController.RemoveUndoesNewAdd | backend/controllers/cartController.js:19-39 | removing a product just added to a cart without it restores the cart |
| CartController.CartCollection.AddToCart | backend/controllers/cartController.js:10-31 | a user without a cart gets one; the user's lines become `Added`; no other cart changes |
| CartController.CartCollection.RemoveFromCart | backend/controllers/cartController.js:34-43 | no cart throws on `cart.items`; otherwise the lines become `Removed` |
| WishlistController.WithProduct | backend/controllers/wishlistController.js:23-25 | the id is in the list afterwards |
| WishlistController.WithoutProduct | backend/controllers/wishlistController.js:36-38 | the id is not in the list afterwards |
| WishlistController.WithProductEffect | backend/controllers/wishlistController.js:23-25 | adding a present id changes nothing; a new one is appended; no duplicates are kept; idempotent |
| WishlistController.WithoutProductEffect | backend/controllers/wishlistController.js:36-38 | every occurrence is dropped, others keep order and count; an absent id changes nothing |
| WishlistController.AddThenRemove | backend/controllers/wishlistController.js:23-38 | after add then remove the id is absent, and a list that lacked it is restored |
| WishlistController.WishlistCollection.AddToWishlist | backend/controllers/wishlistController.js:12-30 | a user without a wishlist gets `[id]`; otherwise `WithProduct` |
| WishlistController.WishlistCollection.RemoveFromWishlist | backend/controllers/wishlistController.js:33-42 | no wishlist throws on `wishlist.products`; otherwise `WithoutProduct` |
| ProductController.RemoteConfiguredIff | backend/controllers/productController.js:7-13 | remote storage is used exactly when all three credentials are set and "your_" occurs in neither name nor key |
| ProductController.SafeName | backend/controllers/productController.js:34 | same length; letters, digits, '.' and '-' are kept, every other character becomes '_' |
| ProductController.SafeNameProperties | backend/controllers/productController.js:34 | the result holds only kept characters and '_'; sanitising is idempotent and leaves safe names alone |
| ProductController.LocalUrlParts | backend/controllers/productController.js:34-39 | the url is "/uploads/", the timestamp's digits (reading back as the timestamp), '-', the sanitised name |
| ProductController.LocalUrlInjective | backend/controllers/productController.js:34-39 | equal local urls mean equal timestamps and equal sanitised names |
| ProductController.UploadOutcome | backend/controllers/productController.js:79-91 | the remote url when configured and the upload succeeded, otherwise a local "/uploads/" url |
| ProductController.UploadAll | backend/controllers/productController.js:75-93 | one upload per file, in file order, each the file's `UploadOutcome` |
| ProductController.PrepareProduct | backend/controllers/productController.js:59-98 | the caller becomes the seller; uploads replace `images`; otherwise a non-empty string `images` is parsed when it parses and kept when not |
| ProductController.PatchLaws | backend/controllers/productController.js:121 | `Object.assign` overwrites exactly the fields present: each of the seven fields is taken when the body holds it and kept otherwise; an empty body changes nothing, id/seller/creation time stay, repeat is idempotent, two updates compose |
| ProductController.LoadedSeller | backend/controllers/productController.js:117 | `product.seller` on a loaded document is undefined whatever the stored record holds, since the schema declares no `seller` path |
| ProductController.OwnershipError | backend/controllers/productController.js:116-140 | passes exactly when the caller is not a seller; every seller gets 500 from the `toString` of an undefined seller |
| ProductController.OwnerIsRefused | backend/controllers/productController.js:117-138 | a seller the stored record names as owner is refused with 500 too; the stored seller makes no difference |
| ProductController.NonSellersMayModify | backend/controllers/productController.js:117-138 | admins and other non-seller roles pass the ownership rule |
| ProductController.SellerProducts | backend/controllers/productController.js:150-161 | only the seller's products, newest first, as a permutation of them |
| ProductController.SellerProductsComplete | backend/controllers/productController.js:153-155 | each of the seller's products is listed as often as it is stored |
| ProductController.RemoveProductGone | backend/controllers/productController.js:142 | after deletion no product has the id and ids stay unique |
| ProductController.ProductCollection.UpdateProduct | backend/controllers/productController.js:109-127 | 404 for an unknown id, 500 for every seller (the ownership error), 500 on failed validation, each changing nothing; otherwise, for a non-seller, the patched product replaces the stored one |
| ProductController.ProductCollection.DeleteProduct | backend/controllers/productController.js:130-147 | 404 for an unknown id and 500 for every seller (the ownership error), both changing nothing; otherwise, for a non-seller, the product is removed with "Product removed" |
| UserController.PublicHidesPassword | backend/controllers/userController.js:51-59 | the public view does not depend on the password and keeps every other field |
| UserController.FindUser | backend/controllers/userController.js:10-22 | the position of the user with the id, or -1 exactly when none has it |
| UserController.ProfileMergeLaws | backend/controllers/userController.js:36-47 | truthy request fields overwrite, falsy ones keep the stored value; id, role and creation stay; idempotent; two requests compose |
| UserController.RoleMergeLaws | backend/controllers/userController.js:128-130 | name, email and role take the request value when non-empty, else keep theirs; nothing else changes; idempotent |
| UserController.Saved | backend/controllers/userController.js:49 | an unchanged document is saved as it was; a changed one gets `updatedAt` stamped |
| UserController.UserCollection.GetUser | backend/controllers/userController.js:84-96 | 404 "User not found" exactly for an unknown id; otherwise the stored user without its password |
| UserController.UserCollection.UpdateUserProfile | backend/controllers/userController.js:27-63 | 404 changing nothing; otherwise the merged, saved account, answered without its password |
| UserController.UserCollection.UpdateUserRole | backend/controllers/userController.js:120-143 | 404 changing nothing; otherwise the merged account, answered with id, name, email and role |
| UserController.UserCollection.DeleteUser | backend/controllers/userController.js:101-115 | 404 changing nothing; otherwise the user is removed with "User removed" |
| AdminController.AdminOrders | backend/controllers/adminController.js:6-17 | every order, newest first |
| AdminController.AdminUsers | backend/controllers/adminController.js:20-27 | every user without password, newest first |
| AdminController.AdminProducts | backend/controllers/adminController.js:30-40 | every product, newest first |
| AdminController.Revenue | backend/controllers/adminController.js:49-50 | orders with no negative total give a non-negative revenue |
| AdminController.RevenueAppend | backend/controllers/adminController.js:50 | the revenue of two runs of orders adds up |
| AdminController.RevenueLaws | backend/controllers/adminController.js:49-50 | no orders give 0; one more order adds its total price, a missing one adding 0; non-negative totals give non-negative revenue |
| AdminController.DashboardStats | backend/controllers/adminController.js:43-61 | the three counts and the revenue |
| AdminController.DashboardAfterOrder | backend/controllers/adminController.js:45-50 | a new order adds one to the order count and its total to the revenue |
| AdminController.UpdateOrderStatus | backend/controllers/adminController.js:64-83 | 404 "Order not found" exactly for an unknown id; otherwise only that order's update time changes, and the reply is the stored order |
| AdminController.UpdateOrderStatusIgnoresPayment | backend/controllers/adminController.js:67-73 | the requested `paymentStatus` changes neither the stored orders nor the reply |
| AdminController.DeleteUser | backend/controllers/adminController.js:86-100 | 404 exactly for an unknown id; otherwise the user is gone and ids stay unique |
| AdminController.DeleteProduct | backend/controllers/adminController.js:103-117 | 404 exactly for an unknown id; otherwise the product is gone and ids stay unique |
| AuthMiddleware.TokenOf | backend/middleware/adminMiddleware.js:15 | a token is the non-empty second space-separated field of the header |
| AuthMiddleware.BearerRoundTrip | backend/middleware/adminMiddleware.js:15 | "scheme token", with or without more fields, yields the token |
| AuthMiddleware.NoSpaceNoToken | backend/middleware/adminMiddleware.js:15-19 | a header without a space yields no token |
| AuthMiddleware.Decide | backend/middleware/adminMiddleware.js:5-85 | allows exactly when token, signature, user and role all pass, with that user; the first failed check decides: no token is 401 "No token, authorization denied", a failed verification 401 "Invalid token", a missing user 401 "User not found", a wrong role 403 with the guard's message; 403 only for a role mismatch |
| AuthMiddleware.AuthenticationBeforeRole | backend/middleware/adminMiddleware.js:36-59 | a 401 from one guard is the same 401 from every guard |
| AuthMiddleware.GuardsNarrowProtect | backend/middleware/adminMiddleware.js:14-85 | whatever a role guard allows, `protect` allows with the same user; `protect` never answers 403 |
| AuthMiddleware.Request.Run | backend/middleware/adminMiddleware.js:31-84 | `req.user` is set and `next()` is called exactly when the guard allows; otherwise the error and nothing changes |
| Validators.ValidateEmail | backend/utils/validators.js:2-5 | an accepted address has no whitespace and holds an '@' and a '.' |
| Validators.ValidateEmailIff | backend/utils/validators.js:2-5 | accepted exactly when there is no whitespace and an '@' after the first character with a '.' at least two later and before the last |
| Validators.EmailExamples | backend/utils/validators.js:3 | "a@b.c" is accepted, shorter shapes refused, accepted addresses have at least 5 characters, whitespace is refused |
| Validators.ValidatePassword | backend/utils/validators.js:8-10 | truthy exactly when present with at least 6 characters |
| Validators.PasswordRule | backend/utils/validators.js:8-10 | lengthening keeps a password valid; absent or empty is refused |
| Validators.CheckRequired | backend/utils/validators.js:13-20 | None exactly when every value is truthy; otherwise "<key> is required" for the first falsy key |
| RateLimiter.WindowConstants | backend/middleware/rateLimiter.js:4-5 | the window is 900000 ms and the maximum 5000 requests |
| RateLimiter.Skip | backend/middleware/rateLimiter.js:9-17 | only paths under "/api/" are skipped |
| RateLimiter.SkipExtends | backend/middleware/rateLimiter.js:9-17 | a skipped path stays skipped however it is extended |
| RateLimiter.LimitedRoutes | backend/middleware/rateLimiter.js:9-17 | order and notification paths and "/api/users" are limited; the profile route is skipped |
| ClientApi.Base | frontend/src/api.js:1 | the configured base, or "/api" when unset |
| ClientApi.JoinUrl | frontend/src/api.js:15 | every url starts with the base, and a path that already does is sent unchanged |
| ClientApi.JoinUrlLaws | frontend/src/api.js:15 | every url starts with the base; joining is idempotent; a path is kept whole behind at most one added '/' |
| ClientApi.JoinUrlPrefixQuirk | frontend/src/api.js:15 | "/apiary" is sent unchanged, "/products" and "cart" are joined |
| ClientApi.PreparedHeaders | frontend/src/api.js:4-12 | "Bearer <token>" exactly when a token is stored; unless the body is form data, Content-Type is kept when set and "application/json" when missing or empty; other headers kept |
| ClientApi.PreparedHeadersIdempotent | frontend/src/api.js:4-12 | filling the headers twice equals filling them once |
| ClientApi.ClientTokenReachesServer | frontend/src/api.js:6 | the server's guard extracts exactly the token the client sent |
| ClientApi.Headers.Prepare | frontend/src/api.js:4-12 | the headers object becomes `PreparedHeaders` of itself |
| ClientApi.Settle | frontend/src/api.js:17-31 | resolves exactly for a received 2xx response; a failed response rejects with its body when that has a truthy `message`, with the network error when the body is `null`, and with "Request failed" otherwise; a network failure rejects with "Network error or server unreachable" |
| ClientApi.SettleLaws | frontend/src/api.js:17-31 | resolves exactly for ok responses, with the body, or `{}` for 204 or an empty body; a failed response rejects with its body when it has a truthy message, else "Request failed", or the network error for a `null` body; every rejection carries a truthy message |
| ClientApi.CreateProductBody | frontend/src/api.js:38-48 | form data is sent as is, anything else as its JSON text |
| ClientApi.CreateProductHeaders | frontend/src/api.js:38-48 | form data goes without a Content-Type, JSON with "application/json" |
| ClientApi.Request | frontend/src/api.js:3-32 | headers filled in place, the url joined under the base, the outcome settled |
| HomePage.Visible | frontend/src/pages/Home.jsx:45-61 | exactly the products matching the lowered query in name or description and the selected category, in order |
| HomePage.VisibleAll | frontend/src/pages/Home.jsx:51-61 | no query and no category show every product in order |
| HomePage.VisibleCaseInsensitive | frontend/src/pages/Home.jsx:46 | a query and its lowered form show the same products |
| HomePage.CategoryNarrows | frontend/src/pages/Home.jsx:58-60 | choosing a category filters the search results by it, keeping order |
| HomePage.Categories | frontend/src/pages/Home.jsx:49 | distinct, non-empty categories, each some product's, covering every product's |
| HomePage.CategoriesExtend | frontend/src/pages/Home.jsx:49 | a new product adds its category at the end exactly when it is new and non-empty |
| HomePage.ToggleTwice | frontend/src/pages/Home.jsx:86-92 | toggling twice restores the set |
| HomePage.ToggleMatchesServer | frontend/src/pages/Home.jsx:86-92 | the toggled set equals the ids of the wishlist the server keeps after the call made |
| HomePage.Home.ToggleWishlist | frontend/src/pages/Home.jsx:79-97 | no token goes to login; remove for a member, add otherwise; the set changes only on success; failure alerts "Wishlist update failed" |
| CartPage.Total | frontend/src/pages/Cart.jsx:64 | lines with no negative price or quantity give a non-negative total |
| CartPage.TotalLaws | frontend/src/pages/Cart.jsx:64 | empty total 0; a line adds its price times quantity at either end; non-negative lines give a non-negative total |
| CartPage.TotalSplits | frontend/src/pages/Cart.jsx:64 | the total is the total of the lines that pass a test plus that of the rest |
| CartPage.AfterRemove | frontend/src/pages/Cart.jsx:26-35 | exactly the lines of other products remain |
| CartPage.AfterRemoveMatchesServer | frontend/src/pages/Cart.jsx:26-35 | after a removal the page holds exactly the lines the server keeps, in order |
| CartPage.AfterRemoveTotal | frontend/src/pages/Cart.jsx:31-64 | a removal lowers the total by exactly the removed product's lines |
| CartPage.HandleBuy | frontend/src/pages/Cart.jsx:37-45 | the payload lists the lines in order with their quantities and carries their total |
| CartPage.PaymentRequest | frontend/src/pages/Payment.jsx:37-66 | the posted body names each product's id with its quantity and carries the total and method |
| CartPage.CheckoutCreatesOrder | frontend/src/pages/Cart.jsx:37-45 | checking out stored products creates an order with one item per line, the same product, price and quantity, and total price equal to the cart total and to its items' sum |
| CartPage.Render | frontend/src/pages/Cart.jsx:47-64 | lines with their total only for a present, non-empty cart with no error; the login prompt exactly for the auth error |
| CartPage.Load | frontend/src/pages/Cart.jsx:12-24 | a request is made exactly when a token is stored; without one the auth error; a failure keeps a truthy message |
| CartPage.LoadThenRender | frontend/src/pages/Cart.jsx:12-62 | the login prompt exactly without a token; "Cart is empty" exactly for a missing cart or no items; otherwise the lines and their total |
| CartPage.RemoveLine | frontend/src/pages/Cart.jsx:26-35 | on success the lines become those the server keeps; on failure the cart stays and a truthy message is set |
| CartPage.RemoveThenRender | frontend/src/pages/Cart.jsx:26-64 | after removal the remaining lines without the product and the lowered total, or "Cart is empty" |
| SellerOrdersPage.OwnPositions | frontend/src/pages/SellerOrders.jsx:133-171 | increasing positions in the full item list of exactly the seller's items |
| SellerOrdersPage.OwnPositionsListed | frontend/src/pages/SellerOrders.jsx:132-134 | the items at those positions are exactly the filtered items, in order |
| SellerOrdersPage.ActionFor | frontend/src/pages/SellerOrders.jsx:158-188 | the Confirm button exactly for pending items, the Ship button exactly for confirmed ones |
| SellerOrdersPage.ActionLaws | frontend/src/pages/SellerOrders.jsx:158-192 | Confirm exactly for pending, Ship exactly for confirmed, notes for shipped and delivered, nothing for cancelled; address exactly for confirmed or shipped |
| SellerOrdersPage.ItemCards | frontend/src/pages/SellerOrders.jsx:132-198 | one card per own item, carrying its full-list position, its status's action and the address flag |
| SellerOrdersPage.EveryOwnItemHasACard | frontend/src/pages/SellerOrders.jsx:132-171 | every own item has a card at its position with its action, and no two cards share a position |
| SellerOrdersPage.ReplaceOrder | frontend/src/pages/SellerOrders.jsx:43-61 | only the orders with the id are replaced, the others stay, the length stays |
| SellerOrdersPage.ReplaceOrderLaws | frontend/src/pages/SellerOrders.jsx:43-61 | an absent id changes nothing; replacing is idempotent; ids are kept when the new order keeps its id |
| SellerOrdersPage.ActionKey | frontend/src/pages/SellerOrders.jsx:38-54 | the key starts with the action's name and a '-', and its length is that of its three parts and two dashes |
| SellerOrdersPage.ActionKeyInjective | frontend/src/pages/SellerOrders.jsx:38-54 | equal keys mean the same action on the same item of the same order |
| SellerOrdersPage.ActionKeysSeparate | frontend/src/pages/SellerOrders.jsx:39-65 | an action's busy flag leaves every other item's and action's flag as it was |
| SellerOrdersPage.SellerOrders.Mount | frontend/src/pages/SellerOrders.jsx:13-35 | a request exactly for a logged-in seller; otherwise "Only sellers can access this page"; `data \|\| []` or the message with its default |
| SellerOrdersPage.SellerOrders.HandleAction | frontend/src/pages/SellerOrders.jsx:37-67 | the key ends not busy; on success the order is replaced; on failure the message or the action's default is alerted |

## Left out

- Identifiers are taken to be well-formed ObjectIds. With a malformed id, `findById` and `findByIdAndDelete` throw a cast error. The handlers then answer 500 with that message instead of 404, `createOrder` answers 500 with it instead of "Product <id> not found", and the guards' `findById` rejects unhandled instead of answering 401. The model answers as for an unknown id.
- ProductController.PrepareProduct: the seller it puts in the body never reaches the stored document. The product schema has no `seller` path, so strict mode drops it in `new Product(body)`, and no product this code creates has a seller.
- ProductController.SellerProducts: modelled as the filter and sort of the query. The schema has no `seller` path, so the filter matches no product this code creates. Under the `strictPopulate` default of recent Mongoose versions, `populate('seller')` on the missing path throws and the handler answers 500. The Mongoose version is not part of this model.
- AdminController.AdminProducts: modelled as the sorted listing. Its `populate('seller')` throws for the same reason under `strictPopulate`, which would turn the reply into 500.
- Database I/O is not modelled: find, save, populate, countDocuments, updateMany and deletion. Collections are sequences, and the creation time stands in for `createdAt` ordering. Population is modelled only as the page receiving the product itself.
- Express plumbing is not modelled. `server.js` mounts the limiter globally and mounts no admin or notification routes. Unhandled promise rejections are represented as `Unhandled`.
- The confirm and ship transitions are not modelled, nor `getSellerOrders`, `getOrderById` and `getOrders`: the order routes name them but the controller does not define them, apart from the unfiltered `getOrders`.
- There is no fan-out of notifications when an order is created, because `createOrder` does none.
- Foreign code is not modelled: token verification, JSON parsing and printing, `fetch`, the remote upload and the local file write. They enter as parameters, and a failing disk write is not modelled.
- Clock and time values are opaque inputs.
- Money and counts are integers. `parseFloat` of the price and `toFixed` in the client are not modelled.
- Character handling is simplified. Lowercasing covers ASCII letters only. String lengths are in code points, not UTF-16 units. `\s` follows the JavaScript whitespace set.
- `CheckRequired` takes the keys in the order given, without JavaScript's rule that integer-like keys come first.
- `BuildItems` reports the first missing product in request order. With `Promise.all` the first lookup to fail in time decides the error instead.
- Schema validation of a new product's body (`createProduct` saving through the model) is not modelled, nor the casting of an unparsed `images` string.
- Request fields are modelled as strings, with "" standing for missing, except where a value's truthiness matters.
- Password hashing is not modelled. `User.js` is not part of this model.
- `paymentResult`, reviews and ratings are not modelled.
- The rate limiter's request counting happens inside express-rate-limit and is not modelled. Only `skip` and the constants are.
- React rendering is reduced to the view each page state yields. Routing, `localStorage`, alerts and the loading flags in between are not modelled.
- The home page's initial loading of wishlist ids, its `addToCart` button, and the product list and product handlers (`getProducts`, `getProductById`) are not modelled.
- Concurrency is not modelled: read-modify-write races on carts and wishlists, and overlapping page requests.
- HomePage.Home.ToggleWishlist: the server call's outcome is a boolean input; whether it adds or removes is proved to match the wishlist handlers in a separate lemma.
- SellerOrdersPage.SellerOrders.HandleAction: `response.order` is taken to be present; a reply without it would put `undefined` into the list.
