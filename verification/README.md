# eswika: a Dafny model of the marketplace ledger and the session front end

eswika is a farm-produce marketplace. It has two parts:

- A Flask backend keeps products, cart lines, orders, payments and users.
- A React front end keeps the signed-in session in the browser. It guards routes by role and drives the cart, validation and order pages.

This project models the core of both parts and proves what they promise.

**Backend ledger** (`Ledger`, `Models`, `Tally`). The database is the class `Ledger.Store`, with one map per table. Each request handler is a method that answers an HTTP status:

- cart add, update and remove
- checkout and direct orders
- payment processing, cash-on-delivery confirmation
- product creation, update, deletion and validation

Every rejected request leaves the tables untouched. The JWT identity, the admin claim and the clock-derived transaction suffix are parameters.

The central invariant is conservation. For every product, stock plus the quantities in cart lines plus the quantities in orders (`Store.Held`) is unchanged by the handlers that move goods between those places. Deleting a product that no cart line names lowers it by that product's stock; a product still in some cart cannot be deleted, because the commit fails (status 500) and nothing changes. A product update changes it exactly by the stock change.

**Session** (`StoredUser`, `Browser`, `Auth`, `Api`):

- `Browser.Window` holds `localStorage`, the axios default `Authorization` header and `window.location`.
- The `userData` record is stored as the JSON text `JSON.stringify` writes. `StoredUser.Encode`/`Decode` model that text, with a round-trip proof.
- `Auth.AuthProvider` restores the session on mount, and writes and clears it on login and logout.
- `Api` models the axios instance's request interceptor (bearer token) and response interceptor (401 handling), and the login and auth-check helpers.

**Views** (`Router`, `Navbar`, `CartPage`, `PendingProducts`, `FarmerOrders`):

- the route table and `ProtectedRoute`
- the navigation links per role (no bar at all when the stored user record cannot be read), with a proof that every shown link leads to a page the router shows
- the cart page's requests and error messages
- the pending-products list and pagination
- the farmer orders filter and status badges

Where the code and the design description differ, the model follows the code:

- An `allowedRoles` array is truthy even when empty, so the roles alone decide.
- A 401 answer removes only the token from storage and sends the browser to `/login`. The stored `userData` and the default header stay.
- `App` declares no catch-all route, so an unknown path renders nothing (`Router.Blank`).
- `confirm_delivery_payment` does not check who owns the payment. It releases the awaiting orders of the caller.
- `process_payment` answers 500, not 400, when `payment_method` is missing.
- `update_product` copies every key of the request body onto the product. A seller can therefore set `validated_by_admin` or hand the product to another seller; the model keeps that behaviour.

Money is integer minor units; see "Left out".

## Model

| member | source | states |
|---|---|---|
| Common.Filter | eswika-frontend/src/pages/FarmerOrders.jsx:60-65 | `Array.filter`: the result holds exactly the elements that pass, each as many times as in the input, in their original order |
| Common.FilterKeepsAll | eswika-frontend/src/pages/FarmerOrders.jsx:60-65 | a filter returns its input unchanged iff every element passes |
| Text.TrimStart | eswika-frontend/src/pages/Cart.jsx:584 | result is a suffix of the input; what was dropped is all white space; the result does not start with white space |
| Text.TrimEnd | eswika-frontend/src/pages/Cart.jsx:584 | result is a prefix of the input; what was dropped is all white space; the result does not end with white space |
| Text.TrimEmptyIff | eswika-frontend/src/pages/Cart.jsx:584 | `s.trim()` is empty iff every character of `s` is white space |
| Text.ToLower | eswika-frontend/src/pages/FarmerOrders.jsx:62 | same length as the input, every character lower-cased in place |
| Text.Includes | eswika-frontend/src/pages/FarmerOrders.jsx:62-63 | `includes` is true iff the needle occurs at some offset |
| Text.IncludesFrom | eswika-frontend/src/pages/FarmerOrders.jsx:62-63 | the offset-by-offset search finds the needle iff it occurs at or after the start offset |
| Text.EmptyIsIncluded | eswika-frontend/src/pages/FarmerOrders.jsx:62-63 | the empty string is included in every string |
| Text.NatToString | eswika-frontend/src/pages/FarmerOrders.jsx:63 | `toString` of a natural number is a non-empty digit string with no leading zero |
| Text.NatToStringValue | eswika-frontend/src/pages/FarmerOrders.jsx:63 | the digits read back as the number |
| Text.NatToStringInjective | eswika-frontend/src/pages/FarmerOrders.jsx:63 | different numbers have different decimal texts |
| StoredUser.EscapeRoundTrip | eswika-frontend/src/context/AuthContext.jsx:18-39 | a string escaped by `JSON.stringify` parses back to itself, leaving the rest of the text |
| StoredUser.EscapeInjective | eswika-frontend/src/context/AuthContext.jsx:39 | different strings are escaped differently |
| StoredUser.DecodeEncode | eswika-frontend/src/context/AuthContext.jsx:18-39 | `JSON.parse(JSON.stringify(userData))` gives back the record |
| StoredUser.EncodeInjective | eswika-frontend/src/context/AuthContext.jsx:33-39 | different records are stored as different texts |
| Models.ParseMethod | backend/main.py:308-310 | a method that parses has the input as its value |
| Models.ParseMethodExact | backend/models.py:72-75 | exactly `credit_card`, `paypal` and `cash_on_delivery` parse; each method's value parses back to it |
| Models.StatusValuesDistinct | backend/models.py:77-81 | the four payment statuses have distinct stored values |
| Models.NewProduct | backend/models.py:31 | a new product is not validated, with the given price, stock and seller |
| Models.NewOrder | backend/models.py:59-60 | a new order defaults to status `pending` without peeling, with the given fields |
| Models.NewPayment | backend/models.py:88-89 | a new payment defaults to status `pending` and has no transaction id |
| Ledger.NextRowId | backend/models.py:54 | a new primary key is positive, unused, and above every existing key |
| Ledger.OrderFromLine | backend/main.py:412-420 | the order made from a cart line copies buyer, product, quantity and total, and has the given address and status |
| Ledger.OrderTotal | backend/main.py:141-143 | price times quantity, plus peeling price times quantity when peeling is requested and offered; no total when the peeling price is missing |
| Ledger.OrderStatusByMethod | backend/main.py:340-342 | cash on delivery gives orders `awaiting_payment`, card and PayPal give `pending`; a settled payment is never `pending` or `failed` |
| Ledger.PublicProducts | backend/main.py:595-597 | the public catalogue is exactly the validated products, unchanged |
| Ledger.Released | backend/main.py:461-464 | only status changes, same keys; no order of the buyer is left awaiting payment; other buyers' orders are untouched |
| Ledger.RequestedMethod | backend/main.py:307-310 | a method is read iff `payment_method` is present and names one of the enum values |
| Ledger.Store.UpdateTotalPrice | backend/models.py:50-51 | the line's total becomes its quantity times the product's price; nothing else changes |
| Ledger.Store.Register | backend/main.py:20-40 | 400 with no change iff the email is taken; otherwise 200 and one new user, emails stay unique |
| Ledger.Store.AddToCart | backend/main.py:185-222 | 404 iff no product; 400 iff stock is below the request, or below the existing line plus the request; on 201 stock drops by the request, an existing line grows and is never duplicated, a new line costs price times quantity; Held conserved |
| Ledger.Store.GrowLine | backend/main.py:202-207 | the line's quantity grows by the request and its total is recomputed at the product's price; only that product's carted count moves, by the request; lines stay unique |
| Ledger.Store.AddLine | backend/main.py:210-216 | the new line is stored under a fresh id and nothing else changes; its product's carted count grows by its quantity; lines stay unique |
| Ledger.Store.UpdateCartItem | backend/main.py:226-247 | 404/403 for a missing or foreign line; 500 with no change for a null `quantity` or a line whose product is gone; 400 iff stock is below the increase; on success stock moves by the difference and the total is recomputed; no `quantity` key changes nothing; Held conserved |
| Ledger.Store.RemoveFromCart | backend/main.py:251-266 | owner only (403); deletes the line and returns its quantity to the product if it exists; Held conserved unless the product is gone |
| Ledger.Store.MoveLineToOrder | backend/main.py:412-423 | one cart line becomes one new order under a fresh id and leaves the cart; Held conserved |
| Ledger.Store.CreateOrdersFromCart | backend/main.py:408-425 | each chosen line becomes its own new order, distinct ids, old orders kept, no other orders made, lines leave the cart; Held conserved |
| Ledger.Store.Checkout | backend/main.py:270-296 | 400 iff the caller's cart is empty; 500 with rollback iff the address is missing or null; on 201 every caller's line becomes a `pending` order at the address and the caller's cart is emptied; Held conserved |
| Ledger.Store.CreateOrder | backend/main.py:132-160 | 404/400/500 as the code decides; on 201 stock drops by the quantity and one `pending` order with `OrderTotal` is added; Held conserved |
| Ledger.Store.CartTotal | backend/main.py:318 | the amount is the sum of the caller's line totals |
| Ledger.Store.ProcessPayment | backend/main.py:302-359 | missing method 500; 400 iff bad method, empty cart or missing method-specific fields; 201 iff also an address is given and the transaction id is new; on 201 one payment for the cart total with the settled status, and the cart moved to orders with the matching status; otherwise nothing changes; Held conserved |
| Ledger.Store.ConfirmDeliveryPayment | backend/main.py:447-468 | 404 no payment; 400 unless cash on delivery awaiting delivery; on 200 that payment is completed and the caller's awaiting orders become `pending` |
| Ledger.Store.ValidateProduct | backend/main.py:539-559 | 403 unless admin; 404; 400 if already validated; on 200 the product is validated and joins the public catalogue |
| Ledger.Store.UpdateProduct | backend/main.py:76-90 | 404; 403 unless the seller; 500 when a patched value does not fit its column; on 200 the patch is applied; Held moves only by the stock change |
| Ledger.Store.DeleteProduct | backend/main.py:94-103 | 404; 403 unless the seller; 500 with nothing changed iff a cart line still names the product; on 200 the product is gone, no cart line names it, and Held drops by its stock |
| Ledger.Store.CreateProduct | backend/main.py:494-535 | 500 unknown user; 403 unless a farmer; 400 without an image file; on 201 one new, unvalidated product of the caller with the form's peeling flag and price |
| Browser.Window.SetItem | eswika-frontend/src/context/AuthContext.jsx:38-39 | `localStorage.setItem` sets one key |
| Browser.Window.RemoveItem | eswika-frontend/src/context/AuthContext.jsx:60-61 | `localStorage.removeItem` drops one key |
| Router.Guard | eswika-frontend/src/App.jsx:21-33 | no user goes to `/login`; a user whose type is not in the given roles goes to `/`; otherwise the page, both directions |
| Router.NoCatchAll | eswika-frontend/src/App.jsx:42-103 | a path renders nothing iff it is not one of the eleven declared paths |
| Router.RouteRoles | eswika-frontend/src/App.jsx:45-102 | which user types each guarded route admits, as iff per route |
| Router.OpenRoutes | eswika-frontend/src/App.jsx:43-54 | home, products, login and register show their page to anyone |
| Router.GuardedNeedLogin | eswika-frontend/src/App.jsx:24-26 | every guarded route sends a visitor without a session to `/login` |
| Router.SignedInNeverToLogin | eswika-frontend/src/App.jsx:24-30 | a signed-in user is never sent to `/login`, only home |
| Navbar.GetUserType | eswika-frontend/src/components/Navbar.jsx:88-95 | no stored record gives null; a readable record gives its type; anything else throws |
| Navbar.LinkGroups | eswika-frontend/src/components/Navbar.jsx:110-193 | no bar at all iff the stored record is unreadable (the render's `JSON.parse` throws); otherwise a link is shown iff `Shown` holds: home and products always, a role's group iff someone is signed in and storage gives that type, login and register iff nobody is signed in |
| Navbar.StoredType | eswika-frontend/src/components/Navbar.jsx:88-97 | when storage holds the session user's record, the navbar reads that user's type |
| Navbar.SignedInLinksRender | eswika-frontend/src/components/Navbar.jsx:119-165 | a signed-in user whose stored type is their own gets a bar, and every link on it leads to a page the router shows them |
| Navbar.ShownLinksRender | eswika-frontend/src/components/Navbar.jsx:108-193 | with storage consistent with the session, a signed-in user always gets a bar and no shown link redirects or renders nothing |
| Auth.LoginEndpoint | eswika-frontend/src/context/AuthContext.jsx:26-28 | the admin endpoint iff the chosen type is `admin` |
| Auth.SessionType | eswika-frontend/src/context/AuthContext.jsx:35 | the server's type when truthy, otherwise the chosen type |
| Auth.RolesExclusive | eswika-frontend/src/context/AuthContext.jsx:67-80 | each role helper implies a session, and at most one holds |
| Auth.AuthProvider.constructor | eswika-frontend/src/context/AuthContext.jsx:8-9 | no user, loading |
| Auth.AuthProvider.Init | eswika-frontend/src/context/AuthContext.jsx:12-22 | header set iff a token is stored; user restored iff token and record are stored; an unparsable record throws with the user unchanged and loading stays on |
| Auth.AuthProvider.Login | eswika-frontend/src/context/AuthContext.jsx:24-47 | a failed post changes nothing; success stores token and record, sets the header and user, and the stored record decodes to the user |
| Auth.AuthProvider.Logout | eswika-frontend/src/context/AuthContext.jsx:59-64 | both keys removed, header deleted, user cleared |
| Api.WithToken | eswika-frontend/src/services/api.js:14-25 | a truthy stored token adds `Bearer <token>`; other headers kept; without a token the headers are unchanged |
| Api.BearerIffToken | eswika-frontend/src/services/api.js:6-25 | every request carries JSON content type and carries a bearer header iff a token is stored |
| Api.Send | eswika-frontend/src/services/api.js:14-37 | the request sent; resolves iff 2xx; a 401 removes the token and goes to `/login`, anything else leaves storage and location |
| Api.PostLogin | eswika-frontend/src/services/api.js:41-58 | on success a truthy token is stored, otherwise storage unchanged; 401 handled as for every call |
| Api.Login | eswika-frontend/src/services/api.js:41-48 | posts the credentials to `/login` with the default headers; resolves iff the answer is 2xx, then stores a truthy token and stays on the page; a 401 drops the token and goes to `/login`; any other failure changes nothing |
| Api.AdminLogin | eswika-frontend/src/services/api.js:52-58 | posts the credentials to `/admin/login` with the default headers; resolves iff the answer is 2xx, then stores a truthy token and stays on the page; a 401 drops the token and goes to `/login`; any other failure changes nothing |
| Api.CheckAuthState | eswika-frontend/src/services/api.js:60-70 | no token gives null without a request; a failure removes the token and moves to `/login` only on a 401; success returns the body |
| CartPage.TotalAmountAppend | eswika-frontend/src/pages/Cart.jsx:638 | the total of two lists is the sum of their totals |
| CartPage.TotalAmountOrderFree | eswika-frontend/src/pages/Cart.jsx:638 | the displayed total does not depend on the order of the lines |
| CartPage.DecrementQuantity | eswika-frontend/src/pages/Cart.jsx:684-686 | disabled iff quantity is at most 1, so a decrement never asks for less than 1 |
| CartPage.CheckoutBodyCarriesAddress | eswika-frontend/src/pages/Cart.jsx:615-617 | the checkout body is determined by the address alone and tells addresses apart |
| CartPage.CartPage.constructor | eswika-frontend/src/pages/Cart.jsx:515-519 | empty cart, loading, no error, cash on delivery, empty address |
| CartPage.CartPage.FetchCart | eswika-frontend/src/pages/Cart.jsx:526-541 | items replaced on 2xx, load error otherwise, loading ends |
| CartPage.CartPage.UpdateQuantity | eswika-frontend/src/pages/Cart.jsx:543-564 | 400 gives "Insufficient stock", other failures their message, no refetch; success refetches |
| CartPage.CartPage.RemoveItem | eswika-frontend/src/pages/Cart.jsx:566-581 | failure sets the removal error without refetch; success refetches |
| CartPage.CartPage.EditAddress | eswika-frontend/src/pages/Cart.jsx:763 | the address field holds the typed text |
| CartPage.CartPage.HandleCheckout | eswika-frontend/src/pages/Cart.jsx:583-628 | a blank address sets the error and sends nothing; otherwise posts only `delivery_address`; success goes to `/orders`, failure stays with an error |
| PendingProducts.WithoutIdKeepsOthers | eswika-frontend/src/pages/AdminPendingProducts.jsx:40 | the validated id leaves the list, every other product stays in order with its multiplicity; the list is unchanged iff no product had that id |
| PendingProducts.PendingProductsPage.constructor | eswika-frontend/src/pages/AdminPendingProducts.jsx:6-11 | empty list, loading, page 1 of 1, count 0 |
| PendingProducts.PendingProductsPage.FetchPendingProducts | eswika-frontend/src/pages/AdminPendingProducts.jsx:13-29 | on 2xx list, pages, page and count come from the answer; otherwise the error message; loading ends |
| PendingProducts.PendingProductsPage.HandleValidate | eswika-frontend/src/pages/AdminPendingProducts.jsx:31-50 | success removes the product and decrements the count, and the page moves back iff the list held one product and the page was above 1; failure alerts and changes nothing |
| PendingProducts.PendingProductsPage.ClickPrevious | eswika-frontend/src/pages/AdminPendingProducts.jsx:141-153 | no effect unless the controls are shown and the page is not 1; otherwise `max(page - 1, 1)` |
| PendingProducts.PendingProductsPage.ClickNext | eswika-frontend/src/pages/AdminPendingProducts.jsx:159-169 | no effect unless the controls are shown and the page is not the last; otherwise `min(page + 1, totalPages)` |
| FarmerOrders.FilteredOrders | eswika-frontend/src/pages/FarmerOrders.jsx:60-65 | an order is listed iff it matches status and search, as many times as fetched; order kept; a non-`all` filter lists only that status |
| FarmerOrders.InitialFilterShowsAll | eswika-frontend/src/pages/FarmerOrders.jsx:60-65 | `all` with an empty search lists every order in order |
| FarmerOrders.EmptySearchMatchesAll | eswika-frontend/src/pages/FarmerOrders.jsx:62-63 | an empty search matches every order |
| FarmerOrders.SearchById | eswika-frontend/src/pages/FarmerOrders.jsx:63 | typing an order's number finds it |
| FarmerOrders.ToLowerIdempotent | eswika-frontend/src/pages/FarmerOrders.jsx:62 | lower-casing twice equals lower-casing once |
| FarmerOrders.SearchIgnoresQueryCase | eswika-frontend/src/pages/FarmerOrders.jsx:62-63 | a query and its lower-cased form match the same orders |
| FarmerOrders.StatusColorTable | eswika-frontend/src/pages/FarmerOrders.jsx:49-58 | the five known statuses get their colours; a status is gray iff it is not one of them |
| FarmerOrders.AwaitingPaymentOnlyUnderAll | eswika-frontend/src/pages/FarmerOrders.jsx:67 | an `awaiting_payment` order is shown by no status button except `all`, and its badge is gray |

## Left out

- Flask, JWT, SQLAlchemy and password hashing: the caller's id and admin claim are parameters, tables are maps, a commit or rollback is the method's final state.
- `compress_image` (backend/main.py:474-490) and the stored image bytes: the PIL encoder cannot be modelled. An image the encoder rejects would answer 500; `Ledger.Store.CreateProduct` does not model that case.
- Prices and totals are floats in the source; the model uses integer minor units and does not reproduce float rounding.
- Timestamps (`created_at`, `validation_date`) are not modelled; the transaction id's clock suffix is the `stamp` parameter.
- `get_statistics`, `get_all_users`, `get_user_details`, `get_pending_products`, `update_user_status`, `get_orders`, `get_cart`, `get_farmer_products`, `get_payment_status`, `check_auth`, `login`, `admin_login`: reads and aggregates delegated to the ORM or to password checks.
- Ledger.Store.UpdateProduct: only the price, stock, seller, peeling flag, peeling price and validation flag columns are modelled; a patch of `id`, of the text columns (name, description, unit, image url) or of the timestamps is not modelled, and an unknown key (which `setattr` accepts silently) is treated like no change.
- Ledger.Store.CreateProduct: form fields are taken as already converted; a missing `name`/`unit` or an unparsable `price`/`quantity`, which answer 500, are not modelled.
- Ledger.Store.DeleteProduct: orders that still name the deleted product are left as they are (no relationship joins them, and SQLite does not enforce the foreign key); only cart lines, which the product's relationship nulls and the NOT NULL column then rejects, block the delete.
- Ledger.Store.Register: the password hash, name, phone and address columns are not modelled, nor the 500 (KeyError) for a body missing `email`, `password`, `user_type` or `name`.
- Ledger.Store.AddToCart: a body missing `product_id` or `quantity` (KeyError) or with a null `quantity` (TypeError in the stock comparison) answers 500 with nothing changed; the model takes both as integers.
- Ledger.Store.CreateOrder: a body missing `product_id` or `quantity`, or with a null `quantity`, answers 500 with nothing changed; the model takes both as integers.
- Text.ToLower: lower-cases ASCII and Latin-1 letters only, not the whole Unicode case mapping of `toLowerCase`.
- StoredUser.Decode: accepts exactly the text `JSON.stringify` writes for `{id, type}`; any other JSON text is treated as unreadable, as if `JSON.parse` had thrown: `Init` then stays loading, and `Navbar.Links` draws no bar.
- Router.Render: React Router's case-insensitive matching and trailing-slash tolerance are not modelled; a path matches only as written.
- Router.Render: the provider's `{!loading && children}` gate is not part of the function; while the session loads, and for good after `Init` throws, nothing is rendered.
- FarmerOrders.StatusColor: a status equal to a property name of `Object.prototype` (such as `constructor`) is not modelled; it is treated as gray.
- Asynchronous interleaving: each handler runs to completion on the state it started with; races between overlapping requests and React's batched state updates are not modelled. `HandleValidate` reads the current list, where the source closes over the list of the last render.
- The refetch that follows a page change in the pending-products page (the `currentPage` effect) is a separate `FetchPendingProducts` call, not chained to the buttons.
- The cart page's payment-method radio buttons only set state that is never sent; they are not modelled.
- The commented-out code in Cart.jsx (lines 1-498, 800-884) and main.py (860-977), `CartContext`, the unused order helpers of api.js and the `AddProduct`/`MyProducts`/`Orders`/`Admin` pages are not part of this model.
