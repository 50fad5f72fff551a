# react-pos client state, in Dafny

react-pos is a point-of-sale front-end: React components over a Redux store,
talking to a Magento GraphQL backend that owns prices, stock, carts and
orders. This project models the deterministic client-side logic and proves
what it promises:

- **the cart store** (`cartSlice.js`):
  - the reducer replaces the cached cart wholesale from server payloads;
  - `removeFromCart` sends a remove, then exactly one fallback (a quantity-0
    re-add when a sku is given, else a refetch);
  - `clearCartItems` removes the fetched items one by one in a best-effort
    loop and always yields an empty cart;
  - every thunk is guarded by the session token;
- **the session store** (`authSlice.js`):
  - `isTokenExpired` over the three-part compact JWS form (section 7.1 of
    RFC 7515) and its `exp` claim (section 4.1.4 of RFC 7519);
  - login and its error classification, and the fail-closed restore;
  - logout as written, and the reducer with its session invariant;
- **the notification queue** (`notificationSlice.js`): append, remove by id,
  clear, and the add-then-expire protocol of `showNotification`;
- **the catalog/data cache** (`dataSlice.js`): five sub-slices with their own
  loading/error/items, and the conditional merge of `fetchAllData`;
- **the components' rules**:
  - the product and customer search filters;
  - the cart panel's handlers and button rules;
  - the route guard and the login page;
  - the add-to-cart guard;
  - the order-status styling, item preview and body branch of the
    customer-orders modal.

Each store slice is a datatype state, a pure `Reduce(state, action)` whose
contract gives the case-by-case frame, and a class whose `Dispatch` assigns
the fields in place and is proved equal to `Reduce`. A series of
dispatches is `Store.Replay`, the reducer applied to each action in turn,
shared by every slice. The data cache's
reducer is split the way its cases are grouped: the single fetches, the
`fetchAllData` load and the plain reducers. A network call is a
`Reply` (`Failed(fault)` or `Replied(value)`). A thunk returns a `Run`: its
result (`Ok`/`Err`) and the requests it sent. Thunks that send several
requests take a backend function from the request history to a reply.
`localStorage` is a `Storage` value passed in and handed back. The clock and
the token decoder (`JSON.parse(atob(...))`) are parameters. Components
produce the list of `Effect`s they dispatch.

Several behaviours of the code as written are modelled as they are, not
corrected:

- `logoutUser` calls `dispatch(clearAllData())` with neither name in scope
  (src/store/authSlice.js:208). It clears storage, then always rejects with
  "dispatch is not defined". The store therefore keeps its session
  (`Auth.LogoutKeepsStoreSession`).
- `handleClearCart` dispatches the local `clearCart` action and calls
  `unwrap` on the plain action it returns, which throws. Only the local
  cache is emptied: no request is sent and no notification is shown
  (`CartPanel.ClearCartClick`).
- The category list stores a category's numeric id (CategoryList.js:34),
  while the product filter compares category names. Any non-zero id then
  hides every product (`PosMain.CategoryIdShowsNothing`).
- The cart panel reads the store's `isLoading` under the name
  `isPlacingOrder`. `placeOrder` sets only the store's own `isPlacingOrder`,
  so the place-order button stays enabled while an order is in flight
  (`CartPanel.PlaceOrderStaysEnabledWhilePlacing`).
- The customer-orders modal's effect cleanup sees the `open` of the render
  that set it up. Closing the modal therefore does not clear the cached
  orders; reopening clears them and then fetches
  (`CustomerOrdersModal.ClosingKeepsOrders`).
- The customer list query asks for no order count, so in practice every
  listed customer's count is 0 and the view-orders button never shows. The
  model takes the count as input (`CartPanel.ViewOrdersNeedsCount`).

## Model

| member | source | states |
|---|---|---|
| Wrappers.OrElse | src/store/cartSlice.js:290 | `a \|\| b` on strings: `a` when it is non-empty, `b` when `a` is empty; so non-empty whenever the fallback is |
| Wrappers.GuardedRequest | src/store/cartSlice.js:150-156 | a single-request thunk: without a truthy token it rejects with the token message and sends nothing; otherwise it sends exactly its request, fulfils with the reply, or rejects with `error.message \|\| fallback`, never empty |
| Text.ToLower | src/components/POSMain.js:92-93 | ASCII lower-casing keeps the length and lower-cases each character |
| Text.ToLowerIdempotent | src/components/CustomerOrdersModal.js:37 | lower-casing twice is lower-casing once |
| Text.Contains | src/components/POSMain.js:92-93 | `includes`: true iff the needle occurs at some position |
| Text.ContainsEmpty | src/components/CustomerModal.js:6-9 | every string includes the empty string |
| Text.ContainsSelf | src/components/CustomerModal.js:6-9 | every string includes itself |
| Text.Count | src/store/authSlice.js:91-92 | the number of separators is at most the length, and zero iff the separator is absent |
| Text.Split | src/store/authSlice.js:91-92 | `split` yields one more part than there are separators, and no part contains one |
| Text.JoinSplit | src/store/authSlice.js:91-92 | joining the parts of a split restores the string |
| Text.SplitJoin | src/store/authSlice.js:91-92 | splitting a join of separator-free parts gives the parts back |
| Text.SplitFree | src/store/authSlice.js:91-92 | a string without separators splits into itself |
| Text.ParseInt | src/components/CartPanel.js:41 | `parseInt` of an item id: no number iff the string does not start with a digit; otherwise the decimal value of its longest digit prefix, which is non-negative |
| Text.DigitPrefixOfRun | src/components/CartPanel.js:41 | the digit prefix of a run of digits followed by a non-digit is exactly that run |
| Text.ParseIntReadsLeadingDigits | src/components/CartPanel.js:41 | digits followed by nothing or by a non-digit parse to the value of those digits, whatever follows |
| Seqs.Filter | src/store/notificationSlice.js:22-24 | `filter` keeps exactly the elements passing the test, with their multiplicities, and never grows |
| Seqs.FilterIsSubsequence | src/components/POSMain.js:90 | the filtered list is an order-preserving subsequence of the input |
| Seqs.FilterKeepsAll | src/components/POSMain.js:90-99 | when every element passes, the list comes back unchanged |
| Seqs.FilterAppend | src/store/notificationSlice.js:22-24 | filtering distributes over concatenation |
| Seqs.FilterIdempotent | src/store/notificationSlice.js:22-24 | filtering twice with one test is filtering once |
| Seqs.FilterSameTest | src/components/POSMain.js:90-99 | two tests that agree on every element filter alike |
| Store.ReplayAppend | src/store/store.js:7-13 | dispatching `xs` and then `ys` reaches the state dispatching `xs + ys` reaches |
| Store.ReplayOne | src/store/store.js:7-13 | one dispatch is one call of the slice's reducer |
| Store.ReplayTwo | src/store/store.js:7-13 | two dispatches are two reducer calls, in order |
| Notifications.Reduce | src/store/notificationSlice.js:11-28 | add appends one entry at the end, keeping the rest, with duration 5000 by default; remove drops every entry with the id, keeps all others' counts and order, and is a no-op for an absent id; clear empties |
| Notifications.RemoveIdempotent | src/store/notificationSlice.js:21-25 | removing an id twice is removing it once |
| Notifications.Show | src/store/notificationSlice.js:35-43 | `showNotification` adds an entry under the clock id with the given duration and schedules a removal of that same id after that duration |
| Notifications.ShowThenExpire | src/store/notificationSlice.js:35-43 | add followed by its scheduled removal equals removing that id from the list as it was: nothing of the new entry remains |
| Notifications.SameMillisecondCollision | src/store/notificationSlice.js:36 | two notifications shown in the same millisecond share an id, and the first one's expiry removes both |
| Notifications.NotificationStore.constructor | src/store/notificationSlice.js:3-5 | the queue starts empty |
| Notifications.NotificationStore.Dispatch | src/store/notificationSlice.js:11-28 | the in-place push/filter/reset equals `Reduce` on the old list |
| Auth.IsTokenExpired | src/store/authSlice.js:87-105 | an absent or empty token, or one without exactly two dots, is expired |
| Auth.CompactTokenExpiry | src/store/authSlice.js:91-100 | for a three-part token: expired iff the payload does not decode, or `exp` is present, non-zero and before the current second; a missing `exp` and `exp` equal to now are live |
| Auth.UserOf | src/store/authSlice.js:150-161 | the user's name is firstname, a space, lastname; the role is "Cashier"; id, email and profile are carried over |
| Auth.LoginErrorMessage | src/store/authSlice.js:163-178 | `graphQLErrors[0].message \|\| 'Authentication failed'` when there is a GraphQL error; else the fixed network message when there is a network error; else `error.message \|\| 'Login failed'`; never empty |
| Auth.LoginUser | src/store/authSlice.js:108-180 | fulfils iff a non-empty token was issued and a profile returned; then it returns that token and user, stores both and welcomes; otherwise storage is untouched and the message is the classified error of a failed token mutation or profile query, 'Failed to generate authentication token' for an empty token, or 'Failed to fetch customer data' for a null customer; the profile query is sent only for a usable token |
| Auth.LogoutUser | src/store/authSlice.js:183-216 | as written: revokes a stored token if any, clears storage, and always rejects with "dispatch is not defined" |
| Auth.CheckAuthStatus | src/store/authSlice.js:219-275 | no token or no user data rejects with 'No valid session found', and an expired token with 'Token has expired', both without a request; otherwise exactly the customer query is sent: a thrown query rejects with `error.message \|\| 'Authentication check failed'`, a null customer with 'Token is invalid or expired', and a customer restores the stored token with that customer's user and the welcome-back notification, keeping storage; every rejection clears storage |
| Auth.RestoreSucceeds | src/store/authSlice.js:239-264 | a stored, unexpired token whose profile query returns a customer leaves the store authenticated and initialized, not loading, without error, holding the stored token and that customer's user, with storage kept and the welcome-back notification shown |
| Auth.Reduce | src/store/authSlice.js:286-354 | keeps "authenticated iff token and user present"; `isInitialized` only rises, and only on restore settling; login/restore fulfilled set the session and clear the error; rejections and logout clear it; logout rejected only sets the error and stops loading; `clearError` clears only the error and `setLoading` sets only the loading flag; other actions leave the session alone |
| Auth.SessionConsistentAlways | src/store/authSlice.js:286-354 | the session invariant holds after any sequence of actions |
| Auth.InitializedStays | src/store/authSlice.js:337-352 | once initialized, the store stays initialized |
| Auth.LoginOutcome | src/store/authSlice.js:300-317 | after a login settles, the store is authenticated with a non-empty token and no error iff the backend issued a token and returned a profile; otherwise it holds a non-empty error and no token |
| Auth.RestoreFailsClosed | src/store/authSlice.js:226-234 | restoring with an absent, malformed or expired token never authenticates, always initializes, clears storage and sends nothing |
| Auth.LogoutKeepsStoreSession | src/store/authSlice.js:183-216 | after logout as written, storage is empty but the store keeps its user, token and authenticated flag, with the ReferenceError message as its error |
| Auth.AuthStore.constructor | src/store/authSlice.js:277-284 | the store starts with the initial state |
| Auth.AuthStore.Dispatch | src/store/authSlice.js:286-354 | the field-by-field updates equal `Reduce` on the old state |
| Cart.CreateCart | src/store/cartSlice.js:159-173 | token guard; one `createEmptyCart` request; fulfils with the reply or rejects with its message or "Failed to create cart" |
| Cart.FetchCart | src/store/cartSlice.js:175-191 | token guard; one uncached cart query; fulfils with the reply or rejects with its message or "Failed to fetch cart" |
| Cart.AddToCart | src/store/cartSlice.js:193-208 | token guard; one add request with exactly the given sku and quantity; "Failed to add item to cart" as fallback |
| Cart.PlaceOrder | src/store/cartSlice.js:295-310 | token guard; one place-order request; "Failed to place order" as fallback |
| Cart.RemoveFromCart | src/store/cartSlice.js:210-246 | token guard; the remove goes first; a second request is sent iff the remove failed, and it is the sku's quantity-0 re-add or, without a sku, a refetch; the result is the reply of the last request, and it rejects only when that fallback failed too, with `error.message \|\| 'Failed to remove item from cart'` |
| Cart.ClearCartItems | src/store/cartSlice.js:248-293 | token guard; fetches the cart first; a failed fetch or a null cart rejects after that single request; otherwise the log is `ClearLog` over the fetched items, in order, and the result is always the empty cart under the given id |
| Cart.ItemIds | src/store/cartSlice.js:266 | the reference list of the items' `parseInt` ids, in order, against which `Cart.ClearRemovesEveryItem` states what the loop removes |
| Cart.ClearRemovesEveryItem | src/store/cartSlice.js:261-281 | every fetched item gets exactly one remove, in list order, whatever the backend answers |
| Cart.ClearLogShape | src/store/cartSlice.js:261-281 | the log extends the initial fetch; every later request targets the cart and is a remove or a quantity-0 re-add; a re-add follows a remove the backend rejected; one to two requests per item |
| Cart.Reduce | src/store/cartSlice.js:322-443 | pending sets loading and clears the error; rejections set the error and keep id, items, total and order number; create fulfilled sets the id with an empty cart; a non-null cart payload replaces id, items (default empty) and total (default 0) and a null one only stops loading; placing uses its own flag and on success sets the order number and empties the cart, keeping the id; the local clear empties items and total and drops the order number; `clearError`, `setOrderNumber` and `clearOrderNumber` change only the error or the order number |
| Cart.FailuresKeepCart | src/store/cartSlice.js:344-441 | any run of pending, rejected and flag actions leaves id, items and total as they were |
| Cart.ClearedStoreIsEmpty | src/store/cartSlice.js:410-421 | a settled `clearCartItems` leaves the store with the cleared id, no items, zero total, not loading, no error |
| Cart.CartStore.constructor | src/store/cartSlice.js:312-320 | the store starts with the initial state |
| Cart.CartStore.Dispatch | src/store/cartSlice.js:322-443 | the field-by-field updates equal `Reduce` on the old state |
| Catalog.FetchProducts | src/store/dataSlice.js:348-366 | token guard; one products query with page size 20 and page 1 unless given; "Failed to fetch products" as fallback |
| Catalog.CategoriesParent | src/store/dataSlice.js:375 | the parent id is sent iff it is truthy, else null |
| Catalog.FetchCategories | src/store/dataSlice.js:368-386 | token guard; one categories query for that parent; "Failed to fetch categories" as fallback |
| Catalog.FetchCustomers | src/store/dataSlice.js:388-406 | token guard; one customers query, default page size 20, page 1; "Failed to fetch customers" as fallback |
| Catalog.FetchOrders | src/store/dataSlice.js:408-426 | token guard; one orders query, default page size 20, page 1; "Failed to fetch orders" as fallback |
| Catalog.FetchCustomerOrders | src/store/dataSlice.js:428-449 | token guard; one query for the customer; fulfils with the customer and its orders page; a missing customer rejects with the TypeError message |
| Catalog.Settled | src/store/dataSlice.js:456-474 | a settled child gives its value iff it fulfilled |
| Catalog.FetchAllData | src/store/dataSlice.js:451-480 | never rejects; the products and categories entries are present iff their fetch fulfilled, and hold its value; customers and orders are always absent |
| Catalog.AllDataRequests | src/store/dataSlice.js:456-460 | with a token, the load requests 50 products of page 1 and the categories under "2" |
| Catalog.ReduceFetch | src/store/dataSlice.js:548-618 | a single fetch's actions touch only its own sub-slice; pending sets loading and clears the error; rejected stops loading, stores the message and keeps the cached data; fulfilled stops loading, keeps the error and replaces the items (with total count and page info; for categories only the items; for customer orders the customer and its orders page) |
| Catalog.ReduceLoad | src/store/dataSlice.js:620-665 | the load never touches customer orders; pending sets the four loading flags and keeps errors and data; rejected stops all four and writes one message to all four errors, keeping data; fulfilled stops all four, keeps their errors, overwrites exactly the entries present in the payload and initializes the store |
| Catalog.ReduceClear | src/store/dataSlice.js:526-543 | clearing errors nulls all five errors and keeps every flag and cache; clearing all data returns the initial state; clearing customer orders resets that sub-slice alone |
| Catalog.FetchesCommute | src/store/dataSlice.js:548-618 | actions of two different fetches commute |
| Catalog.PostLoginLoad | src/store/dataSlice.js:451-480 | after the load's full action sequence, in either settle order: initialized, nothing loading, each fetched sub-slice holds its new items or its old items and the failure message, customers, orders and customer orders untouched |
| Catalog.DataStore.constructor | src/store/dataSlice.js:482-520 | the store starts with the initial state |
| Catalog.DataStore.Dispatch | src/store/dataSlice.js:522-665 | the in-place sub-slice assignments equal `Reduce` on the old state |
| Catalog.DataStore.DispatchFetch | src/store/dataSlice.js:548-618 | a single fetch's case, assigned in place, equals `ReduceFetch` on the old state |
| Catalog.DataStore.DispatchLoad | src/store/dataSlice.js:620-665 | the load's cases, assigned in place, equal `ReduceLoad` on the old state |
| Catalog.DataStore.DispatchClear | src/store/dataSlice.js:526-543 | the plain reducers, assigned in place, equal `ReduceClear` on the old state |
| Catalog.DataStore.SetFlags | src/store/dataSlice.js:548-618 | a pending or rejected case assigns only that sub-slice's flag and error |
| PosMain.FilterProducts | src/components/POSMain.js:90-99 | a product is shown iff it matches the search (empty, or in the lower-cased name or sku) and the category (empty, or among its category names) |
| PosMain.FilteredIsSubsequence | src/components/POSMain.js:90 | the shown products keep their order |
| PosMain.NoCriteriaShowsAll | src/components/POSMain.js:91-96 | with no search and no category, every product is shown, in order |
| PosMain.SearchIgnoresCase | src/components/POSMain.js:92-93 | searching for the lower-cased text shows the same products |
| PosMain.CategoryIdShowsNothing | src/components/POSMain.js:95-96 | a non-zero category id, as the category list stores it, shows no product |
| PosMain.ProductBrowser.constructor | src/components/POSMain.js:90-99 | search and category start empty |
| PosMain.ProductBrowser.SearchChange | src/components/POSMain.js:107-110 | a new search text always drops the category |
| PosMain.ProductBrowser.ClearSearch | src/components/POSMain.js:123-126 | both are cleared and every product is shown again |
| PosMain.ProductBrowser.SelectCategory | src/components/CategoryList.js:34 | the category becomes the picked id; the search stays |
| PosMain.StartUp | src/components/POSMain.js:60-69 | nothing without a token; otherwise load the data and create a cart, then fetch the cart iff creation fulfilled with a truthy id, using that id |
| PosMain.StartUpFetchesCreatedCart | src/components/POSMain.js:60-69 | the cart fetched at start-up is the one the backend created, and only when it created one |
| PosMain.NavClick | src/components/POSMain.js:112-121 | Refresh refetches 50 products of page 1 and notifies; only Orders opens the history; other items dispatch nothing |
| CustomerModal.FilterCustomers | src/components/CustomerModal.js:6-9 | a customer is listed iff the lower-cased name or e-mail contains the lower-cased search |
| CustomerModal.FilteredIsSubsequence | src/components/CustomerModal.js:6 | the listed customers keep their order |
| CustomerModal.EmptySearchKeepsAll | src/components/CustomerModal.js:6-9 | an empty search lists every customer, in order |
| CustomerModal.FindsByOwnEmail | src/components/CustomerModal.js:6-9 | searching for a customer's own e-mail lists that customer |
| CustomerModal.Listed | src/components/CustomerModal.js:11 | nothing renders when closed; otherwise exactly the matching customers |
| CustomerModal.Select | src/components/CustomerModal.js:73 | choosing a customer reports it, then closes |
| CartPanel.Phone | src/components/CartPanel.js:33 | the first address's telephone when present and non-empty, else "N/A" |
| CartPanel.FormatCustomer | src/components/CartPanel.js:29-38 | name is firstname, a space, lastname; phone as above; orders is the count or 0; the rest carried over |
| CartPanel.FormatCustomers | src/components/CartPanel.js:29-38 | one formatted entry per customer, in order |
| CartPanel.ViewOrdersNeedsCount | src/components/CustomerModal.js:59 | for a listed customer the view-orders button shows iff a handler exists and the backend's count is positive |
| CartPanel.RemoveItem | src/components/CartPanel.js:40-43 | remove by the parsed id with the sku, then a success notification at once |
| CartPanel.QuantityChange | src/components/CartPanel.js:45-52 | a new quantity of 0 or less removes the item; otherwise the sku is added with the new quantity, never a non-positive one |
| CartPanel.MinusNeverRemoves | src/components/CartPanel.js:153 | an enabled minus button lowers the quantity by one, to at least 1, and never removes |
| CartPanel.ClearCartClick | src/components/CartPanel.js:54-67 | nothing without a cart id; otherwise only the local clear action, after which the handler throws |
| CartPanel.ClearCartIsLocal | src/components/CartPanel.js:54-57 | the click empties the cached items and total, keeps the cart id, and throws |
| CartPanel.PlaceOrderClick | src/components/CartPanel.js:69-80 | nothing without a cart id or with an empty cart; otherwise place the order, then the success or error notification |
| CartPanel.PlaceOrderStaysEnabledWhilePlacing | src/components/CartPanel.js:228 | while an order is pending, a non-empty idle cart keeps the place-order button enabled |
| ProtectedRoute.Decide | src/components/ProtectedRoute.js:7-40 | spinner iff not initialized or loading; login redirect carrying the location iff a protected route has no session; `/pos` redirect iff a guest route has one; children iff `requireAuth` equals `isAuthenticated`; `requireAuth` defaults to true |
| ProductList.AddToCartClick | src/components/ProductList.js:23-34 | nothing without a cart id or while loading; otherwise one unit of the sku, then "<name> added to cart" or the error notification |
| ProductList.EnabledButtonAddsOne | src/components/ProductList.js:75 | an enabled button means the product is in stock, and a click adds one unit when a cart exists and nothing before one is created |
| LoginPage.EnabledButtonSubmits | src/pages/Login.js:87 | an enabled login button has both fields filled |
| LoginPage.Submit | src/pages/Login.js:21-26 | login is dispatched iff both fields are non-empty, with those fields |
| LoginPage.RedirectTarget | src/pages/Login.js:30 | the guarded page's path when present and non-empty, else "/pos" |
| LoginPage.AfterLogin | src/pages/Login.js:21-35 | navigation happens iff the login was submitted and fulfilled, to the redirect target |
| LoginPage.LoginReturnsToGuardedPage | src/pages/Login.js:28-32 | a visitor the route guard sent to login comes back to the guarded page |
| LoginPage.EditEffects | src/pages/Login.js:58-61 | an edit clears the error iff one is shown |
| LoginPage.EditHidesError | src/pages/Login.js:73-76 | after an edit no error is shown, and nothing else in the session store changes |
| LoginPage.MountHidesError | src/pages/Login.js:16-19 | the freshly mounted page shows no error, whatever an earlier visit left, and the rest of the session store is untouched |
| LoginPage.LoginForm.constructor | src/pages/Login.js:8 | both fields start empty |
| LoginPage.LoginForm.EditUsername | src/pages/Login.js:58-61 | sets the username, keeps the password, and clears a shown error |
| LoginPage.LoginForm.EditPassword | src/pages/Login.js:73-76 | sets the password, keeps the username, and clears a shown error |
| CustomerOrdersModal.Setup | src/components/CustomerOrdersModal.js:12-15 | open with a customer: fetch its first 20 orders; otherwise nothing |
| CustomerOrdersModal.Cleanup | src/components/CustomerOrdersModal.js:17-21 | the cleanup clears the customer orders iff the render that set it up was closed |
| CustomerOrdersModal.ClosingKeepsOrders | src/components/CustomerOrdersModal.js:12-22 | closing the modal dispatches nothing |
| CustomerOrdersModal.ReopeningClearsThenFetches | src/components/CustomerOrdersModal.js:12-22 | reopening for a customer clears the store, then fetches that customer's orders |
| CustomerOrdersModal.Render | src/components/CustomerOrdersModal.js:85-173 | nothing when closed; then loading, then a truthy error with its message, then the orders when there are any, else the empty state |
| CustomerOrdersModal.FetchThenShow | src/components/CustomerOrdersModal.js:85-173 | while the fetch runs the spinner shows; once it fulfils the fetched orders or the empty state show, whatever the store held |
| CustomerOrdersModal.FailureShowsMessage | src/components/CustomerOrdersModal.js:90-101 | a failed fetch shows its message |
| CustomerOrdersModal.StatusIcon | src/components/CustomerOrdersModal.js:36-49 | the icon is that of the status's class: complete/completed, processing/pending, shipped, or other (including absent) |
| CustomerOrdersModal.StatusColor | src/components/CustomerOrdersModal.js:51-64 | the colour is that of the same class |
| CustomerOrdersModal.IconAndColorAgree | src/components/CustomerOrdersModal.js:36-64 | two statuses share an icon iff they share a class iff they share a colour |
| CustomerOrdersModal.StatusIgnoresCase | src/components/CustomerOrdersModal.js:37 | the class does not depend on ASCII case |
| CustomerOrdersModal.PreviewItems | src/components/CustomerOrdersModal.js:142-157 | no section without items; otherwise the first at most three items, and "+N more" iff there are more than three, with N the rest |
| CustomerOrdersModal.PreviewCountsEveryItem | src/components/CustomerOrdersModal.js:146-154 | shown items plus the "more" count equal the number of items |

## Left out

- The GraphQL documents and the Apollo client construction: each request is an abstract reply, and a missing nested field of a reply (such as a null `removeItemFromCart`) is a failed reply.
- `localStorage`, `atob`, `JSON.parse` and `Date.now`: storage is a value, decoding and the clock are parameters.
- `setTimeout`: expiry is the explicit later removal in `Notifications.Show`, with no timing claim.
- Floating-point money: totals are opaque integers. Tax, the payable amount, `toFixed` formatting and the summed "total spent" are not modelled.
- Async interleaving of overlapping thunks, which the code does not fence. Only `Catalog.FetchesCommute` speaks to order.
- Console logging, and the presentation-only files (sidebar, top bar, logo, spinners, empty state, notification view, app shell, store setup, category product view, the category list's rendering).
- Local UI state without logic: the active nav item, the mobile menu, the clear-cart confirmation, the modal open flags, the selected customer, `handleLogout`'s navigation, the Enter-key shortcut (it calls the same `handleLogin`), and the orders modal's retry button (the same fetch as `Setup`).
- Text.ToLower: ASCII letters only; JavaScript's full Unicode lower-casing is not modelled.
- Cart.ClearCartItems: a remove that returns a null `removeItemFromCart` is a failed reply here, as everywhere in the model, so a quantity-0 re-add follows it; the source never reads that result in this loop and sends no re-add.
- Text.ParseInt: digit prefixes only; leading whitespace, signs and radix prefixes are not modelled.
- Auth.IsTokenExpired: `exp` is an integer or absent; a non-numeric `exp` claim is not modelled.
- Catalog.ReduceFetch: fulfilled payloads are non-null pages; the TypeError a null `products`/`customers`/`orders` result would raise inside the reducer is not modelled.
- Cart.Reduce: the placed order is taken as its order number; a null order object (a TypeError inside the reducer) is not modelled.
- Catalog.FetchProducts: the `filters` argument is not modelled; no caller passes one.
- ProductList's and CustomerModal's display details (image fallback, price, avatar initial, order-count pluralisation) and CartPanel's `handleViewCustomerOrders`.
- The clear-cart, add and login disabled rules, and the empty-product-list condition, are predicates (`CartPanel.ClearCartDisabled`, `ProductList.AddDisabled`, `LoginPage.LoginDisabled`, `ProductList.ShowsEmptyState`). They carry no contract of their own and are used by the lemmas above.
