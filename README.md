# ShopVue storefront: a Dafny model

ShopVue is a small shop. Its front end is a set of Vue pages, and its back end is a Django REST API:

- the product list (`products.html`);
- the search results;
- the cart page and the cart side panel;
- the checkout;
- sign-in and sign-up;
- the account page, the address form and the location picker.

Each page keeps the shopper's cart in browser storage under `shopvue_cart`. The checkout keeps the server-side cart in step with that cart. It then creates the delivery address and the order on the server, and records the order in the browser under `shopvue_orders`.

This project models the pages' own logic:

- the cart arithmetic and the cart edits;
- the cart synchronisation run at checkout;
- the voucher, delivery and tax rules;
- the form checks (e-mail and phone recognisers, password strength);
- the address book and the order history of the account page;
- the API layer's transformations and its fallbacks to mock data;
- the back end's cart, order, search, login and registration rules.

A page whose methods update its `data()` fields is a Dafny `class`, with those fields and with `modifies` clauses. Browser storage entries are fields of the page too; they hold `Option` values, `None` standing for an absent key. Pure helpers such as computed properties, formatters and transformations are functions, and lemmas state what they promise.

Server calls, browser storage reads, clocks and user confirmations are parameters of the methods that use them. The model therefore holds for every answer the server might give.

Modules:

| module | file | models |
|---|---|---|
| `Wrappers` | wrappers.dfy | `Option`, for null, undefined and missing keys |
| `Strings` | strings.dfy | `trim`, `split`, `join`, `includes`, `toUpperCase`/`toLowerCase` on ASCII letters |
| `Sorting` | sorting.dfy | `Array.prototype.sort` with a comparator, as a stable insertion sort |
| `Config` | config.dfy | `config.js` |
| `Catalog` | catalog.dfy | products as the pages hold them, the mock products |
| `CartLines` | cart_lines.dfy | the cart array every page shares |
| `ApiService` | api_service.dfy | `services/api.js` |
| `CartSync` | cart_sync.dfy | the cart synchronisation in `checkout-app.js` |
| `Checkout` | checkout.dfy | `checkout-app.js` |
| `CartPage` | cart_page.dfy | `cart-app.js` |
| `CartSidebar` | cart_sidebar.dfy | `components/CartSidebar.js` |
| `ProductsPage` | products_page.dfy | `products-app.js` |
| `SearchPage` | search_page.dfy | `search-app.js` |
| `Addresses` | addresses.dfy | the address formatters shared by several pages |
| `AddressFormPage` | address_form_page.dfy | `address-form-app.js` |
| `AccountPage` | account_page.dfy | `account-app.js` |
| `Validators` | validators.dfy | the e-mail and phone regular expressions, and the error maps |
| `AuthPage` | auth_page.dfy | `auth-app.js` |
| `AccountSidebar` | account_sidebar.dfy | `components/AccountSidebar.js` |
| `Initials` | initials.dfy | the `userInitials` computed property (see Findings) |
| `LocationModal` | location_modal.dfy | `components/LocationSelectionModal.js` |
| `BackendViews` | backend_views.dfy | `backend/api/views.py` |
| `Serializers` | serializers.dfy | `backend/api/serializers.py` |

Some modelling conventions:

- Money is an exact `real`.
- The server cart is a map from product id to its entry id and quantity.
- Every cart call the synchronisation issues has an outcome, taken from a parameter sequence: done, a "404" error, or another error.

## Model

| member | source | states |
|---|---|---|
| Wrappers.GetOr | ecommerce/assets/js/account-app.js:171-172 | A page's fallback to a default for a missing field: a present value is returned as it is, and a missing one gives the default. |
| Config.ApiBaseUrl | ecommerce/assets/js/config.js:15-24 | The base URL is always either the `/api` proxy path or the local server at port 8000. |
| Config.ApiBaseUrlIff | ecommerce/assets/js/config.js:15-24 | The local server is chosen exactly for `localhost` and `127.0.0.1`. A Netlify host always gets the proxy path. |
| Catalog.MockProducts | ecommerce/assets/js/services/api.js:450-458 | The fallback catalogue has exactly six products. |
| Catalog.InCategory | ecommerce/assets/js/services/api.js:100-103 | The category filter keeps only products of that category and never adds any. |
| Catalog.InCategoryMembers | ecommerce/assets/js/services/api.js:100-103 | A product is kept exactly when it was listed and has that category. |
| Strings.Contains | ecommerce/assets/js/services/api.js:128-130 | `String.prototype.includes`. Strings.ContainsIff states that it holds exactly when the text occurs at some offset. |
| Strings.Trim | ecommerce/assets/js/services/api.js:125 | `String.prototype.trim`. Strings.TrimIsCore and Strings.TrimEmptyIff state what it returns. |
| Strings.TrimStart | ecommerce/assets/js/address-form-app.js:449-455 | What remains never starts with white space and is no longer than the input. |
| Strings.TrimStartSpec | ecommerce/assets/js/address-form-app.js:449-455 | Trimming the front removes only white space, and keeps the rest as a suffix. |
| Strings.TrimEnd | ecommerce/assets/js/address-form-app.js:449-455 | What remains never ends with white space. |
| Strings.TrimEndSpec | ecommerce/assets/js/address-form-app.js:449-455 | Trimming the back removes only white space, and keeps the rest as a prefix. |
| Strings.TrimOffset | ecommerce/assets/js/address-form-app.js:449-455 | The trimmed text lies inside the original. |
| Strings.TrimIsCore | ecommerce/assets/js/address-form-app.js:449-455 | `trim()` returns the slice between two runs of white space. The slice neither starts nor ends with white space. |
| Strings.TrimEmptyIff | ecommerce/assets/js/services/api.js:113-115 | A string trims to "" exactly when all of it is white space. |
| Strings.UpperChar | ecommerce/assets/js/checkout-app.js:357 | Lower-case ASCII letters become upper-case; every other character is kept. |
| Strings.LowerChar | ecommerce/assets/js/products-app.js:161-175 | Upper-case ASCII letters become lower-case; every other character is kept. |
| Strings.ToUpper | ecommerce/assets/js/checkout-app.js:357 | Upper-cases each character in place and keeps the length. |
| Strings.ToLower | ecommerce/assets/js/products-app.js:161-175 | Lower-cases each character in place and keeps the length. |
| Strings.ContainsIff | ecommerce/assets/js/services/api.js:125-132 | `includes` holds exactly when the text occurs at some offset. |
| Strings.Join | ecommerce/assets/js/components/LocationSelectionModal.js:142 | Joining one piece gives that piece. |
| Strings.Present | ecommerce/assets/js/components/LocationSelectionModal.js:136-141 | Keeps exactly the non-empty parts, in order. |
| Strings.JoinPresentEmptyIff | ecommerce/assets/js/components/LocationSelectionModal.js:142 | Non-empty parts join to "" only when there are none. The first part starts the result. |
| Strings.Split | ecommerce/assets/js/account-app.js:46 | `split` always yields at least one piece. |
| Strings.SplitJoin | ecommerce/assets/js/account-app.js:46 | Joining the pieces with the separator gives back the original name. |
| Strings.SplitPiecesClean | ecommerce/assets/js/account-app.js:46 | No piece contains the separator. |
| Strings.SplitWithoutSeparator | ecommerce/assets/js/account-app.js:46-50 | A name without a space is one piece, so it takes the `substring(0, 2)` branch. |
| Strings.SplitWithSeparator | ecommerce/assets/js/account-app.js:46-48 | A name with a space splits into at least two pieces, so it takes the two-initials branch. |
| Sorting.SortBy | ecommerce/assets/js/products-app.js:141-196 | The sorted list is a permutation of the input. |
| Sorting.SortBySorted | ecommerce/assets/js/products-app.js:141-196 | With a comparator that is a total preorder, the output is ordered by it. |
| Sorting.SortByKeepsSorted | ecommerce/assets/js/products-app.js:141-196 | A list already in order comes back unchanged. This is not a stability claim: for other inputs the order of equal elements is not stated. |
| CartLines.AddOrIncrement | ecommerce/assets/js/products-app.js:290-320 | The reference definition of the local add: bump the first line holding the product, else push a new line. CartLines.AddOrIncrementSpec and CartLines.AddLine state what it promises. |
| CartLines.Count | ecommerce/assets/js/cart-app.js:110 | The reference definition of the badge count, the sum of the quantities. CartLines.CountAppend and CartLines.CountAfterSetQuantity state what it promises. |
| CartLines.Subtotal | ecommerce/assets/js/cart-app.js:33-37 | The reference definition of the subtotal reduce, the sum of price × quantity over the lines. CartLines.SubtotalAppend and CartLines.SubtotalNonNegative state what it promises. |
| CartLines.SubtotalAppend | ecommerce/assets/js/cart-app.js:33-37 | The subtotal reduce is additive over concatenation. |
| CartLines.CountAppend | ecommerce/assets/js/cart-app.js:110 | The unit-count reduce is additive over concatenation. |
| CartLines.CountAfterSetQuantity | ecommerce/assets/js/cart-app.js:118-128 | Setting one line's quantity moves the count by exactly the difference. |
| CartLines.SubtotalNonNegative | ecommerce/assets/js/cart-app.js:33-37 | With no negative price and no negative quantity, the subtotal is never negative. |
| CartLines.Ids | ecommerce/assets/js/cart-app.js:119 | The ids of the lines, one per line, in cart order. |
| CartLines.FindIndex | ecommerce/assets/js/cart-app.js:119 | `find` by id gives the first line with that id. It gives nothing exactly when no line has the id. |
| CartLines.RemoveId | ecommerce/assets/js/cart-app.js:134-137 | The filter leaves no line with that id and never adds lines. |
| CartLines.RemoveIdMembers | ecommerce/assets/js/cart-app.js:134-137 | A line is kept exactly when it was in the cart and has another id. |
| CartLines.RemoveIdAppend | ecommerce/assets/js/cart-app.js:134-137 | Filtering distributes over concatenation, so kept lines keep their order. |
| CartLines.RemoveAbsentId | ecommerce/assets/js/cart-app.js:134-137 | Removing an id no line has changes nothing. |
| CartLines.RemoveIdUnique | ecommerce/assets/js/cart-app.js:134-137 | With one line per id, removing line k's id removes exactly line k. |
| CartLines.RemoveIdKeepsUnique | ecommerce/assets/js/cart-app.js:134-137 | Removing lines keeps at most one line per product id. |
| CartLines.NewLine | ecommerce/assets/js/search-app.js:173-179 | A new line carries the product's id and price, with quantity 1. |
| CartLines.AddOrIncrementSpec | ecommerce/assets/js/search-app.js:163-181 | Adding raises the unit count by one. A product already in the cart has exactly its first line bumped by one. Any other product is appended as a new line. |
| CartLines.AddOrIncrementKeepsUnique | ecommerce/assets/js/search-app.js:163-181 | Adding keeps at most one line per product id. |
| CartLines.AddLine | ecommerce/assets/js/search-app.js:163-181 | The in-place bump-or-push equals the specification. It raises the count by one and keeps ids unique. |
| CartLines.SetQuantity | ecommerce/assets/js/cart-app.js:121 | Only line k changes: its quantity becomes q, and its id, name, price and image are kept. |
| CartLines.SetQuantityKeepsUnique | ecommerce/assets/js/cart-app.js:121 | Setting a quantity keeps ids unique. |
| ApiService.MapCartItem | ecommerce/assets/js/services/api.js:311-316 | One server cart line as `getCart` maps it. ApiService.GetCartItems states the mapping field by field. |
| ApiService.ProductsByCategory | ecommerce/assets/js/services/api.js:93-105 | `getProductsByCategory`, falling back on the mock products of the category. ApiService.ProductsInFallback states the failure case. |
| ApiService.ProductsIn | ecommerce/assets/js/services/api.js:93-105 | The reference definition of `getProductsByCategory` with its fallback list as a parameter. ApiService.ProductsInFallback states the failure case. |
| ApiService.SearchProducts | ecommerce/assets/js/services/api.js:112-134 | `searchProducts`, falling back on the mock products. ApiService.SearchInSpec states its cases. |
| ApiService.SearchIn | ecommerce/assets/js/services/api.js:112-134 | The reference definition of `searchProducts` with its fallback list as a parameter. ApiService.SearchInSpec states its three cases. |
| ApiService.AuthToken | ecommerce/assets/js/services/api.js:13-15 | A non-empty access token wins; otherwise the legacy `auth_token` is used. |
| ApiService.AuthHeaders | ecommerce/assets/js/services/api.js:18-24 | There is an `Authorization: Bearer <token>` header exactly when a non-empty token is found; otherwise there are no headers. |
| ApiService.TransformProduct | ecommerce/assets/js/services/api.js:27-41 | Id, name, description, price and slug are copied. A falsy image, original price, discount, rating or review count gets its default. The category becomes its slug. |
| ApiService.TransformDefaultsOnlyWhenMissing | ecommerce/assets/js/services/api.js:27-41 | A default appears only when the server's field was missing or falsy; a present field is kept. |
| ApiService.TransformCategory | ecommerce/assets/js/services/api.js:43-51 | Description defaults to "" and image to the placeholder, so the image is never empty. |
| ApiService.TransformAll | ecommerce/assets/js/services/api.js:79-81 | `map` transforms each product in place and keeps the length. |
| ApiService.FilterMatching | ecommerce/assets/js/services/api.js:125-132 | The client-side search keeps only matching products and never adds any. |
| ApiService.FilterMatchingMembers | ecommerce/assets/js/services/api.js:125-132 | A product is kept exactly when it was listed and its name, description or category contains the lower-cased term. |
| ApiService.SearchInSpec | ecommerce/assets/js/services/api.js:112-134 | A blank query gives no results. A failed request gives the client-side filter of the mock products. A successful one gives the transformed answer. |
| ApiService.ProductsInFallback | ecommerce/assets/js/services/api.js:93-105 | When the server fails, exactly the mock products of that category are listed. |
| ApiService.RegisterPayload | ecommerce/assets/js/services/api.js:139-160 | The e-mail is both username and e-mail, and the password is sent twice. With no full name, both names are "". |
| ApiService.RegisterNameRoundTrip | ecommerce/assets/js/services/api.js:151-152 | First name, a space and last name give back the full name that was split. |
| ApiService.GetCartItems | ecommerce/assets/js/services/api.js:309-316 | Paginated results or a bare array are mapped line by line: each line keeps its id and quantity, its product is the transformed product, and a missing total reads as 0. Any other answer is an empty cart. |
| CartSync.Sync | ecommerce/assets/js/checkout-app.js:405-475 | The reference definition of the whole sync: fetch, add/update loop, then removal loop unless aborted. CartSync.SyncCallsJustified, SyncConverges, InSyncIsQuiet and SyncIdempotent state what it promises, and CartSync.RunSync is proved equal to it. |
| CartSync.RemovalPass | ecommerce/assets/js/checkout-app.js:451-463 | The reference definition of the removal loop. CartSync.RemovalPassJustified, RemovalPassConverges and RemovalPassQuiet state what it promises, and CartSync.RemovalLoop is proved equal to it. |
| CartSync.ItemsPass | ecommerce/assets/js/checkout-app.js:419-448 | The reference definition of the add/update loop at checkout (the same loop on load is at checkout-app.js:236-247). CartSync.ItemsPassJustified, ItemsPassConverges and ItemsPassQuiet state what it promises, and CartSync.ItemsLoop is proved equal to it. |
| CartSync.SnapIds | ecommerce/assets/js/checkout-app.js:419-448 | The product ids of the fetched server cart, in order. |
| CartSync.SnapshotFind | ecommerce/assets/js/checkout-app.js:421 | `backendCart.find` gives the first server entry for the product. It gives nothing exactly when the server cart lacks the product. |
| CartSync.ItemsPassJustified | ecommerce/assets/js/checkout-app.js:419-448 | The add/update loop issues only justified adds and updates, and never a removal. |
| CartSync.RemovalPassJustified | ecommerce/assets/js/checkout-app.js:450-463 | The removal loop only appends calls. Each removes a server entry whose product the browser lacks. |
| CartSync.RemovalPassOnlyRemoves | ecommerce/assets/js/checkout-app.js:450-463 | The removal loop appends removals only. |
| CartSync.SyncCallsJustified | ecommerce/assets/js/checkout-app.js:404-476 | Every call made during a sync is justified by the two carts; no call is made up. |
| CartSync.ItemsPassConverges | ecommerce/assets/js/checkout-app.js:419-448 | With every call succeeding, every local product ends with its local quantity and other server entries are untouched. |
| CartSync.RemovalPassConverges | ecommerce/assets/js/checkout-app.js:450-463 | With every call succeeding, exactly the products the browser lacks are removed. |
| CartSync.SyncConverges | ecommerce/assets/js/checkout-app.js:221-260 | With a faithful snapshot, unique local ids and every call succeeding, the server cart ends mirroring the browser cart. |
| CartSync.ItemsPassQuiet | ecommerce/assets/js/checkout-app.js:419-448 | Lines already mirrored on the server make no call. |
| CartSync.RemovalPassQuiet | ecommerce/assets/js/checkout-app.js:450-463 | Server entries whose products the browser holds are never removed. |
| CartSync.InSyncIsQuiet | ecommerce/assets/js/checkout-app.js:404-476 | A cart already mirrored on the server makes no calls, whatever the mode and the outcomes. |
| CartSync.SyncIdempotent | ecommerce/assets/js/checkout-app.js:404-476 | After a fully successful sync, a second one makes no calls and changes nothing. |
| CartSync.ItemsPassAddsOnTop | ecommerce/assets/js/checkout-app.js:409-448 | Against an empty snapshot every line is added. The server's merge puts local quantities on top of what it holds. |
| CartSync.FetchFailureAddsOnTop | ecommerce/assets/js/checkout-app.js:409-416 | At checkout a failed cart fetch still adds every line. Products already on the server end with the two quantities summed. |
| CartSync.LoadFetchFailureIsQuiet | ecommerce/assets/js/checkout-app.js:228-260 | On page load a failed cart fetch abandons the sync before any call. |
| CartSync.CheckoutRemovalCovers | ecommerce/assets/js/checkout-app.js:450-463 | At checkout the removal loop never aborts: removal errors are ignored. It issues a removal for every entry the browser lacks. |
| CartSync.CheckoutAbortSkipsRemoval | ecommerce/assets/js/checkout-app.js:438-447 | At checkout an error other than 404 in the add/update loop skips the removal loop entirely. |
| CartSync.CheckoutRemovesOrphans | ecommerce/assets/js/checkout-app.js:450-463 | When the add/update loop completes, every server entry the browser lacks gets a remove call. |
| CartSync.RunSync | ecommerce/assets/js/checkout-app.js:404-476 | The imperative sync (fetch, add/update loop, removal loop) equals the specification `Sync`. |
| CartSync.ItemsLoop | ecommerce/assets/js/checkout-app.js:419-448 | The add/update `for` loop equals `ItemsPass`. |
| CartSync.RemovalLoop | ecommerce/assets/js/checkout-app.js:450-463 | The removal `for` loop equals `RemovalPass`. |
| Checkout.FormValid | ecommerce/assets/js/checkout-app.js:126-145 | The order gate: the six address fields, the card fields when paying by card, and a non-empty cart. Checkout.CardIrrelevantOffCard states that the card fields matter only for card payment. |
| Checkout.LookupVoucher | ecommerce/assets/js/checkout-app.js:99-104 | The four voucher codes and their discounts. Checkout.VoucherDiscountBounded states that each discounts between 0 and the subtotal. |
| Checkout.CheckoutTax | ecommerce/assets/js/checkout-app.js:118-122 | Tax is exactly one tenth of the subtotal less the discount, so between 0 and that amount when the discount is within the subtotal. |
| Checkout.CheckoutTotal | ecommerce/assets/js/checkout-app.js:123-125 | The total is (subtotal − discount) × 1.1 + delivery, and never below the delivery price. |
| Checkout.DeliveryOnlyShiftsTotal | ecommerce/assets/js/checkout-app.js:123-125 | Changing the delivery option moves the total by exactly the change in delivery price; delivery is not taxed. |
| Checkout.DeliveryPrice | ecommerce/assets/js/checkout-app.js:319-322 | The price is never negative. A non-zero price is the price of an option with that value. |
| Checkout.DeliveryPrices | ecommerce/assets/js/checkout-app.js:34-56 | Standard costs 0, express 9.99 and overnight 19.99. |
| Checkout.UnknownDeliveryIsFree | ecommerce/assets/js/checkout-app.js:319-322 | A value naming no option costs nothing. |
| Checkout.VoucherDiscount | ecommerce/assets/js/checkout-app.js:365-370 | A percent voucher takes rate% of the subtotal. A fixed voucher takes its amount, capped at the subtotal. |
| Checkout.VoucherDiscountBounded | ecommerce/assets/js/checkout-app.js:349-374 | Every accepted code discounts between nothing and the whole subtotal. |
| Checkout.Digits | ecommerce/assets/js/checkout-app.js:339 | Stripping non-digits leaves only digits and never lengthens the text. |
| Checkout.FormatExpiry | ecommerce/assets/js/checkout-app.js:338-344 | The result is at most five characters and all digits except a '/' at position 2. The '/' appears once two digits are typed. |
| Checkout.FormatExpiryKeepsDigits | ecommerce/assets/js/checkout-app.js:338-344 | The digits kept are the first (at most four) digits typed, in order. |
| Checkout.FormatExpiryIdempotent | ecommerce/assets/js/checkout-app.js:338-344 | Reformatting an already formatted value changes nothing. |
| Checkout.CardIrrelevantOffCard | ecommerce/assets/js/checkout-app.js:126-146 | The card fields affect the form check only when paying by card. |
| Checkout.FindAddress | ecommerce/assets/js/checkout-app.js:481-485 | Finds the first listed address with the same street, city and zip code. It finds none exactly when no listed address matches. |
| Checkout.NewAddressRequest | ecommerce/assets/js/checkout-app.js:487-501 | The created address copies the street, city and zip code. The country defaults to Kuwait; the type is "home", not default. |
| Checkout.ResolveAddressId | ecommerce/assets/js/checkout-app.js:478-507 | A matching listed address's id is reused; otherwise the created address's id, if any, is used. |
| Checkout.MatchingAddressReused | ecommerce/assets/js/checkout-app.js:481-502 | When a listed address matches, no new address is needed: the id of the first match is used. |
| Checkout.OrderId | ecommerce/assets/js/checkout-app.js:538-540 | The server's order number if it gave one, else "ORD-" and the upper-cased stamp. Never empty. |
| Checkout.OrderEmail | ecommerce/assets/js/checkout-app.js:542 | The account e-mail, else the delivery e-mail, else "guest". Never empty. |
| Checkout.OrderStatus | ecommerce/assets/js/checkout-app.js:553 | The server's status, else "pending". |
| Checkout.LinesFromServer | ecommerce/assets/js/checkout-app.js:267-287 | One cart line per server entry, carrying its product's id, price and the entry's quantity. |
| Checkout.LoadedCartMirrorsServer | ecommerce/assets/js/checkout-app.js:267-287 | A browser cart loaded from a faithful server listing mirrors the server cart. |
| Checkout.CheckoutPage.constructor | ecommerce/assets/js/checkout-app.js:14-105 | The initial page: empty cart, standard delivery at 0, card payment, no voucher; storage as found, including whether the recorded orders parse. |
| Checkout.CheckoutPage.UpdateDeliveryTimeline | ecommerce/assets/js/checkout-app.js:319-322 | The shown delivery price is the chosen option's price. |
| Checkout.CheckoutPage.FormatExpiryDate | ecommerce/assets/js/checkout-app.js:338-344 | Only the expiry field changes, to the formatted text. |
| Checkout.CheckoutPage.ApplyVoucher | ecommerce/assets/js/checkout-app.js:349-374 | An empty code shows "Please enter a voucher code". A code unknown after upper-casing and trimming shows "Invalid voucher code". A known one is applied with its percent or capped fixed discount, which lies within a non-negative subtotal. |
| Checkout.CheckoutPage.RemoveVoucher | ecommerce/assets/js/checkout-app.js:379-384 | Code, flag, discount and error all return to their initial values. |
| Checkout.CheckoutPage.SaveAddress | ecommerce/assets/js/checkout-app.js:312-314 | The delivery address is written to storage. |
| Checkout.CheckoutPage.LoadCartFromStorage | ecommerce/assets/js/checkout-app.js:221-293 | A saved cart is loaded and counted. When signed in with a token and the cart is non-empty, it is synced to the server. When signed in and the cart is still empty, a non-empty server cart is loaded and saved. The server cart changes only through the sync. |
| Checkout.CheckoutPage.PendingOrder | ecommerce/assets/js/checkout-app.js:538-555 | The recorded order carries the cart, the address, the totals computed by the page's rules, and the voucher exactly when one is applied. |
| Checkout.CheckoutPage.OrderRequestFor | ecommerce/assets/js/checkout-app.js:511-517 | The order body carries the address id, the delivery price, the discount, and a voucher note exactly when one is applied. |
| Checkout.CheckoutPage.PlaceOrder | ecommerce/assets/js/checkout-app.js:389-593 | An invalid form changes nothing. Otherwise the address is saved, and exactly when signed in with a token the cart is synced and an order request with the resolved address id is sent. The server takes the order only if its cart is non-empty, and then empties that cart. When the recorded orders parse, one order record is appended to them, using the server's number when there is one; the saved cart is removed, and the page cart is emptied when signed in. When they do not parse, no record is written and both browser carts stay, after the server calls have been made. |
| Checkout.CheckoutPage.RecordOrder | ecommerce/assets/js/checkout-app.js:557-575 | Readable orders get the pending order appended, the saved cart removed and, when signed in, the page cart emptied. Unreadable orders leave all of these as they were. |
| CartPage.Tax | ecommerce/assets/js/cart-app.js:38-41 | Tax is exactly one tenth of the subtotal, so between 0 and the subtotal when that is non-negative. |
| CartPage.Total | ecommerce/assets/js/cart-app.js:42-44 | The total is 1.1 times the subtotal, and never below it. |
| CartPage.CartPage.constructor | ecommerce/assets/js/cart-app.js:46-49 | Mounting loads the saved cart, if any, and counts its units. |
| CartPage.CartPage.PageTotal | ecommerce/assets/js/cart-app.js:42-44 | The page total is 1.1 times the cart subtotal. |
| CartPage.CartPage.SaveCartToStorage | ecommerce/assets/js/cart-app.js:108-111 | Storage holds the cart and the badge shows its unit count; the cart is unchanged. |
| CartPage.CartPage.UpdateQuantity | ecommerce/assets/js/cart-app.js:118-128 | An unknown id changes nothing. A quantity ≤ 0 removes the line. Otherwise the line's quantity is set. When the line exists the cart is saved. Unique ids stay unique. |
| CartPage.CartPage.RemoveItem | ecommerce/assets/js/cart-app.js:134-137 | Exactly the lines with other ids are kept, and the cart is saved. |
| CartPage.CartPage.ClearCart | ecommerce/assets/js/cart-app.js:142-147 | Once confirmed the cart, its storage and the badge are emptied; otherwise nothing changes. |
| CartPage.CartPage.ProceedToCheckout | ecommerce/assets/js/cart-app.js:232-238 | Checkout is reached exactly when the cart is not empty. |
| CartPage.RemoveLowersSubtotal | ecommerce/assets/js/cart-app.js:134-137 | Removing a line lowers the subtotal by its total and the count by its quantity. |
| CartPage.SubtotalSplit | ecommerce/assets/js/cart-app.js:33-37 | A line contributes its total to the subtotal wherever it sits. |
| CartPage.CountSplit | ecommerce/assets/js/cart-app.js:110 | A line contributes its quantity to the count wherever it sits. |
| CartSidebar.IncreaseQuantity | ecommerce/assets/js/components/CartSidebar.js:86-88 | The plus button asks for the same line with its quantity plus one. |
| CartSidebar.DecreaseQuantity | ecommerce/assets/js/components/CartSidebar.js:89-95 | The minus button asks for removal exactly when one unit or fewer is left; otherwise it asks for the quantity minus one, which is at least 1. |
| CartSidebar.ButtonsKeepQuantitiesPositive | ecommerce/assets/js/components/CartSidebar.js:86-98 | Pressing plus or minus never leaves a line with fewer than one unit. |
| CartSidebar.ButtonsMoveCountByOne | ecommerce/assets/js/components/CartSidebar.js:86-98 | With one line per product, each press moves the unit count by exactly one. |
| ProductsPage.SortProducts | ecommerce/assets/js/products-app.js:136-199 | The reference definition of what `applySort` leaves. ProductsPage.SortProductsSpec and ProductsPage.OrderedBy state that it is a permutation ordered by the chosen key. |
| ProductsPage.CategoryFilter | ecommerce/assets/js/products-app.js:115-121 | The reference definition of the category filter in `loadProducts`. ProductsPage.CategoryFilterSpec states what it keeps. |
| ProductsPage.CategoryNames | ecommerce/assets/js/products-app.js:90-99 | The eight known slugs and their display names. ProductsPage.GetCategoryName states how they are used. |
| ProductsPage.GetCategoryName | ecommerce/assets/js/products-app.js:88-101 | A known slug gets its (different, non-empty) display name; any other slug is shown as it is. |
| ProductsPage.CategoryFilterSpec | ecommerce/assets/js/products-app.js:115-121 | With a non-empty selected category, exactly its products are listed; otherwise all of them. |
| ProductsPage.ComparatorIsPreorder | ecommerce/assets/js/products-app.js:141-196 | Every sort option installs a total preorder when the collation is one. |
| ProductsPage.SortProductsSpec | ecommerce/assets/js/products-app.js:136-199 | The result is a permutation of the list. "default" and unknown options keep it as it is. Each other option orders it by its key. |
| ProductsPage.OrderedBy | ecommerce/assets/js/products-app.js:141-196 | Price ascending or descending, discount descending, newest (id) first, name A–Z or Z–A, as the option promises. |
| ProductsPage.ProductsPage.constructor | ecommerce/assets/js/products-app.js:51-73 | The category comes from the URL, the sort is "default", the saved cart is loaded and counted. |
| ProductsPage.ProductsPage.CartChanged | ecommerce/assets/js/products-app.js:74-81 | The watcher recounts the badge and saves the cart. |
| ProductsPage.ProductsPage.LoadProducts | ecommerce/assets/js/products-app.js:106-131 | A failed fetch sets the error message and leaves both lists as they were. Otherwise the fetched list becomes the full list, and the shown list is its selected category, sorted. Loading ends off either way. The cart, panel and dialog fields are outside its frame, so they do not change. |
| ProductsPage.ProductsPage.ApplySort | ecommerce/assets/js/products-app.js:136-199 | The list becomes its sorted copy, a permutation of it. Its frame is the shown list alone, so nothing else changes. |
| ProductsPage.ProductsPage.HandleAddToCart | ecommerce/assets/js/products-app.js:286-341 | The product is bumped or appended, the count rises by one, the cart is saved, the panel opens and the dialog closes. |
| ProductsPage.ProductsPage.UpdateQuantity | ecommerce/assets/js/products-app.js:348-353 | The matching line's quantity is set, whatever it is; no line is dropped. A change is saved. Only the cart, its count and the stored cart can change. |
| ProductsPage.ProductsPage.RemoveCartItem | ecommerce/assets/js/products-app.js:359-361 | Exactly the lines with other ids are kept; the watcher saves. Only the cart, its count and the stored cart change. |
| SearchPage.SearchPage.constructor | ecommerce/assets/js/search-app.js:51-70 | The query is the trimmed `q` parameter; the saved cart is loaded and counted. |
| SearchPage.SearchPage.ResultsCount | ecommerce/assets/js/search-app.js:47-49 | The count is 0 exactly when there are no results. |
| SearchPage.SearchPage.SaveCartToStorage | ecommerce/assets/js/search-app.js:107-110 | Storage holds the cart and the badge shows its unit count. |
| SearchPage.SearchPage.PerformSearch | ecommerce/assets/js/search-app.js:115-138 | A blank query clears the results. A failed search shows the error and no results. Otherwise the server's results are shown. The query, the cart, the panel and the dialog do not change. |
| SearchPage.SearchPage.HandleAddToCart | ecommerce/assets/js/search-app.js:163-181 | The product is bumped or appended, the count rises by one, the cart is saved, the panel opens. |
| SearchPage.SearchPage.UpdateQuantity | ecommerce/assets/js/search-app.js:195-201 | The matching line's quantity is set and saved; an id with no line changes nothing. Only the cart, its count and the stored cart can change. |
| SearchPage.SearchPage.RemoveCartItem | ecommerce/assets/js/search-app.js:207-210 | Exactly the lines with other ids are kept, and the cart is saved. Only the cart, its count and the stored cart change. |
| Addresses.FormatDeliveryAddress | ecommerce/assets/js/address-form-app.js:617-629 | The reference definition of `formatDeliveryAddress`. Addresses.FormatDeliveryAddressSpec states its cases. |
| Addresses.FormatAddress | ecommerce/assets/js/components/LocationSelectionModal.js:135-143 | The reference definition of `formatAddress`. Addresses.FormatAddressSpec states its cases. |
| Addresses.Abbreviate | ecommerce/assets/js/account-app.js:304-305 | A street of up to 30 characters is kept. A longer one is cut to its first 30 characters followed by "...". |
| Addresses.FormatDeliveryAddressSpec | ecommerce/assets/js/account-app.js:296-308 | A text address is shown as it is. A record shows city, state and country joined, else the abbreviated street, else "Select location". The result is never empty. |
| Addresses.FormatAddressSpec | ecommerce/assets/js/components/LocationSelectionModal.js:135-143 | The set parts are joined, street first. An address with none shows "Address not specified". Never empty. |
| AddressFormPage.SaveInto | ecommerce/assets/js/address-form-app.js:459-477 | The reference definition of the book after a save. AddressFormPage.SaveIntoSpec and AddressFormPage.SaveKeepsAtMostOneDefault state what it promises. |
| AddressFormPage.AddressErrors | ecommerce/assets/js/address-form-app.js:370-420 | The reference definition of the address form's error map. AddressFormPage.AddressErrorsIff and AddressFormPage.AddressErrorsEmptyIff state when it is empty. |
| AddressFormPage.ParseInt | ecommerce/assets/js/address-form-app.js:139 | `parseInt` on the index parameter. AddressFormPage.ParseIntOfDigits states that a run of digits reads as its value. |
| AddressFormPage.LeadingDigits | ecommerce/assets/js/address-form-app.js:134-156 | The longest run of digits at the start of the index text. |
| AddressFormPage.ParseIntOfDigits | ecommerce/assets/js/address-form-app.js:134-156 | A plain run of digits reads as its decimal value. |
| AddressFormPage.EditIndex | ecommerce/assets/js/address-form-app.js:134-156 | Edit mode is entered exactly when an index is given, the book is not empty, and the index parses to a position within the book. |
| AddressFormPage.TrimmedLengthIsTrim | ecommerce/assets/js/address-form-app.js:375-419 | The length checks measure the trimmed field. |
| AddressFormPage.AddressErrorsIff | ecommerce/assets/js/address-form-app.js:370-420 | The form passes exactly when every field has its minimum trimmed length and the phone is valid. |
| AddressFormPage.AddressErrorsEmptyIff | ecommerce/assets/js/address-form-app.js:370-420 | The error map is empty exactly when no field has a message. |
| AddressFormPage.TrimEach | ecommerce/assets/js/address-form-app.js:449-455 | Trimming each field keeps the number of fields. |
| AddressFormPage.TrimEachSpec | ecommerce/assets/js/address-form-app.js:449-455 | Each field is trimmed in place. |
| AddressFormPage.TrimmedSpec | ecommerce/assets/js/address-form-app.js:447-458 | Saving stores each text field trimmed and keeps the type and the default flag. |
| AddressFormPage.ClearOthers | ecommerce/assets/js/address-form-app.js:470-477 | Clearing the other defaults keeps the number of addresses. |
| AddressFormPage.SaveIntoSpec | ecommerce/assets/js/address-form-app.js:459-477 | An edit overwrites that position and an add appends. A default record clears every other default flag, and nothing else changes. |
| AddressFormPage.SaveKeepsAtMostOneDefault | ecommerce/assets/js/address-form-app.js:459-477 | Saving never leaves two default addresses. |
| AddressFormPage.AddressFormPage.constructor | ecommerce/assets/js/address-form-app.js:57-68 | The book is the user's stored book when it parses and is non-empty, else the delivery address alone, else empty. Edit mode loads the addressed record, otherwise the blank form. |
| AddressFormPage.AddressFormPage.LoadAddresses | ecommerce/assets/js/address-form-app.js:106-129 | Signed out, nothing changes. Otherwise a stored book is loaded, a book that does not parse empties the list, and an absent one keeps it. An empty list then becomes the saved delivery address alone. |
| AddressFormPage.AddressFormPage.CheckEditMode | ecommerce/assets/js/address-form-app.js:134-156 | A readable index enters edit mode and loads that address into the form; otherwise nothing changes. |
| AddressFormPage.AddressFormPage.ValidateForm | ecommerce/assets/js/address-form-app.js:370-420 | The error map is filled field by field, and the form passes exactly when it is empty. |
| AddressFormPage.AddressFormPage.HandleSubmit | ecommerce/assets/js/address-form-app.js:433-497 | A failed check shows the error and saves nothing. A passed one saves the trimmed address and keeps at most one default. The e-mail, the edit mode and the form itself do not change. |
| AddressFormPage.AddressFormPage.SaveChecked | ecommerce/assets/js/address-form-app.js:442-485 | After a passed check the trimmed record is saved at the edited position or appended. |
| AddressFormPage.AddressFormPage.Save | ecommerce/assets/js/address-form-app.js:459-485 | The book becomes `SaveInto` of the old book and is stored. A default record also becomes the delivery address. |
| AccountPage.SpliceOne | ecommerce/assets/js/account-app.js:383 | `Array.prototype.splice(index, 1)`. AccountPage.SpliceOneSpec states it for every index. |
| AccountPage.AddressesAfterLoad | ecommerce/assets/js/account-app.js:207-259 | The reference definition of the book `loadAddresses` leaves. AccountPage.AddressesAfterLoadSpec states its cases. |
| AccountPage.OrdersAfterLoad | ecommerce/assets/js/account-app.js:158-202 | The reference definition of the list and count `loadOrders` leaves. AccountPage.OrdersAfterLoadSpec states what it promises, and AccountPage.AccountPage.LoadOrders is proved equal to it. |
| AccountPage.ServerOrders | ecommerce/assets/js/account-app.js:167-179 | The server orders as `loadOrders` shows them. AccountPage.ServerOrdersSpec states the mapping order by order. |
| AccountPage.AdoptTab | ecommerce/assets/js/account-app.js:63-68 | A `tab` parameter naming a tab is adopted; anything else keeps the current tab. |
| AccountPage.ServerOrdersSpec | ecommerce/assets/js/account-app.js:167-180 | Server orders are shown one for one, with the account's e-mail and 5% of the subtotal as tax. A missing item list or address becomes empty. |
| AccountPage.OwnOrders | ecommerce/assets/js/account-app.js:190-201 | The account's filter never adds orders. |
| AccountPage.OwnOrdersMembers | ecommerce/assets/js/account-app.js:190-201 | An order is listed exactly when it was recorded with the account's e-mail. |
| AccountPage.OwnOrdersAllIff | ecommerce/assets/js/account-app.js:190-201 | Nothing is dropped exactly when every recorded order is the account's. |
| AccountPage.OwnOrdersAppend | ecommerce/assets/js/account-app.js:190-201 | One more recorded order is listed at the end exactly when it carries the account's e-mail. |
| AccountPage.PlacedOrderListed | ecommerce/assets/js/checkout-app.js:538-560 | An order placed while signed in shows up in that account's history. |
| AccountPage.OrdersAfterLoadSpec | ecommerce/assets/js/account-app.js:158-202 | After a load that read something, the count equals the number listed. Listed records are the account's own; server orders carry its e-mail. |
| AccountPage.RecordOf | ecommerce/assets/js/account-app.js:216-229 | The server's snake-case fields map one for one onto the address book's fields. |
| AccountPage.AddressesAfterLoadSpec | ecommerce/assets/js/account-app.js:207-259 | The server's list is shown one for one. Otherwise a non-empty stored book is shown; the saved delivery address stands in exactly when the book is empty. |
| AccountPage.SpliceOneSpec | ecommerce/assets/js/account-app.js:381-386 | `splice(index, 1)` drops exactly that address and keeps the rest in order. Negative indexes count from the end; an index past the end changes nothing. |
| AccountPage.MergeSettings | ecommerce/assets/js/account-app.js:313-322 | Saved keys override, every other current key is kept, and no key is invented. |
| AccountPage.MergeSettingsIdempotent | ecommerce/assets/js/account-app.js:313-322 | Loading the same saved settings twice changes nothing more. |
| AccountPage.MissingKeysKeepDefaults | ecommerce/assets/js/account-app.js:313-322 | A saved blob lacking a notification key keeps its default: e-mail on, SMS off. |
| AccountPage.AccountPage.constructor | ecommerce/assets/js/account-app.js:14-43 | The details tab; no orders or addresses; default settings; storage as found. |
| AccountPage.AccountPage.SelectTabFromUrl | ecommerce/assets/js/account-app.js:63-68 | The tab becomes `AdoptTab` of the current one. |
| AccountPage.AccountPage.LoadOrders | ecommerce/assets/js/account-app.js:158-202 | The list and count become `OrdersAfterLoad`. |
| AccountPage.AccountPage.LoadAddresses | ecommerce/assets/js/account-app.js:207-259 | The book becomes `AddressesAfterLoad`. |
| AccountPage.AccountPage.LoadSettings | ecommerce/assets/js/account-app.js:313-322 | Readable saved settings are merged over the current ones; otherwise nothing changes. |
| AccountPage.AccountPage.SaveSettings | ecommerce/assets/js/account-app.js:327-329 | The current settings become the stored ones. |
| AccountPage.AccountPage.DeleteAddress | ecommerce/assets/js/account-app.js:381-386 | Once confirmed, the address is spliced out and the book stored; otherwise nothing changes. |
| Validators.IsValidEmail | ecommerce/assets/js/auth-app.js:219-222 | `isValidEmail`. Validators.IsValidEmailIff states that it accepts exactly the e-mail pattern's language. |
| Validators.IsValidPhone | ecommerce/assets/js/address-form-app.js:425-428 | `isValidPhone`. Validators.IsValidPhoneIff states that it accepts exactly the phone pattern's language. |
| Validators.ParsePhone | ecommerce/assets/js/address-form-app.js:425-428 | Reads a phone number part by part as the regular expression does. Validators.ParsePhoneSound and Validators.ParsePhoneComplete state that it accepts exactly the well-formed numbers. |
| Validators.ParsePhoneSound | ecommerce/assets/js/auth-app.js:227-230 | Whatever the recogniser accepts is well formed and spells the input. |
| Validators.ParsePhoneComplete | ecommerce/assets/js/auth-app.js:227-230 | Every well-formed number is accepted and read back into the same parts. |
| Validators.IsValidPhoneIff | ecommerce/assets/js/address-form-app.js:425-428 | The phone check accepts exactly the strings that `/^[\+]?[(]?[0-9]{3}[)]?[-\s\.]?[0-9]{3}[-\s\.]?[0-9]{4,6}$/` matches. |
| Validators.IndexOf | ecommerce/assets/js/auth-app.js:219-222 | The first position of the character, or nothing exactly when it is absent. |
| Validators.IsValidEmailSound | ecommerce/assets/js/auth-app.js:219-222 | Every accepted address splits into a user, a host and a top part, none with white space or '@'. |
| Validators.IsValidEmailComplete | ecommerce/assets/js/auth-app.js:219-222 | Every such combination of parts is accepted. |
| Validators.IsValidEmailIff | ecommerce/assets/js/auth-app.js:219-222 | The e-mail check accepts exactly what `/^[^\s@]+@[^\s@]+\.[^\s@]+$/` matches. |
| Validators.EmailRejects | ecommerce/assets/js/auth-app.js:219-222 | The empty string and any string with white space are rejected. |
| Validators.NoteEmptyIff | ecommerce/assets/js/auth-app.js:133-156 | Noting a message leaves the map empty exactly when it was empty and there was no message. |
| Validators.NoteAllEmptyIff | ecommerce/assets/js/auth-app.js:161-214 | The error map stays empty exactly when no check produced a message. |
| Validators.NoteEach | ecommerce/assets/js/auth-app.js:161-214 | The forms' field checks in order: the error map is every failing check's message under its field, and the form passes exactly when the map stays empty. |
| AuthPage.ReadsAsTaken | ecommerce/assets/js/auth-app.js:404-409 | A registration failure message, or "Registration failed" when it is empty, that mentions "already exists", "username" or "email". |
| AuthPage.RegisteredSession | ecommerce/assets/js/auth-app.js:380-387 | The session after a server registration: each returned field, or the form's value when the returned one is empty. |
| AuthPage.ProfileSession | ecommerce/assets/js/auth-app.js:261-279 | The session after a server sign-in: the profile's fields with the trimmed full name or the user name, else the e-mail and its user part. |
| AuthPage.EmailTaken | ecommerce/assets/js/auth-app.js:413-414 | Some browser account has the e-mail. AuthPage.AddKeepsUniqueEmails and AuthPage.AuthPage.RegisterAccount state how it is used. |
| AuthPage.SignupErrors | ecommerce/assets/js/auth-app.js:161-214 | The reference definition of the sign-up error map. AuthPage.SignupErrorsIff and AuthPage.SignupErrorsEmptyIff state when it is empty. |
| AuthPage.LoginErrors | ecommerce/assets/js/auth-app.js:133-156 | The reference definition of the sign-in error map. AuthPage.LoginErrorsIff states when it is empty. |
| AuthPage.Label | ecommerce/assets/js/auth-app.js:80-89 | The meter's class and text for a score: weak up to 2, medium up to 4, strong above. AuthPage.PasswordStrength and AuthPage.StrongNeedsLength state how it is used. |
| AuthPage.OrElse | ecommerce/assets/js/auth-app.js:269 | `a \|\| b` on strings: `a` unless it is empty. |
| AuthPage.Score | ecommerce/assets/js/auth-app.js:60-78 | The strength score is at most 6. |
| AuthPage.PasswordStrength | ecommerce/assets/js/auth-app.js:56-92 | An empty password shows nothing; any other shows the label of its score. |
| AuthPage.ScoreMonotone | ecommerce/assets/js/auth-app.js:60-78 | Typing more never lowers the score. |
| AuthPage.StrongNeedsLength | ecommerce/assets/js/auth-app.js:60-90 | "Strong" needs at least 8 characters; a shorter password scores at most 4. |
| AuthPage.NonEmptyScores | ecommerce/assets/js/auth-app.js:68-78 | A non-empty password scores at least one point. |
| AuthPage.LoginErrorsIff | ecommerce/assets/js/auth-app.js:133-156 | The sign-in form passes exactly when the e-mail is valid and the password has at least 6 characters. An empty e-mail reads "Email is required". |
| AuthPage.SignupErrorsIff | ecommerce/assets/js/auth-app.js:161-214 | The sign-up form passes exactly when the name, e-mail, optional phone, password, confirmation and terms all pass their checks. |
| AuthPage.SignupErrorsEmptyIff | ecommerce/assets/js/auth-app.js:161-214 | The error map is empty exactly when no field has a message. |
| AuthPage.FindUser | ecommerce/assets/js/auth-app.js:306-310 | The first stored account with this e-mail and password, or nothing exactly when there is none. |
| AuthPage.AddKeepsUniqueEmails | ecommerce/assets/js/auth-app.js:412-434 | Adding an account whose e-mail is free keeps e-mails unique. |
| AuthPage.AuthPage.constructor | ecommerce/assets/js/auth-app.js:94-113 | The stored accounts, whether they parse, and the session are as found; both forms start empty. |
| AuthPage.AuthPage.ValidateLoginForm | ecommerce/assets/js/auth-app.js:133-156 | The error map is `LoginErrors`, and the form passes exactly when the e-mail is valid and the password has at least 6 characters. |
| AuthPage.AuthPage.ValidateSignupForm | ecommerce/assets/js/auth-app.js:161-214 | The error map is `SignupErrors`, and the form passes exactly when it is empty. |
| AuthPage.AuthPage.HandleLoginSubmit | ecommerce/assets/js/auth-app.js:235-346 | A form that fails its check sets the field errors and signs nobody in. A server sign-in stores a session built from the returned profile and signs the user in. When the server cannot sign in, a browser account with that e-mail and password is used instead. When there is none, "Invalid email or password" is shown. When the account list does not parse, its parse error's message is shown and nobody is signed in. Remember-me is only ever switched on. The account list, its parse status and the sign-up fields do not change. |
| AuthPage.AuthPage.HandleSignupSubmit | ecommerce/assets/js/auth-app.js:351-459 | A failed check changes only the errors. Otherwise a server registration signs in. A failure reading as a taken account shows the taken message. Then an account list that does not parse shows its parse error, a taken e-mail shows the taken message, and otherwise exactly one browser account is appended and signed in. E-mails stay unique. |
| AuthPage.AuthPage.RegisterAccount | ecommerce/assets/js/auth-app.js:361-452 | A server registration signs in. A failure reading as a taken account shows that error. Otherwise an account list that does not parse shows its parse error, a taken e-mail shows the taken message, and else a browser account is added. |
| AuthPage.AuthPage.LocalSignIn | ecommerce/assets/js/auth-app.js:305-339 | An account list that does not parse shows its parse error and changes nothing else. Otherwise the first account with this e-mail and password is signed in, and remember-me is switched on when asked. No such account shows "Invalid email or password". |
| AuthPage.AuthPage.LocalRegister | ecommerce/assets/js/auth-app.js:412-447 | An account list that does not parse shows its parse error. A taken e-mail shows the taken message. Otherwise exactly one account is appended and signed in. In the first two cases nothing else changes, and e-mails stay unique in every case. |
| AccountSidebar.AvatarInitials | ecommerce/assets/js/components/AccountSidebar.js:108-115 | One or two letters, never a space (corrected; see Findings). |
| AccountSidebar.UserName | ecommerce/assets/js/components/AccountSidebar.js:116-118 | The full name, or "User" when it is missing or empty. |
| AccountSidebar.UserEmail | ecommerce/assets/js/components/AccountSidebar.js:119-121 | The e-mail, or "" when it is missing. |
| AccountSidebar.ActiveTab | ecommerce/assets/js/components/AccountSidebar.js:122-130 | On the account page, a non-empty `tab` parameter; otherwise "details". |
| AccountSidebar.NavigateToAccount | ecommerce/assets/js/components/AccountSidebar.js:136-139 | Emits the tab, then closes. |
| AccountSidebar.HandleLogout | ecommerce/assets/js/components/AccountSidebar.js:140-143 | Emits logout, then closes. |
| Initials.UserInitialsAsWritten | ecommerce/assets/js/account-app.js:44-51 | The initials as the source computes them, with None for the thrown error. Initials.LeadingSpaceShowsUndefined, Initials.BlankNameFails and Initials.UserInitialsAgree state how it differs from the corrected version. |
| Initials.FirstOrUndefined | ecommerce/assets/js/account-app.js:48 | `piece[0]` is the first character, and `undefined` for an empty piece. |
| Initials.UserInitials | ecommerce/assets/js/account-app.js:44-51 | The corrected initials have one or two characters. |
| Initials.UserInitialsNoBlank | ecommerce/assets/js/account-app.js:44-51 | The corrected initials never contain a space. |
| Initials.UserInitialsAgree | ecommerce/assets/js/account-app.js:44-51 | On names without stray spaces, the code as written and the corrected initials agree. |
| Initials.LeadingSpaceShowsUndefined | ecommerce/assets/js/account-app.js:46-48 | For " Ann" the code as written gives "UNDEFINEDA"; the corrected version gives "AN". |
| Initials.BlankNameFails | ecommerce/assets/js/account-app.js:46-48 | For " " the code as written throws; the corrected version gives "U". |
| LocationModal.LocationModal.constructor | ecommerce/assets/js/components/LocationSelectionModal.js:113-124 | The modal opens reset, having emitted nothing. |
| LocationModal.LocationModal.ResetModal | ecommerce/assets/js/components/LocationSelectionModal.js:421-433 | Forgets the choice and the map state; emits nothing. |
| LocationModal.LocationModal.ShowChanged | ecommerce/assets/js/components/LocationSelectionModal.js:125-129 | Hiding resets; showing changes nothing. |
| LocationModal.LocationModal.CloseModal | ecommerce/assets/js/components/LocationSelectionModal.js:413-416 | Emits close and resets. |
| LocationModal.LocationModal.SelectLocation | ecommerce/assets/js/components/LocationSelectionModal.js:393-400 | Reports the choice once, then closes. |
| LocationModal.LocationModal.SelectAddress | ecommerce/assets/js/components/LocationSelectionModal.js:236-239 | A saved address is reported as saved, then the modal closes. |
| LocationModal.LocationModal.OpenMapSelection | ecommerce/assets/js/components/LocationSelectionModal.js:244-252 | The map is shown and any earlier error is cleared; nothing else changes. |
| LocationModal.LocationModal.CancelMapSelection | ecommerce/assets/js/components/LocationSelectionModal.js:379-388 | Leaves the map with no point, map or marker; emits nothing. |
| LocationModal.LocationModal.ConfirmMapLocation | ecommerce/assets/js/components/LocationSelectionModal.js:330-374 | With no point picked, only the error "Please select a location on the map" is set. Otherwise the geocoded address, or an all-empty one when the lookup fails, is reported as picked on the map, and the modal closes and resets. |
| LocationModal.LocationModal.AddNew | ecommerce/assets/js/components/LocationSelectionModal.js:405-408 | Emits add-new-address, then closes. |
| BackendViews.RowsTotal | ecommerce/backend/api/views.py:176 | The sum of the rows' total prices. BackendViews.Store.Total and BackendViews.CreateOrderConsistent state how it is used. |
| BackendViews.AddToCart | ecommerce/backend/api/views.py:138-146 | The reference definition of the cart table after `perform_create`. BackendViews.AddToCartSpec states what it promises, and BackendViews.Store.PerformCreate is proved equal to it. |
| BackendViews.UserRows | ecommerce/backend/api/views.py:135-136 | The user's rows only, never more than the table. |
| BackendViews.OtherRows | ecommerce/backend/api/views.py:205-206 | After deleting, only other users' rows remain. |
| BackendViews.FindRow | ecommerce/backend/api/views.py:139-143 | The row of this user and product, or nothing exactly when there is none. |
| BackendViews.ItemsFor | ecommerce/backend/api/views.py:194-203 | One order item per cart row, in order. |
| BackendViews.AddToCartSpec | ecommerce/backend/api/views.py:138-146 | After an add, that user's units of that product rise by q and no other count changes. There is still one row per user and product. |
| BackendViews.ItemsTotalMatches | ecommerce/backend/api/views.py:194-203 | The order items total exactly the rows they were copied from. |
| BackendViews.OtherRowsSpec | ecommerce/backend/api/views.py:205-206 | Clearing leaves the user nothing and every other user everything. |
| BackendViews.OtherRowsKeepsOneRowEach | ecommerce/backend/api/views.py:205-206 | Deleting rows keeps one row per user and product. |
| BackendViews.Store.constructor | ecommerce/backend/api/views.py:130-136 | The store starts with empty tables. |
| BackendViews.Store.PerformCreate | ecommerce/backend/api/views.py:138-146 | The cart becomes `AddToCart` with the quantity, 1 by default, and keeps one row per user and product. |
| BackendViews.Store.Total | ecommerce/backend/api/views.py:148-153 | The total is the sum of the user's row totals, and the count is their number. |
| BackendViews.Store.CreateOrder | ecommerce/backend/api/views.py:164-209 | An empty cart is refused with "Cart is empty". Otherwise an order totals subtotal + shipping − discount with one item per row, and the user's cart is cleared. |
| BackendViews.CreateOrderConsistent | ecommerce/backend/api/views.py:176-206 | The items total the subtotal; the user's cart is emptied; other users' carts are untouched. |
| BackendViews.Search | ecommerce/backend/api/views.py:50-60 | An empty query gives nothing; every result matches. |
| BackendViews.SearchMembers | ecommerce/backend/api/views.py:35-60 | A product is found exactly when it is active, listed, and its name or description contains the non-empty query, ignoring case. |
| BackendViews.Login | ecommerce/backend/api/views.py:80-107 | A missing or empty field gives "Username and password required". Otherwise the login succeeds, under the given user name, exactly when `authenticate` accepts the pair; else it gives "Invalid credentials". |
| BackendViews.LoginGuardPrecedesCheck | ecommerce/backend/api/views.py:89-95 | An incomplete login never reaches the credential check. |
| Serializers.CategoryRepresentation | ecommerce/backend/api/serializers.py:16-37 | Only the image may change. It is never empty: the uploaded one, else the slug's stock photo, else the placeholder. |
| Serializers.CategoryRepresentationIdempotent | ecommerce/backend/api/serializers.py:16-37 | Representing twice changes nothing more. |
| Serializers.ProductImage | ecommerce/backend/api/serializers.py:59-73 | An image URL wins. Otherwise the upload's absolute or relative URL is used, else none. |
| Serializers.Validate | ecommerce/backend/api/serializers.py:94-97 | `validate()` passes exactly when the two passwords match; otherwise the password field carries the message. |
| Serializers.Create | ecommerce/backend/api/serializers.py:99-108 | The user has the given username, e-mail and password. Missing names become "". |
| Serializers.FrontEndSignUpAccepted | ecommerce/backend/api/serializers.py:94-108 | What the front end's `register()` posts always passes `validate()`'s password-match check. The user created from it is named by the e-mail, with the name split at the first space. |

## Left out

- Browser and server I/O: HTTP requests, `localStorage` and `JSON.parse` become parameters of the methods that read them.
  - An unreadable storage entry is `Corrupt` on the account page and for the address form's book.
  - Checkout.CheckoutPage.PlaceOrder and AuthPage.AuthPage: unreadable recorded orders and an unreadable account list are modelled as a flag and as the parser's message.
  - On the cart, product, search and checkout pages an unreadable cart leaves the initial empty cart, so it is modelled as an absent one. An unreadable delivery address is ignored by the address form, so it too is modelled as an absent one.
  - Redirects, alerts, `console` output and timers are not modelled.
- Floating point: prices are exact reals. `parseFloat`, `toFixed` and rounding are not modelled.
- Clocks: `Date.now()` and `toISOString()` are string parameters (`stamp`, `time`).
- Geolocation, Google Maps, autocomplete and Nominatim reverse geocoding.
  - The modal receives their result as a parameter.
  - LocationModal.LocationModal.ConfirmMapLocation: the `lat` and `lng` a picked address carries are not modelled.
  - `getCurrentLocation`, `reverseGeocode`, `initMap`, the address form's `toggleMap`/`initMap`/`initAutocomplete`/`updateFormFromPlace`/`updateAddressFromMarker`/`useCurrentLocation` are not modelled.
- ProductsPage.SortProducts: `localeCompare` is an abstract collation parameter, required to be a total preorder. Its ordering of names is not modelled beyond that.
- Validators: the two regular expressions are hand-written recognisers, proved equal to the patterns' languages. `\s` is Strings.SpaceChars, ECMAScript's white-space and line-terminator set.
- String lengths: JavaScript's `.length` and `substring` count UTF-16 code units, while the model counts characters. A character outside the Basic Multilingual Plane counts once here and twice in the source's length checks.
- Addresses.Abbreviate: for the same reason, its 30-character cut counts characters, not UTF-16 code units.
- AddressFormPage.ParseInt: skips leading white space and a sign, then reads the leading decimal digits. The "0x" prefix that JavaScript's `parseInt` reads as hexadecimal is not modelled.
- Strings.ToUpper, Strings.ToLower: only ASCII letters change case; Unicode case mapping is not modelled.
- Aliasing: the pages mutate the cart line objects they `find`. The model rewrites the line in the sequence, which is the same as long as no other reference to that object exists.
- Vue reactivity is explicit. A watcher is a method the model calls after the change that triggers it.
- AccountPage.AccountPage.LoadAddresses: a delivery address stored as a plain string is not placed in the book.
- AccountPage.RecordOf: server address ids, `lat` and `lng` are dropped.
- Not modelled on the account page, as they only format, navigate or call the server without changing the modelled state:
  - `loadUserData`, `checkAuthStatus` and `loadCartCount`;
  - `viewOrder`, `formatDate`, `formatPrice`, `editAddress`, `changePassword`;
  - `deleteAccount`, which only clears storage keys and navigates away.
- Checkout: `formatCardNumber`, `loadSavedAddress` and `checkAuthStatus` are not modelled. The sign-in state and token presence are constructor parameters.
- ProductsPage.ProductsPage.HandleAddToCart: the signed-in branch's server calls are not modelled, and their errors are swallowed. The page bumps or pushes the line in memory first. For an existing line it then calls `getCart` and either `updateCartItem` or `addToCart` with the new quantity. For a new line it calls `addToCart(product.id, 1)`. Only after these calls does it save the cart, open the panel and close the dialog. The model covers the local update, the save, the panel and the dialog.
- The pages' navigation, search-box, social-link, header and account-panel handlers only change the location or toggle panels.
- The pure template components (Header, Footer, ProductCard, CategoryCard, ProductModal) are not modelled.
- The back end's category listing and read-only view sets are not modelled. Address CRUD and `get_user` are plain framework defaults.
- Serializers.Validate, Serializers.FrontEndSignUpAccepted: the field validators that run before `validate()` are not modelled. These are `validate_password` on the password, the e-mail format check of `EmailField`, and the uniqueness and format checks the `User` model puts on the user name. So a second sign-up with the same e-mail is refused by the server, which the model does not show.
- JWT token creation in `register` and `login` is not modelled. BackendViews.Login takes `authenticate` as a parameter.
- `models.py` is not part of this model. A cart row's `total_price` is modelled as unit price × quantity.
- `create_sample_data.py`, the admin and the setup scripts are not modelled.

## Findings

| source | as written | input that shows it | evidently intended | confidence | as-written member | corrected member |
|---|---|---|---|---|---|---|
| ecommerce/assets/js/account-app.js:44-51 (the same code in ecommerce/assets/js/components/AccountSidebar.js:108-115) | `fullName.split(' ')` keeps empty pieces. `names[0][0]` of an empty piece is `undefined`, which string concatenation turns into the text "undefined". For an all-space name both ends are `undefined`, their sum is the number NaN, and calling `.toUpperCase()` on it throws. | `" Ann"` shows "UNDEFINEDA"; `" "` throws a TypeError | Initials from the name's words: "AN" for " Ann", and the "U" fallback for a blank name | not executed | Initials.UserInitialsAsWritten, shown by Initials.LeadingSpaceShowsUndefined and Initials.BlankNameFails | Initials.UserInitials, with Initials.UserInitialsNoBlank and Initials.UserInitialsAgree |
