# Jewellery storefront: a Dafny model of its pricing, admin routes and list edits

This project models the deterministic core of a Next.js and Supabase jewellery storefront. That core covers:

- how a product's price is computed from its weight, the metal rate and its making charge, plus 3 % GST;
- how the client-side rate store resolves a rate for a metal and purity, falling back to a built-in table;
- how a product tile prices its product and adds it to the cart;
- the admin API routes: the shared 401/403 admin gate, dashboard statistics, per-customer totals, order enrichment and the order status update;
- order creation and user registration: request validation and the records they build;
- the search and filter predicates of the shop, admin messages and admin customers pages;
- the admin pages that edit lists in place: metal rates, the homepage gallery, the product form's image lists and the order list;
- the homepage categories and the password reset form.

Every database, auth, storage or HTTP call becomes a parameter carrying its outcome:

- `Fetch<T>` is either `Loaded(value)` or `Threw(message)`;
- `Answer` holds `response.ok` and `data.error`;
- an `Option` stands for a nullable column or count.

Pure computations are functions. The pages and the store, whose handlers change state step by step, are classes:

- their fields are the React state or store fields;
- each handler is a method with a `modifies` clause;
- a handler that awaits is split into its part before the await and its part after, and one method composes the two.

Money and every JavaScript number are `real`. `Math.round(x)` is `(x + 1/2).Floor`. Lower-casing is the ASCII map.

Modules, one per source file:

- `Pricing`
- `MetalRatesStore`
- `ProductCard`
- `DashboardRoute`
- `CustomersRoute`
- `AdminOrdersRoute`
- `CreateOrderRoute`
- `RegisterRoute`
- `ShopPage`
- `MessagesPage`
- `CustomersPage`
- `MetalRatesPage`
- `GalleryPage`
- `ProductForm`
- `AdminOrdersPage`
- `Categories`
- `ResetPasswordPage`

Shared helper modules:

- `Types`: the shared records and enumerations;
- `Http`: replies and the admin gate;
- `Wrappers`;
- `JsStrings`, `JsArrays`, `JsRecords` and `JsNumbers`: the JavaScript built-ins the core relies on.

## Model

| member | source | states |
|---|---|---|
| Http.AdminGate | src/app/api/admin/dashboard/route.ts:31-44 | Admitted exactly when there is a user whose profile role is "admin"; no user gives 401 "Unauthorized", any other role 403 "Forbidden" |
| Pricing.CalculateProductPrice | src/lib/utils.ts:17-39 | subTotal = metal price + making charge; the total lies within 1/2 of subTotal + GST |
| Pricing.PriceClosedForm | src/lib/utils.ts:18-31 | Metal price is weight × rate; percentage charge is metalPrice × value / 100, any other type charges the value itself; gst = 3/100 of subTotal; total = Math.round(subTotal × 103/100) |
| Pricing.WorkedExamples | src/lib/utils.ts:17-39 | 10 g at 7200 with 10 % gives 72000 / 7200 / 79200 / 2376 and total 81576; 5 g at 85 with fixed 200 gives subTotal 625, gst 18.75, total 644 |
| Pricing.ZeroRate | src/lib/utils.ts:18-31 | Rate 0 gives total 0 for a percentage charge, and round(value × 1.03) for a fixed one |
| Pricing.NonNegativePrice | src/lib/utils.ts:18-31 | Non-negative weight, rate and charge give a non-negative total |
| Pricing.PriceMonotoneInRate | src/lib/utils.ts:18-31 | With non-negative weight and charge value, a higher rate never lowers the total |
| MetalRatesStore.FallbackRate | src/store/metalRatesStore.ts:14-20 | The five fallback rates (7250, 6850, 5600, 88, 90), and 0 for any other key |
| MetalRatesStore.RowMatches | src/store/metalRatesStore.ts:48-51 | A row matches when its metal equals the asked metal ignoring case and its purity is exactly the asked purity |
| MetalRatesStore.RateFor | src/store/metalRatesStore.ts:44-64 | With no matching row, the fallback for the key; otherwise the rate of some matching row |
| MetalRatesStore.RateForFirstMatch | src/store/metalRatesStore.ts:48-55 | The first matching row in list order decides the rate |
| MetalRatesStore.MetalTypeIgnoresCase | src/store/metalRatesStore.ts:49-50 | Metal names equal ignoring case give the same rate |
| MetalRatesStore.FallbackIgnoresMetalCase | src/store/metalRatesStore.ts:62-63 | With no rows, ("GOLD", "24K") gives 7250 and ("Silver", "92.5") gives 88 |
| MetalRatesStore.FallbackPurityIsExact | src/store/metalRatesStore.ts:50 | With no rows, ("gold", "24k") gives 0 while ("gold", "24K") gives 7250 |
| MetalRatesStore.UnknownPairIsZero | src/store/metalRatesStore.ts:62-63 | Unknown pairs, such as silver 99.9 or any diamond, give 0 |
| MetalRatesStore.LoadedRowBeatsFallback | src/store/metalRatesStore.ts:53-55 | A loaded gold-24K row at 7200 wins over the 7250 fallback |
| MetalRatesStore.StoredZeroWins | src/store/metalRatesStore.ts:53-55 | A matching row whose rate is 0 still wins; the fallback is not consulted |
| MetalRatesStore.MetalRatesState.constructor | src/store/metalRatesStore.ts:23-25 | The store starts with no rates, not loading, no error |
| MetalRatesStore.MetalRatesState.GetRate | src/store/metalRatesStore.ts:44-64 | `getRate` over the store's current rows |
| MetalRatesStore.MetalRatesState.BeginFetch | src/store/metalRatesStore.ts:28 | Loading on, error cleared, rates kept |
| MetalRatesStore.MetalRatesState.CompleteFetch | src/store/metalRatesStore.ts:31-41 | An error is recorded with loading off and the rates kept; rows replace the rates wholesale with loading off |
| MetalRatesStore.MetalRatesState.FetchRates | src/store/metalRatesStore.ts:27-42 | The whole `fetchRates`: replaced rates on success, kept rates and the message on failure |
| ProductCard.CurrentRate | src/components/ProductCard.tsx:30 | The store's rate for the product's metal and purity |
| ProductCard.DisplayedPrice | src/components/ProductCard.tsx:30-32 | The calculator's total at the current rate, the amount shown at line 90 |
| ProductCard.ProductTile.constructor | src/components/ProductCard.tsx:22-27 | A new tile is not adding, with no cart adds, navigations or toasts |
| ProductCard.UnratedProductPricedAtZero | src/components/ProductCard.tsx:30-32 | A diamond product with no matching row is priced from rate 0 |
| ProductCard.DisplayedPriceFromFirstMatch | src/components/ProductCard.tsx:30-32 | The displayed price is the calculator's total at the first matching row's rate |
| ProductCard.ProductTile.HandleAddToCart | src/components/ProductCard.tsx:34-51 | No user: a toast and a redirect to /login, with the cart and `isAdding` unchanged. With a user: `isAdding` is on and exactly one cart add, at the displayed total |
| DashboardRoute.TotalRevenue | src/app/api/admin/dashboard/route.ts:59-62 | The sum of the amounts of the orders that are not cancelled |
| DashboardRoute.ActiveOrders | src/app/api/admin/dashboard/route.ts:64-65 | The active order count is at most the number of orders |
| DashboardRoute.ActiveOrdersIgnoreClosed | src/app/api/admin/dashboard/route.ts:64-65 | Delivered and cancelled orders do not change the active count |
| DashboardRoute.MonthlyRevenueOf | src/app/api/admin/dashboard/route.ts:76-85 | The monthly record the `forEach` leaves, as a reference definition |
| DashboardRoute.MonthlyRevenue | src/app/api/admin/dashboard/route.ts:76-85 | The loop builds the monthly record; its values sum to totalRevenue and its keys are distinct |
| DashboardRoute.MonthlyRevenueSumsToTotal | src/app/api/admin/dashboard/route.ts:59-62 | The monthly values sum to the revenue of the non-cancelled orders |
| DashboardRoute.MonthlyKeysUnique | src/app/api/admin/dashboard/route.ts:88-91 | Each month appears once in the sales data |
| DashboardRoute.MonthlyIgnoresCancelled | src/app/api/admin/dashboard/route.ts:80 | Cancelled orders add to no month |
| DashboardRoute.MonthRevenue | src/app/api/admin/dashboard/route.ts:79-85 | A month's value is the sum of the amounts of its non-cancelled orders |
| DashboardRoute.CategoryKey | src/app/api/admin/dashboard/route.ts:102-103 | A missing or empty metal is "Other"; otherwise the first character is upper-cased and the rest kept |
| DashboardRoute.CategoryKeyExamples | src/app/api/admin/dashboard/route.ts:102-103 | "gold" and "Gold" share the bucket "Gold"; null and "" count as "Other" |
| DashboardRoute.CategoryCountsOf | src/app/api/admin/dashboard/route.ts:99-105 | The per-category record the `forEach` leaves, as a reference definition |
| DashboardRoute.CategoryCountsSumToProducts | src/app/api/admin/dashboard/route.ts:99-105 | The category counts sum to the number of products |
| DashboardRoute.CategoryCount | src/app/api/admin/dashboard/route.ts:101-105 | A category's count is the number of products with that key |
| DashboardRoute.CategoryCounts | src/app/api/admin/dashboard/route.ts:98-105 | The loop builds the category record, empty for null products; it sums to the product count |
| DashboardRoute.RecentOrders | src/app/api/admin/dashboard/route.ts:121 | The first min(5, n) orders, as a prefix |
| DashboardRoute.CountOrZero | src/app/api/admin/dashboard/route.ts:116-117 | A null count is 0 |
| DashboardRoute.DashboardReply | src/app/api/admin/dashboard/route.ts:31-127 | Gate first, then 500 with the orders error. Otherwise the stats are the non-cancelled revenue, the active count and the two counts or 0; the sales data is the monthly record of the orders; the category data is the per-key count of the products (empty for null); the recent orders are the first five. The revenue equals the sum of the sales data |
| DashboardRoute.DeniedBeforeData | src/app/api/admin/dashboard/route.ts:31-44 | A denied request answers 401/403 whatever the data would have been |
| DashboardRoute.GetDashboard | src/app/api/admin/dashboard/route.ts:59-121 | The imperative handler answers what DashboardReply states |
| CustomersRoute.EmailOf | src/app/api/admin/customers/route.ts:67-76 | The email of the auth user with the same id, else "N/A" |
| CustomersRoute.CustomerOf | src/app/api/admin/customers/route.ts:66-81 | id and joined are copied; name and phone default to "N/A"; the email comes from the auth user; order count ≤ the number of orders, and no orders means spend 0 |
| CustomersRoute.Combine | src/app/api/admin/customers/route.ts:66 | One customer per profile, in profile order |
| CustomersRoute.CustomerTotals | src/app/api/admin/customers/route.ts:70-80 | totalOrders is the number of positions in the order list whose user_id is the profile id; totalSpent adds up the amounts at those positions, in list order |
| CustomersRoute.OthersOrdersCountForNoOne | src/app/api/admin/customers/route.ts:70 | An order with a null user id, or another user's id, changes no customer |
| CustomersRoute.OwnOrderCounts | src/app/api/admin/customers/route.ts:70-71 | One more own order adds 1 to the count and its amount to the spend |
| CustomersRoute.TotalOrdersBounded | src/app/api/admin/customers/route.ts:66-71 | With distinct profile ids, the customers' counts sum to at most the number of orders |
| CustomersRoute.CustomersReply | src/app/api/admin/customers/route.ts:31-88 | The gate, then the first failing load (users, profiles, orders) gives 500; otherwise the combined customers |
| AdminOrdersRoute.TruthyUserIds | src/app/api/admin/orders/route.ts:58 | Exactly the non-empty user ids of the orders |
| AdminOrdersRoute.UserIds | src/app/api/admin/orders/route.ts:58 | Each non-empty user id of the orders, and nothing else |
| AdminOrdersRoute.UserIdsDistinct | src/app/api/admin/orders/route.ts:58 | No user id is listed twice |
| AdminOrdersRoute.NoUserIds | src/app/api/admin/orders/route.ts:58 | Guest-only orders list no user ids |
| AdminOrdersRoute.Enrich | src/app/api/admin/orders/route.ts:76-85 | The order is kept whole. Name and phone come from the first matching profile, else "Guest User" / "N/A". Email comes from the matching auth user, else "N/A" |
| AdminOrdersRoute.EnrichAll | src/app/api/admin/orders/route.ts:76-86 | Same length and order; each row enriched |
| AdminOrdersRoute.ProfilesUsed | src/app/api/admin/orders/route.ts:60-67 | No user ids means no profiles are used |
| AdminOrdersRoute.OrdersReply | src/app/api/admin/orders/route.ts:31-93 | Gate, then 500 with the orders error; otherwise one row per order, in order, each the order enriched from the profiles the route used (none without user ids) and the listed auth users |
| AdminOrdersRoute.GuestsWhenNoUserIds | src/app/api/admin/orders/route.ts:61-82 | Without user ids every row is "Guest User" with phone "N/A", whatever the profile table holds |
| AdminOrdersRoute.NameFromProfile | src/app/api/admin/orders/route.ts:77-82 | The first profile with the order's user id names the customer |
| AdminOrdersRoute.SetStatus | src/app/api/admin/orders/route.ts:120-123 | Only the order with the id changes, and only its order_status |
| AdminOrdersRoute.SetStatusIdempotent | src/app/api/admin/orders/route.ts:120-123 | Setting the same status twice equals setting it once |
| AdminOrdersRoute.SetStatusMissingId | src/app/api/admin/orders/route.ts:120-123 | An unknown id leaves the table unchanged |
| AdminOrdersRoute.PutStatus | src/app/api/admin/orders/route.ts:96-131 | The gate first; a body that cannot be read gives 500 with its error; an update error gives 500; both leave the table. Otherwise Ok and the one status changed; Ok exactly in that case |
| CreateOrderRoute.JsField.Render | src/app/api/orders/create/route.ts:51 | A template literal renders a string as itself, undefined as "undefined" and null as "null" |
| CreateOrderRoute.Validate | src/app/api/orders/create/route.ts:42-48 | Missing or empty items give "No items in order", checked first. Then a missing shippingDetails, name or address gives "Shipping details are required" |
| CreateOrderRoute.OnlyNameAndAddressRequired | src/app/api/orders/create/route.ts:46-48 | Phone, city, pincode and email may all be absent |
| CreateOrderRoute.ItemsCheckedFirst | src/app/api/orders/create/route.ts:42-44 | No items and no shipping details answers "No items in order" |
| CreateOrderRoute.ShippingAddress | src/app/api/orders/create/route.ts:51 | The five pieces of the template joined by newlines |
| CreateOrderRoute.ShippingAddressText | src/app/api/orders/create/route.ts:51 | The address is name, phone, address, "city, pincode" and "Email: email" with a newline between each two |
| CreateOrderRoute.LinesOfJoin | src/app/api/orders/create/route.ts:51 | Pieces without newlines, joined by newlines, split back into exactly those pieces |
| CreateOrderRoute.ShippingAddressLines | src/app/api/orders/create/route.ts:51 | When no field holds a newline, the address reads back as the lines name, phone, address, "city, pincode", "Email: email" |
| CreateOrderRoute.NewOrderOf | src/app/api/orders/create/route.ts:54-62 | cod / cod / processing; user_id is the user's id or null; total_amount is the client's totalAmount |
| CreateOrderRoute.OrderItems | src/app/api/orders/create/route.ts:78-83 | One row per cart line, in order, pointing at the new order and copying product, quantity and current price |
| CreateOrderRoute.CreateOrder | src/app/api/orders/create/route.ts:38-105 | 400 on validation; 500 "Failed to create order: message" with no order; 500 "Failed to create order items" with the order row kept; else Ok with the order id and the items |
| CreateOrderRoute.Post | src/app/api/orders/create/route.ts:7-106 | A body that cannot be read answers 500 "Internal server error: " and its message, with no rows; otherwise what CreateOrder answers; no order row means no item rows and an error reply |
| CreateOrderRoute.TotalNotRecomputed | src/app/api/orders/create/route.ts:39-58 | The order row does not depend on the cart lines' prices |
| CreateOrderRoute.NoRollback | src/app/api/orders/create/route.ts:85-94 | A failed item insert answers 500 but the order row stays |
| RegisterRoute.Validate | src/app/api/auth/register/route.ts:13-25 | No password gives "Password is required", checked first; then neither email nor phone gives "Email or Phone is required" |
| RegisterRoute.BuildAttributes | src/app/api/auth/register/route.ts:28-51 | Password, both confirmations and full_name are always set. The email is set when given, and the phone when given, with or without an email |
| RegisterRoute.Register | src/app/api/auth/register/route.ts:6-79 | 400 for validation with nothing sent. Otherwise the attributes sent carry the password, both confirmations, the full name, the email iff given and the phone iff given. A create error gives 400 with its message; a created user gives Ok; data without a user gives 500 "Failed to create user" |
| RegisterRoute.Post | src/app/api/auth/register/route.ts:4-88 | A body that cannot be read answers 500 with its message, or "Internal Server Error" when empty, and sends nothing; otherwise the outcomes of Register, including the attributes sent |
| ShopPage.InitialFilter | src/app/shop/page.tsx:14 | The `metal` URL parameter, else "all" |
| ShopPage.InitialSearch | src/app/shop/page.tsx:15 | The `search` URL parameter, else "" |
| ShopPage.MatchesType | src/app/shop/page.tsx:62 | The type filter: "all", the same metal, or a gold product whose description mentions diamond under "diamond" |
| ShopPage.MatchesSearch | src/app/shop/page.tsx:63-65 | The search: empty matches all; otherwise the lower-cased name or description contains the lower-cased text |
| ShopPage.FilteredProducts | src/app/shop/page.tsx:61-68 | The products kept by both tests, never more than were loaded |
| ShopPage.FilteredIsSubsequence | src/app/shop/page.tsx:61-68 | The shown products are an order-preserving subsequence of the loaded ones |
| ShopPage.FilteredMembership | src/app/shop/page.tsx:62-67 | A product is shown iff it was loaded and matches both type and search |
| ShopPage.DefaultsShowEverything | src/app/shop/page.tsx:62-65 | Filter "all" and no search show every loaded product |
| ShopPage.NullDescriptionSearchesName | src/app/shop/page.tsx:63-65 | A null description never matches; only the name is searched |
| ShopPage.DiamondGoldNeverShown | src/app/shop/page.tsx:35-62 | With the query as written, a gold product described as diamond is never shown under "diamond" |
| ShopPage.DescriptionMatchNeverShown | src/app/shop/page.tsx:39-65 | With the query as written, a product matching the search only in its description is never shown |
| ShopPage.ShownIsFilteredCatalogue | src/app/shop/page.tsx:35-68 | With the corrected query, the page shows exactly the catalogue products its own filter accepts |
| MessagesPage.MatchesTerm | src/app/admin/messages/page.tsx:44-47 | The lower-cased term occurs in the lower-cased first name, last name, email or message |
| MessagesPage.FilteredMessages | src/app/admin/messages/page.tsx:43-48 | The matching messages, never more than the inbox holds |
| MessagesPage.FilteredIsSubsequence | src/app/admin/messages/page.tsx:43-48 | The result keeps the messages' order |
| MessagesPage.FilteredMembership | src/app/admin/messages/page.tsx:44-47 | A message is kept iff the term occurs, ignoring case, in first name, last name, email or message |
| MessagesPage.EmptyTermShowsAll | src/app/admin/messages/page.tsx:43-48 | An empty term keeps every message |
| MessagesPage.PhoneAndStatusNotSearched | src/app/admin/messages/page.tsx:44-47 | Phone and status do not affect matching |
| MessagesPage.StatusLabel | src/app/admin/messages/page.tsx:135 | A missing status shows as "new" |
| CustomersPage.MatchesTerm | src/app/admin/customers/page.tsx:35-36 | The lower-cased term occurs in the lower-cased name or email |
| CustomersPage.FilteredCustomers | src/app/admin/customers/page.tsx:34-37 | The matching customers, never more than the list holds |
| CustomersPage.FilteredIsSubsequence | src/app/admin/customers/page.tsx:34-37 | The result keeps the customers' order |
| CustomersPage.FilteredMembership | src/app/admin/customers/page.tsx:35-36 | A customer is kept iff the term occurs, ignoring case, in name or email |
| CustomersPage.EmptyTermShowsAll | src/app/admin/customers/page.tsx:34-37 | An empty term keeps every customer |
| CustomersPage.PhoneNotSearched | src/app/admin/customers/page.tsx:35-36 | The phone does not affect matching |
| CustomersPage.NamelessCustomerMatchesNA | src/app/admin/customers/page.tsx:35 | A customer without a name is found by searching "n/a" |
| CustomersPage.Avatar | src/app/admin/customers/page.tsx:95 | The first character of the name |
| CustomersPage.ShortId | src/app/admin/customers/page.tsx:99 | A prefix of the id of length min(8, length of the id): exactly 8 characters of a longer id |
| MetalRatesPage.AddPayload | src/app/admin/metal-rates/page.tsx:74-78 | metal_type and purity as entered; rate_per_gram through `Number`, so an empty field sends 0 |
| MetalRatesPage.RefusalText | src/app/admin/metal-rates/page.tsx:53-55 | The server's error, else the handler's own message |
| MetalRatesPage.UpdateRate | src/app/admin/metal-rates/page.tsx:57 | Same length and order. The rows with the id get the new rate and the update time, and keep their id, metal and purity. Other rows are unchanged |
| MetalRatesPage.UpdateRateMissingId | src/app/admin/metal-rates/page.tsx:57 | An unknown id changes nothing |
| MetalRatesPage.UpdateRateIdempotent | src/app/admin/metal-rates/page.tsx:57 | Repeating the update changes nothing more |
| MetalRatesPage.UpdatedRateIsLookedUp | src/app/admin/metal-rates/page.tsx:57 | After the update, the store's lookup for the row's metal and purity, when that row matched first, answers the new rate |
| MetalRatesPage.RatesAdmin.constructor | src/app/admin/metal-rates/page.tsx:13-17 | No rates, not loading, nothing updating, modal closed, form {gold, '', ''} |
| MetalRatesPage.RatesAdmin.FetchRates | src/app/admin/metal-rates/page.tsx:24-38 | Rows in the reply replace the list; otherwise it is kept, with a toast on failure; loading off |
| MetalRatesPage.RatesAdmin.StartUpdate | src/app/admin/metal-rates/page.tsx:43 | `updating` is the id |
| MetalRatesPage.RatesAdmin.FinishUpdate | src/app/admin/metal-rates/page.tsx:53-63 | Accepted: the list becomes UpdateRate of it. Refused: the list is unchanged and the error is toasted. `updating` is null either way |
| MetalRatesPage.RatesAdmin.HandleUpdate | src/app/admin/metal-rates/page.tsx:42-65 | The whole handler: on success the list is UpdateRate of the old list and the "Rate updated successfully!" toast is added; on failure the list is unchanged and the refusal toast (server error or "Failed to update rate") is added; `updating` ends null and the modal, form, posts and refetches are untouched |
| MetalRatesPage.RatesAdmin.StartAdd | src/app/admin/metal-rates/page.tsx:69-78 | Loading on; the form's payload is posted |
| MetalRatesPage.RatesAdmin.FinishAdd | src/app/admin/metal-rates/page.tsx:83-96 | Success: the modal closes, the form resets to the initial form and one refetch starts. Failure: modal and form are kept and the error is toasted. Loading is off either way |
| GalleryPage.UploadEnabled | src/app/admin/gallery/page.tsx:128-132 | Upload is enabled iff fewer than 8 images and no upload running |
| GalleryPage.RemoveUndoesUpload | src/app/admin/gallery/page.tsx:52-70 | Removing the just-appended image gives back the earlier list |
| GalleryPage.RemoveKeepsOthers | src/app/admin/gallery/page.tsx:70 | Removal by index drops exactly that element, in order, as a multiset difference |
| GalleryPage.SaveError | src/app/admin/gallery/page.tsx:105 | The save's error, or "Failed to save" when it has none |
| GalleryPage.UploadError | src/app/admin/gallery/page.tsx:49 | The upload's error, or "Upload failed" when it has none |
| GalleryPage.GalleryAdmin.constructor | src/app/admin/gallery/page.tsx:11-13 | No images and no upload running, with nothing saved, uploaded, deleted or toasted |
| GalleryPage.GalleryAdmin.LoadGallery | src/app/admin/gallery/page.tsx:20-29 | The stored list, or [] when the reply has none; a failure keeps the list and toasts |
| GalleryPage.GalleryAdmin.SaveGallery | src/app/admin/gallery/page.tsx:94-112 | The list is sent; a refusal toasts and reports the error to rethrow |
| GalleryPage.GalleryAdmin.StartUpload | src/app/admin/gallery/page.tsx:32-37 | No file is a no-op; otherwise `uploading` is on and the first file is sent |
| GalleryPage.GalleryAdmin.FinishUpload | src/app/admin/gallery/page.tsx:41-63 | The URL is appended only after the save succeeds; any failure keeps the list; `uploading` is off afterwards |
| GalleryPage.GalleryAdmin.HandleUpload | src/app/admin/gallery/page.tsx:31-64 | The whole upload: no file is a no-op; otherwise the first file is uploaded, an accepted upload saves the old list plus its URL, the list grows only when that save succeeds, and the success toast, the two failure toasts or the upload-failure toast are added exactly as on the page; started while enabled, it leaves at most 8 images |
| GalleryPage.GalleryAdmin.RemoveImage | src/app/admin/gallery/page.tsx:66-92 | Unconfirmed is a no-op. Otherwise the storage delete is requested and the list without the image is saved; what the delete answered is not consulted. The shown list changes only when the save succeeds |
| ProductForm.FormOf | src/components/admin/ProductForm.tsx:45-58 | Every field is copied; a null description becomes ""; the stock text reads back through `Number` as the stock |
| ProductForm.Previews | src/components/admin/ProductForm.tsx:76 | One preview URL per file, in order |
| ProductForm.RemovedEverywhere | src/components/admin/ProductForm.tsx:90 | Every copy of the URL is removed; the other images stay, in order |
| ProductForm.ProductFormState.constructor | src/components/admin/ProductForm.tsx:29-43 | The defaults: gold, 22K, percentage, empty texts, not featured, no images |
| ProductForm.ProductFormState.LoadInitialData | src/components/admin/ProductForm.tsx:45-63 | The fields are loaded from the product; stored images replace the existing list only when present |
| ProductForm.ProductFormState.AddImages | src/components/admin/ProductForm.tsx:71-79 | The files and one preview each are appended; the two lists stay the same length |
| ProductForm.ProductFormState.RemoveNewImage | src/components/admin/ProductForm.tsx:81-84 | The same index leaves both lists, which stay aligned |
| ProductForm.ProductFormState.RemoveExistingImage | src/components/admin/ProductForm.tsx:86-93 | The URL leaves the existing list only when confirmed, with an `onDeleteImage` callback that completed |
| ProductForm.ProductFormState.Submit | src/components/admin/ProductForm.tsx:95-98 | The owner receives the current fields and only the new files |
| AdminOrdersPage.StatusOptionsAreOrderStatuses | src/app/admin/orders/page.tsx:118-121 | The select offers exactly the four order statuses |
| AdminOrdersPage.Restatus | src/app/admin/orders/page.tsx:47 | Only the order with the id gets the new status; other rows, length and order are kept |
| AdminOrdersPage.RestatusMatchesServer | src/app/admin/orders/page.tsx:47 | The page's row update agrees with the server's table update, and the customer columns are untouched |
| AdminOrdersPage.OrdersAdmin.constructor | src/app/admin/orders/page.tsx:10-12 | No orders, loading, nothing updating |
| AdminOrdersPage.OrdersAdmin.FetchOrders | src/app/admin/orders/page.tsx:18-30 | Rows in the reply replace the list; loading ends |
| AdminOrdersPage.OrdersAdmin.StartStatusChange | src/app/admin/orders/page.tsx:33 | `updating` is the order id |
| AdminOrdersPage.OrdersAdmin.FinishStatusChange | src/app/admin/orders/page.tsx:43-52 | Accepted: the row's status is set. Refused: the list is kept and the error alerted. `updating` is null afterwards |
| AdminOrdersPage.OrdersAdmin.HandleStatusChange | src/app/admin/orders/page.tsx:32-54 | On success the orders are restatused in place, equal the server's SetStatus of them and no alert is raised; on failure the list is unchanged and one "Failed to update status: " alert (server error or default) is added |
| Categories.ToCategory | src/components/home/Categories.tsx:56-61 | id, name and link are copied; image is image_url |
| Categories.ToCategories | src/components/home/Categories.tsx:56-61 | One category per row, in order |
| Categories.CategoryStrip.constructor | src/components/home/Categories.tsx:9-44 | The list starts as the four built-in categories, the first three linking to the gold, silver and diamond shop views |
| Categories.CategoryStrip.ApplyFetch | src/components/home/Categories.tsx:46-66 | A non-empty result replaces the list; an empty or null result, or a failure, keeps it; the list is never empty |
| ResetPasswordPage.PasswordProblem | src/app/reset-password/page.tsx:21-29 | A mismatch is reported first, then a length under 6; no problem iff the two agree and have length ≥ 6 |
| ResetPasswordPage.ResetForm.constructor | src/app/reset-password/page.tsx:12-16 | Both fields empty, not loading, no success, no error, nothing sent |
| ResetPasswordPage.ResetForm.Edit | src/app/reset-password/page.tsx:95-103 | The two inputs set the two fields and nothing else |
| ResetPasswordPage.ResetForm.StartUpdate | src/app/reset-password/page.tsx:21-38 | A failed check sets its error and leaves loading and success; passing clears the error, sets loading and sends the password |
| ResetPasswordPage.ResetForm.FinishUpdate | src/app/reset-password/page.tsx:40-53 | Success only when the update succeeded, else its error; loading is off |
| ResetPasswordPage.ResetForm.HandleUpdatePassword | src/app/reset-password/page.tsx:18-54 | The whole handler; only passwords of at least 6 characters are ever sent (the class invariant), and the typed password and confirmation are left as they were |

## Left out

- I/O: every Supabase query, insert, update, auth call, storage call and `fetch` is a parameter carrying its outcome. Network failures of `fetch` and `response.json()` parse errors are not modelled separately from a refused answer.
- Timers and UI: toasts are recorded as a log; `setTimeout` effects (the tile resetting `isAdding`, the redirect after a reset) are not modelled. Nor are rendering, `console` output, `formatCurrency` or `cn`.
- Async ordering: overlapping requests resolving out of order are not modelled. This includes the stale `rates` and `orders` closures in the update handlers and the refetch started by an add. After that refetch starts, the add handler turns loading off while the refetch is still running.
- JavaScript doubles: money is exact `real`. Results at .5 rounding boundaries may differ from IEEE arithmetic (0.03 is not exact in binary).
- Date parsing: the dashboard's `new Date(created_at).getMonth()` is a parameter `monthOf` returning 0..11. Invalid dates are not modelled.
- `Object.keys` order: the dashboard's records keep insertion order. JavaScript lists integer-like keys first, so a metal type such as "1" would be listed out of insertion order.
- `Number(s)`: modelled for empty, signed decimal and malformed text. Surrounding whitespace, exponents, hex and "Infinity" are not modelled.
- `toString` of a non-integer number is a parameter (`numberText`) in ProductForm.FormOf. Integers use their decimal text.
- `ilike` wildcards: the shop query's `%` and `_` inside the search text are treated as literal characters.
- Case mapping: lower- and upper-casing are the ASCII maps. Non-ASCII letters are left as they are.
- String length: `|s|` counts Unicode scalar values, while JavaScript's `length` counts UTF-16 code units. For the reset form's 6-character minimum they differ only on characters outside the Basic Multilingual Plane.
- ProductForm's generic `handleChange` (a per-field setter) is not modelled: the fields are set only by the defaults and `LoadInitialData`.
- MetalRatesStore.CompleteFetch: a reply with neither rows nor an error leaves the store loading. This follows the code: nothing in it clears `isLoading` in that case.
- Pricing.ZeroRate: rate 0 with a fixed making charge still gives round(value × 1.03), not 0. This follows the code.
- CreateOrderRoute.CreateOrder: `items` is a list or absent. A truthy `items` that is not an array passes the check `items.length === 0`, so the order row is inserted before `items.map` throws and the catch answers 500. That path is not modelled. CreateOrderRoute.Post models the catch only for errors raised before validation: reading the body, or the session lookup.
- DashboardRoute.DashboardReply: the orders query is data or an error. One that returns null data without an error is not modelled. `orders.filter` then throws a TypeError, and the catch answers 500 with the runtime's text.
- CustomersRoute.CustomersReply: each load is data or an error. A load that returns null data without an error is not modelled. The route then throws a TypeError, and its 500 message is the runtime's text.
- AdminOrdersRoute.OrdersReply: an orders query that returns null data without an error is not modelled. It throws a TypeError that the catch answers with 500. A missing `users` list is modelled, as no users.
- The remaining routes (metal rates, gallery and upload endpoints) and the static pages are I/O or rendering only.
- GalleryPage.GalleryAdmin.RemoveImage: a storage DELETE request that throws is not modelled; the page then toasts "Failed to remove image" and skips the save, while the model always goes on to save.

## Findings

| source | as written | input that shows it | evidently intended | confidence | as-written member | corrected member |
|---|---|---|---|---|---|---|
| src/app/shop/page.tsx:35-62 | The query asks the database for `metal_type = filter`, so with filter "diamond" only diamond products are loaded | A gold product described as "diamond ring", filter "diamond": the page's own filter accepts it, the query never loads it | Diamond-described gold products appear under "diamond", as the page filter says | not executed | ShopPage.DiamondGoldNeverShown | ShopPage.ShownIsFilteredCatalogue |
| src/app/shop/page.tsx:39-65 | The query narrows by `name ilike %search%` only | A product named "ring" described as "bridal", search "bridal": the page's own search accepts it, the query never loads it | The search also finds products by description, as the page's search says | not executed | ShopPage.DescriptionMatchNeverShown | ShopPage.ShownIsFilteredCatalogue |
