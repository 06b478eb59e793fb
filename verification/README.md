# AgroConnect, modelled in Dafny

AgroConnect is a farm-to-consumer marketplace. Farmers upload produce
listings. An administrator verifies, rejects or features them. Consumers
search the verified listings, fill a cart and check out, or buy a single
listing on a payment screen. Everything is kept in the browser's local
storage. This project models the logic behind those screens:

- the product lifecycle and its moderation;
- the cart and the two checkout paths with their 2% platform fee;
- the three marketplace queries;
- sign-up, sign-in and the session holder;
- the farmer and consumer aggregates;
- the quantity stepper;
- the constant tables.

One module per source file:

- Screens that keep state in place are Dafny classes. The React state
  variables are fields and the handlers are methods.
- Storage is two classes. `Storage.Store` holds the `agroconnect_pro_*` keys
  of the current screens. `Storage.LegacyStore` holds the unprefixed keys of
  the older screens.
- Filters, maps, sums and tables are functions, with lemmas about them.

Shared pieces:

- `Domain` holds the records of `src/App.tsx`.
- `Seqs` holds filter, sum and subsequence, with their facts.
- `Text` holds ASCII lower-casing and substring search.
- `Catalog` holds the listing queries that several screens share.

Ids, timestamps, number parsing and the user's confirmation are
parameters, supplied by the caller. The screens take the distance function
as a parameter; `MockData.HaversineKm` writes the formula out over
sine, cosine, square root and arc tangent, which are themselves a
parameter (`MockData.MathLib`).

Behaviours of the code a reader might not expect:

- A sign-up may reuse a registered mobile number; nothing checks for
  duplicates. `AuthScreen.LaterDuplicateIsShadowed` shows the effect: the
  older account keeps winning at login.
- A purchase never fails for insufficient stock. The payment screen
  subtracts and marks the listing sold at zero or below. Only the quantity
  input's clamp keeps the remaining stock non-negative.
- Cart checkout writes orders only; it never decrements the stock of any
  listing (`Cart.HandleCheckout`).
- Verify and reject do not check the listing's current status. Only the
  screens restrict these buttons to pending listings
  (`AdminPanel.OfferedActionsFollowStatus`). Delete is likewise offered only
  on pending listings (`MyProducts.OfferedDeleteSparesModerated`).
- The older admin panel deletes a rejected listing instead of marking it
  rejected.
- The older payment screen writes a different record (status "completed",
  no quantity) under the older key (`Storage.PaymentRecord`).
- Two marketplace screens set the filtered list to the unfiltered base list
  on mount. The filter effect then runs at once with the initial filter
  values. The constructors model the state after both steps, i.e. the base
  list filtered with the initial values.

## Model

| member | source | states |
|---|---|---|
| Domain.PlatformFee | src/components/consumer/Cart.tsx:21 | the integer fee lies within half a unit of two percent of the amount |
| Domain.RoundHalfUp | src/components/PaymentScreen.tsx:30 | the result is the integer nearest to x, halves going up |
| Domain.PlatformFeeIsRoundedTwoPercent | src/components/PaymentScreen.tsx:29-31 | the integer fee equals the rounded two percent of the amount for every amount |
| Storage.Store.constructor | src/components/admin/AdminPanel.tsx:27-31 | a store that was never written reads as empty users, listings and orders, not initialised, nobody saved |
| Storage.LegacyStore.constructor | src/components/AdminPanel.tsx:21-29 | the legacy keys read as empty lists until written |
| Seqs.Filter | src/components/consumer/Marketplace.tsx:30 | the result holds only elements that pass, keeps each element that passes as often as it occurs, and is an order-preserving subsequence |
| Seqs.FilterMembers | src/components/consumer/Marketplace.tsx:30 | an element is in the filtered list exactly when it is in the list and passes |
| Seqs.Take | src/components/farmer/FarmerHome.tsx:40 | the first min(n, length) elements, a prefix of the list |
| Text.ToLower | src/components/admin/AdminPanel.tsx:68 | same length; every upper-case letter becomes its own lower-case letter and every other character is unchanged, so no upper-case letter is left |
| Text.ToLowerIdempotent | src/components/admin/AdminPanel.tsx:68 | lower-casing twice gives the same as lower-casing once |
| Text.EmptyIsContained | src/components/consumer/Marketplace.tsx:37-42 | every text contains the empty query, so an empty search box keeps everything |
| Text.IncludesIgnoringCaseOfLowered | src/components/admin/AdminPanel.tsx:67-70 | lower-casing either side first does not change a case-insensitive match |
| Catalog.WithStatus | src/components/admin/AdminPanel.tsx:62-63 | a listing is in the view iff it is stored with that status; the view keeps stored order (also the older panel's views, src/components/AdminPanel.tsx:47-48) |
| Catalog.OwnedBy | src/components/farmer/MyProducts.tsx:23-26 | a listing is in the farmer's list iff it is stored with that farmer id; stored order kept |
| Catalog.WithoutId | src/components/AdminPanel.tsx:40-45 | exactly the listings with another id survive, in order |
| Catalog.SetStatus | src/components/admin/AdminPanel.tsx:33-38 | same length; each listing with the id gets the new status and nothing else changes; every other listing is unchanged |
| Catalog.VerifyLeavesPendingQueue | src/components/admin/AdminPanel.tsx:33-38 | after verifying an id, the pending queue is the old pending queue without that id |
| Catalog.StatusCountsBounded | src/components/farmer/FarmerHome.tsx:33-35 | verified plus pending never exceed the number of listings |
| Catalog.StatusViewsDisjoint | src/components/admin/AdminPanel.tsx:62-63 | two different status views share no listing |
| Catalog.RemoveKeepsStatusView | src/components/AdminPanel.tsx:40-48 | removing an id with no listing in status st leaves the st view unchanged |
| Catalog.PendingSearch | src/components/admin/AdminPanel.tsx:67-70 | a listing is shown iff it is pending and its name or farmer name contains the query, ignoring case; stored order kept (also the older panel, src/components/AdminPanel.tsx:52-55) |
| Catalog.EmptySearchShowsAllPending | src/components/admin/AdminPanel.tsx:67-70 | an empty query shows the whole pending queue |
| Catalog.WithRole | src/components/admin/AdminPanel.tsx:64-65 | an account is listed iff it has that role; stored order kept (also the older panel, src/components/AdminPanel.tsx:49-50) |
| Categories.Lookup | src/constants/categories.ts:32-37 | the lookup succeeds iff some entry has the key, and then returns the style of an entry with that key |
| Categories.CategoryValues | src/constants/categories.ts:1-12 | the category values, one per entry, in table order |
| Categories.CategoryValuesDistinct | src/constants/categories.ts:1-12 | no two categories share a value |
| Categories.UnitsDistinctWithDefault | src/constants/categories.ts:14-23 | the units are pairwise distinct and include the upload form's default "kg" |
| Categories.Keys | src/constants/categories.ts:25-37 | the keys of a status table, in order |
| Categories.ProductStatusKeys | src/constants/categories.ts:32-37 | the product status table has exactly the keys pending, verified, rejected, sold, the four listing states |
| Categories.ProductStatusHasStyle | src/constants/categories.ts:32-37 | every listing status has a label and colour |
| Categories.OrderStatusKeys | src/constants/categories.ts:25-30 | the order status table has exactly the keys pending, confirmed, delivered, cancelled, the four order states |
| Categories.OrderStatusHasStyle | src/constants/categories.ts:25-30 | every order status has a label and colour |
| Categories.ProductStatusLabel | src/components/farmer/MyProducts.tsx:107 | the label shown for a status is the one in the table's entry for it |
| AdminPanel.Toggled | src/components/admin/AdminPanel.tsx:55 | the featured flag flips, an absent flag counting as off, and nothing else changes |
| AdminPanel.ToggleFeatured | src/components/admin/AdminPanel.tsx:53-60 | same length; listings with the id are toggled, the others unchanged |
| AdminPanel.ToggleTwiceRestores | src/components/admin/AdminPanel.tsx:53-60 | toggling twice restores every listing's featured state |
| AdminPanel.AdminPanel.constructor | src/components/admin/AdminPanel.tsx:23-31 | the panel starts with the stored listings, users and orders and an empty search |
| AdminPanel.AdminPanel.VerifyProduct | src/components/admin/AdminPanel.tsx:33-40 | the listings become the old ones with the id verified, and storage is overwritten with them |
| AdminPanel.AdminPanel.RejectProduct | src/components/admin/AdminPanel.tsx:42-51 | when confirmed, the id is marked rejected in state and storage; when declined, nothing changes |
| AdminPanel.AdminPanel.FeatureProduct | src/components/admin/AdminPanel.tsx:53-60 | the id's featured flag is toggled in state and storage |
| AdminPanel.AdminPanel.SetSearchQuery | src/components/admin/AdminPanel.tsx:21 | the search box holds the typed query |
| AdminPanel.OfferedActionsFollowStatus | src/components/admin/AdminPanel.tsx:173-266 | verify and reject are offered only on pending listings, the feature toggle only on verified ones |
| LegacyAdminPanel.LegacyAdminPanel.constructor | src/components/AdminPanel.tsx:21-29 | the older panel starts with the stored legacy listings and users |
| LegacyAdminPanel.LegacyAdminPanel.VerifyProduct | src/components/AdminPanel.tsx:31-38 | the stored listings get the id verified, and the screen shows the result |
| LegacyAdminPanel.LegacyAdminPanel.RejectProduct | src/components/AdminPanel.tsx:40-45 | every listing with the id is removed from storage, the others kept in order, and the screen shows the result |
| LegacyAdminPanel.LegacyAdminPanel.SetSearchQuery | src/components/AdminPanel.tsx:153-157 | the search box holds the typed query |
| LegacyAdminPanel.LegacyAdminPanel.FilteredPending | src/components/AdminPanel.tsx:47-55 | a listing is shown iff it is on screen, pending, and its name or farmer name contains the query ignoring case, in list order; an empty query shows the whole pending queue |
| UploadProduct.RemoveAt | src/components/farmer/UploadProduct.tsx:48-50 | removes exactly the element at the index and keeps the others in order; an index out of range removes nothing |
| UploadProduct.ValidateUpload | src/components/farmer/UploadProduct.tsx:55-63 | no images is the first error; the form is accepted iff there are images and name, category, quantity, price and description are all filled |
| UploadProduct.UploadReachesModeration | src/components/farmer/UploadProduct.tsx:87-89 | appending a pending listing adds it to the end of its farmer's list and to the pending queue and leaves the verified view unchanged |
| UploadProduct.UploadProduct.constructor | src/components/farmer/UploadProduct.tsx:18-27 | an empty form with unit "kg" and the user's mobile as phone, and no images |
| UploadProduct.UploadProduct.SetForm | src/components/farmer/UploadProduct.tsx:18-26 | the form holds the typed values |
| UploadProduct.UploadProduct.HandleImageUpload | src/components/farmer/UploadProduct.tsx:30-46 | a selection is taken iff the image count stays at most five, so there are never more than five images |
| UploadProduct.UploadProduct.RemoveImage | src/components/farmer/UploadProduct.tsx:48-50 | the images lose exactly the one at the index |
| UploadProduct.NewProduct | src/components/farmer/UploadProduct.tsx:70-85 | a pending, unfeatured listing with the given id and time, owned by the user at the user's location, carrying the form's fields, the images and the parsed quantity and price |
| UploadProduct.UploadProduct.HandleSubmit | src/components/farmer/UploadProduct.tsx:52-105 | on a validation error nothing is stored; otherwise one pending listing for the user, with the uploaded images and the user's location, is appended to storage and the form and images reset |
| FarmerDashboard.LegacyNewProduct | src/components/FarmerDashboard.tsx:52-65 | the new listing is pending, owned by the user, at the user's location, with the uploaded image or else exactly the fixed fallback image; its id and upload time are the given ones, its farmer name is the user's, and its name, category, description and parsed quantity and price come from the form |
| FarmerDashboard.PurchaseKeepsSoldEmpty | src/components/PaymentScreen.tsx:55-62 | payments keep every sold legacy listing at zero stock or below |
| FarmerDashboard.CalculateEarnings | src/components/FarmerDashboard.tsx:91-95 | the sum of price × quantity over the sold listings is the sum over all listings of what each sold listing is worth |
| FarmerDashboard.SoldSum | src/components/FarmerDashboard.tsx:91-95 | summing over the sold view equals summing the sold value over the whole catalogue |
| FarmerDashboard.EarningsNeverPositive | src/components/FarmerDashboard.tsx:91-95 | as written, the earnings sum over such a catalogue is never positive |
| FarmerDashboard.FarmerDashboard.Earnings | src/components/FarmerDashboard.tsx:142-143 | the earnings card shows the corrected paid earnings, never negative when no payment is negative |
| FarmerDashboard.EarningsMissSoldOutListing | src/components/FarmerDashboard.tsx:91-95 | a listing of 50 at 45 bought in full pays 2295 yet shows earnings of 0 |
| FarmerDashboard.PaidEarningsCountPayment | src/components/PaymentScreen.tsx:40-53 | each payment for the farmer's listing raises the corrected earnings by the amount paid; other payments leave them alone |
| FarmerDashboard.FarmerDashboard.constructor | src/components/FarmerDashboard.tsx:30-35 | the dashboard lists exactly the stored legacy listings of the user |
| FarmerDashboard.FarmerDashboard.SetForm | src/components/FarmerDashboard.tsx:21-28 | the form holds the typed values |
| FarmerDashboard.FarmerDashboard.HandleUploadProduct | src/components/FarmerDashboard.tsx:49-82 | the new listing is appended to storage but put first in the screen's list, and the form is reset |
| FarmerDashboard.FarmerDashboard.HandleDeleteProduct | src/components/FarmerDashboard.tsx:84-89 | every listing with the id leaves both storage and the screen's list |
| MyProducts.Filtered | src/components/farmer/MyProducts.tsx:39 | "all" shows the whole list; any other tab shows exactly the listings in that status, in order |
| MyProducts.OfferedDeleteSparesModerated | src/components/farmer/MyProducts.tsx:29-37 | deleting from an offered (pending) button removes that listing and keeps every verified, rejected or sold listing |
| MyProducts.MyProducts.constructor | src/components/farmer/MyProducts.tsx:15-27 | the screen starts on the "all" tab with the farmer's stored listings |
| MyProducts.MyProducts.LoadProducts | src/components/farmer/MyProducts.tsx:23-27 | the list is reloaded as the farmer's stored listings |
| MyProducts.MyProducts.SetFilter | src/components/farmer/MyProducts.tsx:17 | the chosen tab is kept |
| MyProducts.MyProducts.Shown | src/components/farmer/MyProducts.tsx:39 | a listing is shown iff it is the farmer's and the tab is "all" or matches its status, in list order |
| MyProducts.MyProducts.HandleDelete | src/components/farmer/MyProducts.tsx:29-37 | when confirmed, storage loses every listing with the id and the reloaded list holds none; when declined, nothing changes |
| PaymentScreen.FinalAmount | src/components/PaymentScreen.tsx:29-31 | the amount charged is price times quantity plus its rounded two percent |
| PaymentScreen.ClampQuantity | src/components/PaymentScreen.tsx:114 | with stock of at least 1 the quantity lies in [1, stock]; a typed number in range is kept, a larger one is cut to the stock, and a missing, zero or negative one becomes min(1, stock); with no stock left the quantity equals the stock |
| PaymentScreen.Purchased | src/components/PaymentScreen.tsx:57-60 | the stock drops by the quantity; the listing becomes sold iff it reaches zero or below (or already was), otherwise its status is kept; nothing else changes |
| PaymentScreen.ApplyPurchase | src/components/PaymentScreen.tsx:56-62 | same length; listings with the id are purchased, all others unchanged |
| PaymentScreen.CountIdCountsListings | src/components/PaymentScreen.tsx:57-61 | the count is the number of listings with the id, and it is zero exactly when no listing has the id |
| PaymentScreen.PurchaseConservesStock | src/components/PaymentScreen.tsx:57-61 | total stock drops by exactly the quantity for each listing with the id |
| PaymentScreen.PaymentScreen.constructor | src/components/PaymentScreen.tsx:17-18 | the quantity starts at 1 |
| PaymentScreen.PaymentScreen.ChangeQuantity | src/components/PaymentScreen.tsx:114 | the quantity becomes the clamped input and stays within the stock |
| PaymentScreen.PaymentScreen.HandlePayment | src/components/PaymentScreen.tsx:33-66 | exactly one record, charging the final amount with the listing, buyer and farmer ids, is appended; the stored listings become the purchase applied to them; when the listing had stock, its remaining stock is never negative |
| ConsumerMain.AddToLine | src/components/consumer/ConsumerMain.tsx:22-26 | same length; the matching line gains the quantity, every other line unchanged |
| ConsumerMain.SetLine | src/components/consumer/ConsumerMain.tsx:35 | same length; the matching line gets the quantity, every other line unchanged |
| ConsumerMain.AddLine | src/components/consumer/ConsumerMain.tsx:18-30 | a product already in the cart has its line increased; a new one is appended as one line at the end; either way the product is in the cart |
| ConsumerMain.UpdateLine | src/components/consumer/ConsumerMain.tsx:32-38 | a positive quantity sets the matching line; zero or less removes it and keeps the other lines in order; an id not in the cart leaves the cart unchanged |
| ConsumerMain.AddToLineCount | src/components/consumer/ConsumerMain.tsx:42 | with distinct ids, adding to a line raises the item count by the added quantity |
| ConsumerMain.CartCount | src/components/consumer/ConsumerMain.tsx:42 | an empty cart counts 0, and non-negative quantities never count less |
| ConsumerMain.AddToCartCount | src/components/consumer/ConsumerMain.tsx:18-30 | adding an item raises the item count by its quantity, new product or not |
| ConsumerMain.AddToCartKeepsDistinct | src/components/consumer/ConsumerMain.tsx:18-30 | adding keeps the cart's product ids pairwise distinct |
| ConsumerMain.SubseqKeepsDistinct | src/components/consumer/ConsumerMain.tsx:36 | dropping lines keeps the ids distinct |
| ConsumerMain.UpdateKeepsDistinct | src/components/consumer/ConsumerMain.tsx:32-38 | updating keeps the cart's product ids pairwise distinct |
| ConsumerMain.ConsumerMain.constructor | src/components/consumer/ConsumerMain.tsx:16 | the cart starts empty |
| ConsumerMain.ConsumerMain.AddToCart | src/components/consumer/ConsumerMain.tsx:18-30 | the cart becomes the merged cart, ids stay distinct, and the count grows by the item's quantity |
| ConsumerMain.ConsumerMain.UpdateCartQuantity | src/components/consumer/ConsumerMain.tsx:32-38 | the cart becomes the updated cart and ids stay distinct |
| ConsumerMain.ConsumerMain.ClearCart | src/components/consumer/ConsumerMain.tsx:40 | the cart is empty and its count is 0 |
| Cart.Total | src/components/consumer/Cart.tsx:20-22 | the total exceeds the subtotal by exactly the rounded two percent of the subtotal |
| Cart.TotalNonNegative | src/components/consumer/Cart.tsx:20-22 | with non-negative prices and quantities, 0 <= subtotal <= total |
| Cart.OrderFor | src/components/consumer/Cart.tsx:33-49 | the order copies the listing and the buyer's details, is pending, and charges price times quantity with no fee |
| Cart.CheckoutOrders | src/components/consumer/Cart.tsx:33-49 | exactly one order per cart line, in cart order |
| Cart.Subtotal | src/components/consumer/Cart.tsx:20 | an empty cart costs 0, and a cart of non-negative prices and quantities never costs less |
| Cart.CheckoutChargesSubtotal | src/components/consumer/Cart.tsx:20-45 | the orders of a checkout charge the subtotal in total, the fee included in none |
| Cart.HandleCheckout | src/components/consumer/Cart.tsx:24-57 | an empty cart is refused with nothing written; otherwise the new orders are appended after the stored ones and the cart is cleared; the listings are never touched |
| Marketplace.ApplyFilters | src/components/consumer/Marketplace.tsx:35-48 | a listing is shown iff its name or description contains the query ignoring case, its category matches (or "all"), and its price lies within both bounds; an order-preserving subsequence |
| Marketplace.Listing | src/components/consumer/Marketplace.tsx:28-48 | the listing shows only verified stored listings, each iff it passes the filters |
| Marketplace.VerifiedListingBecomesVisible | src/components/admin/AdminPanel.tsx:33-38 | once an admin verifies a listing that passes the filters, consumers see it |
| Marketplace.MarketplaceScreen.constructor | src/components/consumer/Marketplace.tsx:20-33 | the screen loads the verified listings and shows them filtered with an empty query, "all" and [0, 1000] |
| Marketplace.MarketplaceScreen.SetSearchQuery | src/components/consumer/Marketplace.tsx:35-48 | the query changes, the other inputs stay, and the shown list is refiltered |
| Marketplace.MarketplaceScreen.SetCategoryFilter | src/components/consumer/Marketplace.tsx:35-48 | the category changes, the other inputs stay, and the shown list is refiltered |
| Marketplace.MarketplaceScreen.SetPriceRange | src/components/consumer/Marketplace.tsx:35-48 | the price range changes, the other inputs stay, and the shown list is refiltered |
| Marketplace.MarketplaceScreen.HandleAddToCart | src/components/consumer/Marketplace.tsx:61-62 | one unit of the listing is merged into the cart, raising its count by 1 |
| ConsumerMarketplace.BaseList | src/components/ConsumerMarketplace.tsx:107-114 | only verified listings, exactly the built-in ones and the verified stored ones; their order and multiplicity are stated by `ConsumerMarketplace.BaseListOrder` |
| ConsumerMarketplace.BaseListOrder | src/components/ConsumerMarketplace.tsx:109-111 | the built-in listings come first, in their order, followed by exactly the verified stored listings in storage order, so a verified stored listing occurs as often as in storage plus the built-ins |
| ConsumerMarketplace.EmptyQueryMatchesAll | src/components/ConsumerMarketplace.tsx:120-126 | every listing matches the empty query |
| ConsumerMarketplace.Searched | src/components/ConsumerMarketplace.tsx:120-126 | a listing stays iff its name, description or farmer name contains the query ignoring case |
| ConsumerMarketplace.InCategory | src/components/ConsumerMarketplace.tsx:129-131 | a listing stays iff the filter is "all" or its category equals it |
| ConsumerMarketplace.ApplyFilters | src/components/ConsumerMarketplace.tsx:116-148 | a listing is shown iff it passes search, category, the inclusive price range and distance at most the maximum; an order-preserving subsequence |
| ConsumerMarketplace.ConsumerMarketplace.constructor | src/components/ConsumerMarketplace.tsx:99-148 | the screen loads the base list and shows it filtered with the defaults |
| ConsumerMarketplace.ConsumerMarketplace.RunFilters | src/components/ConsumerMarketplace.tsx:116-148 | the shown list is the base list filtered with the current inputs |
| ConsumerMarketplace.ConsumerMarketplace.SetFilters | src/components/ConsumerMarketplace.tsx:116-148 | new filter inputs are kept and the shown list is refiltered |
| ConsumerMarketplace.ConsumerMarketplace.ResetFilters | src/components/ConsumerMarketplace.tsx:162-167 | the inputs return to "", "all", [0, 500] and 50 km, and the shown list follows |
| ConsumerMarketplace.ShownAreVerified | src/components/ConsumerMarketplace.tsx:110-111 | whatever the filters, the screen shows only verified listings |
| ConsumerMarketplace.LargerRadiusShowsMore | src/components/ConsumerMarketplace.tsx:137-145 | widening the distance never hides a shown listing |
| MockData.CalculateDistance | src/utils/mockData.ts:168-186 | the distance is the haversine distance rounded to a whole number of km |
| MockData.SelfDistanceIsZero | src/utils/mockData.ts:168-186 | by the haversine formula, a point is 0 km from itself whenever sine, square root and arc tangent are exact at 0 and 1 |
| MockData.ProductsWithDistance | src/utils/mockData.ts:192-205 | one entry per listing in the same order, each equal to its listing except for the distance, which is the rounded distance from the viewer |
| MockData.GetProductsWithDistance | src/utils/mockData.ts:192-205 | one entry per built-in listing, in order, each equal to its listing except that it now carries a distance |
| MarketplaceScreenNew.Products | src/components/mobile/MarketplaceScreenNew.tsx:23-25 | nothing without a user; otherwise a listing is in the result iff it is in the catalogue with its distance from the user and verified, in catalogue order |
| MarketplaceScreenNew.FilteredProducts | src/components/mobile/MarketplaceScreenNew.tsx:27-32 | a listing is kept iff its category matches (or "All"), its price lies within both bounds, and its distance is absent, 0 or at most the maximum; an order-preserving subsequence |
| MarketplaceScreenNew.Shown | src/components/mobile/MarketplaceScreenNew.tsx:23-32 | a listing is shown iff there is a user and the listing is in the catalogue with its distance, verified and kept by the category, price-range and distance filters |
| ProductDetails.StepDown | src/components/mobile/ProductDetails.tsx:100 | one less, but never below 1 |
| ProductDetails.StepUp | src/components/mobile/ProductDetails.tsx:108 | one more, but never above the stock |
| ProductDetails.StepsKeepRange | src/components/mobile/ProductDetails.tsx:100-108 | from a quantity in [1, stock] both buttons stay in [1, stock] |
| ProductDetails.PlusPressesCapAtStock | src/components/mobile/ProductDetails.tsx:108 | k presses of plus reach min(q + k, stock) |
| ProductDetails.QuantitySelector.constructor | src/components/mobile/ProductDetails.tsx:16 | the selection starts at 1 |
| ProductDetails.QuantitySelector.Minus | src/components/mobile/ProductDetails.tsx:100 | the quantity steps down and stays within the stock |
| ProductDetails.QuantitySelector.Plus | src/components/mobile/ProductDetails.tsx:108 | the quantity steps up and stays within the stock |
| ProductDetails.QuantitySelector.Total | src/components/mobile/ProductDetails.tsx:114 | the total shown lies between 0 and the price of the whole stock |
| AuthScreen.SanitizeMobile | src/components/AuthScreen.tsx:206 | exactly the first min(10, number of digits typed) digits: all digits, a prefix of the typed digits, of that length |
| AuthScreen.SanitizeMobileIdempotent | src/components/AuthScreen.tsx:206 | sanitising again changes nothing |
| AuthScreen.ValidateSignup | src/components/AuthScreen.tsx:80-96 | each error arises exactly when its guard fails and no earlier guard did; no error iff all fields are filled, a location is known, the mobile has ten characters and the password six |
| AuthScreen.AcceptedMobileIsTenDigits | src/components/AuthScreen.tsx:86-90 | an accepted, sanitised mobile is exactly ten digits |
| AuthScreen.NewAccount | src/components/AuthScreen.tsx:98-111 | the account carries the form's name, mobile, password and role and the detected location with the form's address |
| AuthScreen.FindAccount | src/components/AuthScreen.tsx:67-69 | the first account whose mobile and password both match, or none iff no account matches |
| AuthScreen.Login | src/components/AuthScreen.tsx:66-77 | a user is returned iff some account matches, and it is the profile of the first matching account, without the password |
| AuthScreen.LaterDuplicateIsShadowed | src/components/AuthScreen.tsx:113-115 | with no duplicate check, a later account with the same credentials is never found |
| AuthScreen.NewAccountCanLogIn | src/components/AuthScreen.tsx:113-118 | a new account whose credentials match no earlier one can sign in and gets its own profile |
| AuthScreen.AuthScreen.constructor | src/components/AuthScreen.tsx:16-30 | the screen starts in sign-in mode with an empty form and no location |
| AuthScreen.AuthScreen.SetMobile | src/components/AuthScreen.tsx:206 | in sign-in and sign-up mode alike the field holds the typed value sanitised to at most ten digits, and nothing else in the form changes |
| AuthScreen.AuthScreen.SetFullName | src/components/AuthScreen.tsx:189 | the name field holds the typed value and nothing else in the form changes |
| AuthScreen.AuthScreen.SetPassword | src/components/AuthScreen.tsx:222 | the password field holds the typed value and nothing else in the form changes |
| AuthScreen.AuthScreen.SetRole | src/components/AuthScreen.tsx:247 | the chosen role is kept and nothing else in the form changes |
| AuthScreen.AuthScreen.SetAddress | src/components/AuthScreen.tsx:305 | the address field holds the typed value, replacing a detected address, and nothing else in the form changes |
| AuthScreen.AuthScreen.SetIsLogin | src/components/AuthScreen.tsx:16-35 | the mode becomes the chosen one; switching from sign-in to sign-up detects the location and fills the address, any other switch changes nothing else |
| AuthScreen.MobileFieldValue | src/components/AuthScreen.tsx:206 | the corrected field: sign-in keeps the typed value, sign-up keeps at most ten digits |
| AuthScreen.AuthScreen.DetectLocation | src/components/AuthScreen.tsx:38-55 | the location is the detected one and the address reads "<town>, India" |
| AuthScreen.AuthScreen.HandleSubmit | src/components/AuthScreen.tsx:57-123 | sign-in succeeds iff an account matches and writes nothing; sign-up fails at the first broken guard with nothing stored, otherwise appends exactly one account and returns its profile |
| AuthContext.Token | src/utils/AuthContext.tsx:30 | the token begins "jwt_" |
| AuthContext.TokenRole | src/utils/AuthContext.tsx:30 | a role is read back only from a token that starts with it |
| AuthContext.TokenNamesRole | src/utils/AuthContext.tsx:28-32 | the role read back from a token is the role it was made for |
| AuthContext.AuthProvider.constructor | src/utils/AuthContext.tsx:25-43 | nobody is signed in and the session is not authenticated |
| AuthContext.AuthProvider.Login | src/utils/AuthContext.tsx:28-32 | the user data is kept unchanged plus a token naming its role, and the session is authenticated |
| AuthContext.AuthProvider.Logout | src/utils/AuthContext.tsx:34-36 | the user is cleared and the session is not authenticated |
| AuthContext.AuthProvider.IsAuthenticated | src/utils/AuthContext.tsx:43 | the session counts as authenticated exactly when a user is held, so login turns it on and logout off |
| AuthContext.UseAuth | src/utils/AuthContext.tsx:50-55 | outside a provider the call fails; inside, it returns the provider |
| FarmerHome.LoadStats | src/components/farmer/FarmerHome.tsx:25-38 | the farmer's listings never exceed the stored ones, verified plus pending never exceed them, and sales and earnings agree with the sales history |
| FarmerHome.RecentProducts | src/components/farmer/FarmerHome.tsx:40 | the first min(3, n) of the farmer's listings, in stored order |
| FarmerHome.UploadCountsAsPending | src/components/farmer/FarmerHome.tsx:25-38 | a new pending upload raises the total and pending counts by one and leaves the verified count unchanged |
| SalesHistory.FarmerOrders | src/components/farmer/SalesHistory.tsx:16-18 | an order is shown iff its farmer id is the user's; stored order kept |
| SalesHistory.Stats | src/components/farmer/SalesHistory.tsx:19-22 | the count never exceeds the stored orders, and no orders give count 0 and earnings 0 |
| SalesHistory.CheckoutOrdersForFarmer | src/components/consumer/Cart.tsx:33-49 | the farmer's share of a checkout's orders charges the value of the farmer's cart lines |
| SalesHistory.CheckoutRaisesEarnings | src/components/farmer/SalesHistory.tsx:16-22 | a checkout raises a farmer's earnings by the value of their cart lines and the sales count by their number |
| SalesHistory.CheckoutOrderCount | src/components/consumer/Cart.tsx:33-49 | a checkout creates one order for the farmer per cart line of theirs |
| MyOrders.ConsumerOrders | src/components/consumer/MyOrders.tsx:17 | an order is kept iff it is the consumer's; stored order kept |
| MyOrders.ConsNewestFirst | src/components/consumer/MyOrders.tsx:18 | putting an order no older than the head in front keeps the list newest first |
| MyOrders.Insert | src/components/consumer/MyOrders.tsx:18 | inserting into a newest-first list keeps it newest first and adds exactly that order |
| MyOrders.SortNewestFirst | src/components/consumer/MyOrders.tsx:18 | the result is newest first and a permutation of the input |
| MyOrders.Shown | src/components/consumer/MyOrders.tsx:15-19 | exactly the consumer's orders, as a permutation, newest first |
| App.SeedAdmin | src/App.tsx:94-107 | the seeded account is the admin with id "admin_secret", mobile "admin" and password "admin@2025" |
| App.Seeded | src/App.tsx:91-115 | with the marker present nothing changes; otherwise exactly the admin, no listings, no orders, and the marker set |
| App.SeedingIsIdempotent | src/App.tsx:91-115 | seeding twice is seeding once |
| App.Route | src/App.tsx:136-157 | splash while shown; then sign-in iff nobody is signed in; then the farmer dashboard, admin panel or consumer shell iff the user has that role |
| App.SplashTap | src/App.tsx:128-134 | at four or more taps the splash hides and the counter resets; below, the counter goes up by one |
| App.FirstTapsOnlyCount | src/App.tsx:128-134 | from a fresh splash, the first four taps only count |
| App.TapsSplit | src/App.tsx:128-134 | k + 1 taps are k taps followed by one |
| App.FifthTapHidesSplash | src/App.tsx:127-134 | the fifth tap hides the splash and resets the counter; the splash stays up until then |
| App.SanitizedLoginMissesAdmin | src/components/AuthScreen.tsx:206 | as written, no sign-in can reach an account whose mobile is "admin" |
| App.SeededAdminCanLogIn | src/App.tsx:91-115 | with the corrected field, the seeded admin signs in with the fixed credentials |
| App.App.constructor | src/App.tsx:71-89 | mount seeds storage if needed, restores the saved user and shows the splash with the counter at 0 |
| App.App.InitializeDemoData | src/App.tsx:91-115 | storage becomes the seeded storage |
| App.App.SplashTimeout | src/App.tsx:87 | the splash is hidden |
| App.App.HandleSplashClick | src/App.tsx:128-134 | the splash state follows one tap |
| App.App.HandleLogin | src/App.tsx:117-120 | the user becomes current and is saved |
| App.App.HandleLogout | src/App.tsx:122-125 | nobody is current or saved, and past the splash the sign-in screen shows |
| App.App.CurrentScreen | src/App.tsx:136-157 | the splash while it shows; after it the sign-in screen exactly when nobody is signed in, otherwise the farmer, admin or consumer screen exactly for that role |

## Left out

- Floating-point arithmetic in the haversine formula is not modelled: it
  is written over Dafny reals, with sine, cosine, square root and arc
  tangent as parameters. The screens take the distance as a parameter `hav`.
- JSON (de)serialisation is not modelled. Local storage is one sequence per
  key, held on the two storage classes; the key strings themselves are not
  modelled.
- Ids and timestamps (`Date.now`, `Math.random`, ISO date strings) are not
  generated. They are parameters, and timestamps are integers (later means
  larger).
- These asynchronous or environment steps are left out: delays, toasts,
  loading flags, `FileReader` and the password visibility toggle. The
  browser's `confirm` becomes a boolean argument. An uploaded image becomes
  a string.
- `parseFloat` / `parseInt` are not modelled. Upload quantities and prices
  go through a `parse` parameter. The payment input arrives as an optional
  integer.
- JavaScript number semantics are not modelled (NaN, infinities, fractional
  prices). Prices and quantities are integers.
- The random choice among eight mock cities when detecting a location is not
  modelled. `AuthScreen.AuthScreen.DetectLocation` takes the detected place
  as a parameter.
- Rendering is not modelled, and neither are the display-only and static
  screens.
- The mobile sign-in, sign-up and payment mock screens are not modelled.
- Domain.PlatformFee: the fee is the integer round-half-up of two percent.
  JavaScript's float product may round differently exactly at a half.
- Cart.OrderFor: a listing with no images gets the image "" (the source
  reads an undefined first element).
- ConsumerMarketplace.BaseList: the built-in listings keep their ids,
  names, farmers, categories, quantities, prices, descriptions and places.
  Their image URLs, unit and farmer phone are not modelled. Their upload
  times are replaced by their order, 1 to 4.
- MockData.ProductsWithDistance: mock listing p4 is pending and is never
  listed. This is not stated for p4 by name. It follows only from
  `MarketplaceScreenNew.Products`, which keeps verified listings only.
- MyOrders.SortNewestFirst: the sort is proved ordered and a permutation.
  Its stability on equal timestamps (JavaScript's sort is stable) is not
  proved. MyOrders.Shown inherits the gap: the order among orders with equal
  `createdAt` is not stated.
- SalesHistory.Stats: states only that the count is bounded and that
  no orders mean zero. That the count and earnings are the size and amount
  sum of the farmer's orders is the definition itself. It is connected to
  checkouts by `SalesHistory.CheckoutRaisesEarnings`.
- FarmerHome.LoadStats: states the bounds and the agreement with the sales
  history. That the counts are the sizes of the farmer's status views is the
  definition itself.
- ProductDetails.QuantitySelector.Total: states the bounds of the total
  shown. That it is price times the selected quantity is the definition
  itself.
- Lower-casing covers the ASCII letters only.
- FarmerDashboard.FarmerDashboard.Earnings: the card uses the corrected
  `PaidEarnings` over the stored payments, not `CalculateEarnings(products)`
  as written (see Findings); the as-written sum is `CalculateEarnings`.

## Findings

| source | as written | input that shows it | evidently intended | confidence | as-written member | corrected member |
|---|---|---|---|---|---|---|
| src/components/FarmerDashboard.tsx:91-95 | earnings sum price × quantity over sold listings, where quantity is the stock left, and a listing only becomes sold when that stock reaches zero or below (src/components/PaymentScreen.tsx:59) | a listing of 50 kg at 45 bought in full: the buyer pays 2295, the card shows 0 | earnings are what buyers paid for the farmer's listings | high, not executed | FarmerDashboard.EarningsMissSoldOutListing | FarmerDashboard.PaidEarningsCountPayment |
| src/components/AuthScreen.tsx:206 | the mobile field strips every non-digit in sign-in mode too, while the seeded administrator's mobile is "admin" (src/App.tsx:97) | typing "admin" at sign-in leaves the field empty, so the admin never signs in | the field sanitises digits for sign-up only, so the seeded admin can sign in | medium, not executed | App.SanitizedLoginMissesAdmin | App.SeededAdminCanLogIn |

The sign-in screen itself (`AuthScreen.AuthScreen.SetMobile`) models the
field as written; `AuthScreen.MobileFieldValue` is the corrected field that
`App.SeededAdminCanLogIn` uses.
