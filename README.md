# DripNest storefront: a verified model of its bookkeeping

DripNest is a T-shirt storefront: a React client (cart, product pages, an admin back
office) and an Express/MongoDB API (orders, products, users, admin). This project models
the parts of it that keep books and make decisions:

- the client's cart line store and the cart page's shipping rule;
- the order document's save hooks and the order routes (two-phase creation with stock
  decrements, read authorisation, the admin status update, the owner's cancel);
- the product document's SKU and rating hooks and its discount virtual;
- the user's address book (at most one default address), wishlist and the admin user
  registry, with the list endpoints' page arithmetic;
- the server edge: allowed-origin parsing, wildcard origin matching, the CORS decision,
  the rate limiter's skip rule and the database gate;
- the client-side rules in components: the image-URL sanitiser, registration checks,
  the admin route guard, the product page and product tile guards and steppers, the
  image carousel, the star rows, and the admin product and user dialogs.

Money is whole rupees (`int`); a rating average is a `real`. Stored documents whose
fields the source assigns in place are classes (`CartStore.Cart`, `OrderModel.Order`,
`ProductModel.ProductDocument`, `UserRoutes.UserDocument`, `AdminRoutes.UserRegistry`,
`OrderRoutes.ProductCollection`); their methods are proved against the specification
functions beside them (`AddLine`, `AfterSave`, `Decremented`, `AddedAddresses`, ...), and
the properties are proved about those functions. Pure rules are functions with lemmas.
Times, random suffixes and URL parsing are parameters (`now`, `stamp`, `parseUrl`).

Files: `wrappers.dfy` (Option), `text.dfy` (JavaScript string operations: trim, split,
indexOf, ...), `lists.dfy` (the two `filter` edits), `accounts.dfy` (ids and roles), then
one file per source file or concern, named after it.

## Model

| member | source | states |
|---|---|---|
| CartStore.FindLine | client/src/contexts/CartContext.tsx:55-60 | the first line with the (product id, size, colour) key, or -1 when no line has it |
| CartStore.AddExisting | client/src/contexts/CartContext.tsx:62-67 | adding an existing key raises only that line's quantity by `quantity`; same number of lines, its price kept |
| CartStore.AddNew | client/src/contexts/CartContext.tsx:68-79 | adding a new key appends exactly one line with the product's price and the quantity; earlier lines unchanged |
| CartStore.AddKeepsKeysUnique | client/src/contexts/CartContext.tsx:55-79 | adding keeps every merge key unique |
| CartStore.AddItemCount | client/src/contexts/CartContext.tsx:52-81 | adding raises the item count by exactly `quantity` |
| CartStore.AddSubtotal | client/src/contexts/CartContext.tsx:52-81 | adding raises the subtotal by the merged line's price (or the product's, for a new line) times `quantity` |
| CartStore.RemoveTotals | client/src/contexts/CartContext.tsx:83-90 | removing a line drops exactly its quantity from the item count and its amount from the subtotal |
| CartStore.RemoveKeepsKeysUnique | client/src/contexts/CartContext.tsx:83-90 | removing a line keeps the keys unique |
| CartStore.FoldAppend | client/src/contexts/CartContext.tsx:110-116 | the reduce over a concatenation is the sum of the reduces |
| CartStore.FoldUpdate | client/src/contexts/CartContext.tsx:110-116 | replacing one line changes a total by exactly that line's difference |
| CartStore.TotalsNonNegative | client/src/contexts/CartContext.tsx:110-116 | with non-negative quantities and prices both totals are non-negative |
| CartStore.Cart.constructor | client/src/contexts/CartContext.tsx:32 | the cart starts empty (and so with unique keys) |
| CartStore.Cart.AddToCart | client/src/contexts/CartContext.tsx:52-81 | the new lines are `AddLine` of the old ones (merge or append), and key uniqueness is kept |
| CartStore.Cart.RemoveFromCart | client/src/contexts/CartContext.tsx:83-90 | exactly line `index` goes, the others keep their order; key uniqueness kept |
| CartStore.Cart.UpdateQuantity | client/src/contexts/CartContext.tsx:92-103 | a non-positive quantity removes the line; otherwise only that line's quantity is set |
| CartStore.Cart.ClearCart | client/src/contexts/CartContext.tsx:105-108 | the cart is empty afterwards |
| CartStore.Cart.GetTotalItems | client/src/contexts/CartContext.tsx:110-112 | the left-to-right sum of the line quantities (its changes under add and remove are AddItemCount and RemoveTotals) |
| CartStore.Cart.GetSubtotal | client/src/contexts/CartContext.tsx:114-116 | the left-to-right sum of price times quantity (AddSubtotal, RemoveTotals) |
| CartStore.Cart.GetTotal | client/src/contexts/CartContext.tsx:118-120 | the total always equals the subtotal |
| CartSummary.ShippingCost | client/src/pages/Cart.tsx:28 | shipping is 0 exactly from a subtotal of 2000 on, and 200 otherwise |
| CartSummary.DisplayedTotal | client/src/pages/Cart.tsx:29 | the shown total is the subtotal plus shipping, never below the subtotal |
| CartSummary.ShippingRow | client/src/pages/Cart.tsx:197 | the row reads "Free" exactly when the shipping cost is 0, else the 200 charge |
| CartSummary.HintIffCharged | client/src/pages/Cart.tsx:211 | the free-shipping hint is shown exactly when shipping is charged |
| CartSummary.AmountToFreeShipping | client/src/pages/Cart.tsx:226 | the "add more" amount is positive and brings the subtotal exactly to the free-shipping threshold |
| CartSummary.ProgressPercent | client/src/pages/Cart.tsx:222 | the bar width is `min(subtotal / 2000 * 100, 100)`: subtotal / 20 below the threshold, 100 from it on, never above 100 and not negative for a non-negative subtotal |
| CartSummary.ProgressTracksShipping | client/src/pages/Cart.tsx:28-222 | the bar never shrinks as the subtotal grows, and it is full exactly when shipping is free |
| CartSummary.TotalDropsAtThreshold | client/src/pages/Cart.tsx:28-29 | the shown total is not monotone: 1999 costs more than 2000 |
| OrderModel.ParseStatus | server/src/models/Order.ts:191-195 | a status name is accepted exactly when it spells one of the six enum values |
| OrderModel.ParseStatusName | server/src/models/Order.ts:191-195 | every status's stored name parses back to it |
| OrderModel.ItemCountAtLeastLength | server/src/models/Order.ts:266-268 | with every quantity at least 1, `itemCount` is at least the number of items |
| OrderModel.AfterSave | server/src/models/Order.ts:232-263 | a set order number is kept, a missing one gets "DN-"; total = subtotal + tax + shipping (so total ≥ subtotal ≥ 0 under the bounds); paid and delivered flags are set once with `now` and never cleared; nothing else changes |
| OrderModel.SaveStable | server/src/models/Order.ts:232-263 | a second save changes nothing the first one set, whatever its time and stamp |
| OrderModel.Order.constructor | server/src/models/Order.ts:157-216 | a new order is pending, with payment pending, tax and shipping 0 when absent, unpaid and undelivered |
| OrderModel.Order.AssignOrderNumber | server/src/models/Order.ts:232-239 | an existing order number is never overwritten; a missing one becomes "DN-" and the stamp |
| OrderModel.Order.ComputeTotal | server/src/models/Order.ts:242-245 | the total is the sum of subtotal, tax and shipping |
| OrderModel.Order.RecordPayment | server/src/models/Order.ts:248-254 | a completed payment on an unpaid order sets paid with `now`; otherwise both fields are kept |
| OrderModel.Order.RecordDelivery | server/src/models/Order.ts:257-263 | status delivered on an undelivered order sets delivered with `now`; otherwise both fields are kept |
| OrderModel.Order.Save | server/src/models/Order.ts:232-263 | the hooked fields become `AfterSave` of the old ones; valid inputs give a document within every bound; paid and delivered are never cleared |
| OrderModel.Order.SetStatusFields | server/src/routes/orders.ts:195-198 | the status is set unconditionally; tracking number, estimated delivery and notes change only when supplied |
| OrderModel.Order.ApplyStatusUpdate | server/src/routes/orders.ts:195-200 | the field assignments followed by a save, as `AfterSave` of the updated status |
| OrderRoutes.FirstFailure | server/src/routes/orders.ts:112-137 | None exactly when every item passes (product exists, size offered, stock ≥ quantity); otherwise the first failing item and its problem |
| OrderRoutes.DecrementedAt | server/src/routes/orders.ts:140-144 | creation lowers each product's `stock` by the summed quantity of its items and changes nothing else |
| OrderRoutes.RestockedKeepsStock | server/src/routes/orders.ts:246-252 | cancel's restore never changes a product's top-level `stock` or its sizes |
| OrderRoutes.CreateThenCancelLosesStock | server/src/routes/orders.ts:246-252 | as written, create then cancel leaves each ordered product with less `stock` than before |
| OrderRoutes.RestockedCorrectedAt | server/src/routes/orders.ts:246-252 | the intended restore raises each product's `stock` by the summed quantity of its items |
| OrderRoutes.RestockRoundTrip | server/src/routes/orders.ts:140-144 | with the intended restore, cancel exactly undoes creation's decrements |
| OrderRoutes.DuplicateLinesOversell | server/src/routes/orders.ts:131-144 | two lines of one product with stock 1 both pass the check and the stock ends at -1 |
| OrderRoutes.AggregateCheckKeepsStock | server/src/routes/orders.ts:131-144 | checking summed quantities per product keeps every stock non-negative |
| OrderRoutes.ProductCollection.DecrementStock | server/src/routes/orders.ts:141-143 | one `$inc` of `-quantity` on the product's `stock`; a missing product is left alone |
| OrderRoutes.ProductCollection.RestockSize | server/src/routes/orders.ts:247-251 | one `$inc` on the per-size counter of the item's size, when there is one |
| OrderRoutes.CreateOrder | server/src/routes/orders.ts:104-156 | empty items are refused; a failing item is reported (the first) with every product unchanged; otherwise the stock is `Decremented` and a pending, numbered, totalled order is created |
| OrderRoutes.ReadOrder | server/src/routes/orders.ts:60-73 | 200 exactly for the owner or an admin, 404 for a missing order, 403 otherwise |
| OrderRoutes.UpdateOrderStatus | server/src/routes/orders.ts:186-200 | 404 for a missing order; any enum status is set with no transition check; a name outside the enum fails the save and leaves the order unchanged |
| OrderRoutes.CancelOrder | server/src/routes/orders.ts:220-255 | 404 missing, 403 for anyone but the owner, 400 unless pending or processing, and nothing changes then; otherwise the per-size restore runs and the order is saved cancelled |
| OrderRoutes.OwnOrders | server/src/routes/orders.ts:17-20 | only the caller's orders, and only with the given status when one is given |
| OrderRoutes.OwnOrdersComplete | server/src/routes/orders.ts:17-20 | every order of the caller matching the filter is listed |
| OrderRoutes.ListOrders | server/src/routes/orders.ts:13-39 | the response is the page of the caller's matching orders (window and metadata as `Pagination.Paginate`, default limit 10); total counts them; every listed order is the caller's |
| Pagination.OrDefault | server/src/routes/orders.ts:13-14 | `parseInt(q) \|\| d`: a NaN or 0 gives the default, any other value is kept |
| Pagination.CeilDiv | server/src/routes/orders.ts:39 | `Math.ceil(total / limit)`: the least integer not below the quotient, for either sign of the divisor |
| Pagination.PageCountCovers | server/src/routes/orders.ts:39 | with a positive limit the pages hold `total` and one page fewer would not |
| Pagination.PageOfItem | server/src/routes/orders.ts:22-27 | the k-th document lies on exactly one page, `k / limit + 1`, which is between 1 and the page count |
| Pagination.SkipOrder | server/src/routes/orders.ts:22 | earlier pages end at or before the start of later ones |
| Pagination.PageSlice | server/src/routes/orders.ts:24-27 | `.skip().limit()`: None for a negative skip; otherwise the documents from `skip` on, at most `|limit|` of them (0 means all) |
| Pagination.Paginate | server/src/routes/admin.ts:172-201 | a list response: page and limit defaults; a 500 exactly when (page - 1) × limit is negative, which for a positive limit is exactly a page below 1; the window is the `.skip((page - 1) * limit).limit(limit)` slice, element by element and in length; the metadata with `pages = ceil(total / limit)` |
| ProductModel.RatingSumBounds | server/src/models/Product.ts:127-131 | with ratings in 1..5 the rating sum lies between the count and five times it |
| ProductModel.MeanRatingBounds | server/src/models/Product.ts:192-199 | with ratings in 1..5 the computed average is in [1, 5] |
| ProductModel.Round | server/src/models/Product.ts:204 | `Math.round`: within a half of the argument, halves rounded up |
| ProductModel.DiscountPercentage | server/src/models/Product.ts:202-207 | 0 unless a compare-at price is set and above the price; then the rounded saving percentage |
| ProductModel.DiscountInRange | server/src/models/Product.ts:202-207 | for 0 ≤ price < compare-at price the discount is in [0, 100] |
| ProductModel.ProductDocument.constructor | server/src/models/Product.ts:104-168 | a new product is active, with stock 0, rating 0, no reviews and no SKU |
| ProductModel.ProductDocument.AssignSku | server/src/models/Product.ts:182-189 | an existing SKU is never overwritten; a missing one gets a "DN-" value |
| ProductModel.ProductDocument.RecomputeRating | server/src/models/Product.ts:192-199 | with reviews, `numReviews` is their count and `rating` their mean; with none, both are kept |
| ProductModel.ProductDocument.Save | server/src/models/Product.ts:182-199 | both hooks in order, and a product within the schema bounds stays within them |
| UserRoutes.AddAddressDefaults | server/src/routes/users.ts:86-103 | adding appends one entry; the first or a requested default becomes the only default, else no flag changes; at most one default is kept |
| UserRoutes.FindAddress | server/src/routes/users.ts:144-146 | the first address with the id, or -1 when none has it |
| UserRoutes.UpdateAddressDefaults | server/src/routes/users.ts:155-168 | each of the target's six fields takes the supplied (non-empty) value or keeps its own; other addresses change at most their flag; `isDefault` makes the target the only default, else no flag changes; at most one default kept |
| UserRoutes.DeleteAddressDefaults | server/src/routes/users.ts:221-226 | exactly one entry goes; when the rest has a default nothing else changes; when it has none, the first remaining address and only it is promoted; a non-empty remainder has a default; at most one default kept |
| UserRoutes.UserDocument.UpdateProfile | server/src/routes/users.ts:43-45 | a non-empty name or phone replaces the stored one; a supplied address list replaces the whole list |
| UserRoutes.UserDocument.AddAddress | server/src/routes/users.ts:86-103 | 201, and the list becomes `AddedAddresses` with the country defaulting to "United States"; at most one default kept |
| UserRoutes.UserDocument.UpdateAddress | server/src/routes/users.ts:144-168 | 404 and no change for an unknown id; otherwise `UpdatedAddresses` at the first match; at most one default kept |
| UserRoutes.UserDocument.DeleteAddress | server/src/routes/users.ts:209-226 | 404 and no change for an unknown id; otherwise `DeletedAddresses` at the first match; at most one default kept |
| UserRoutes.UserDocument.AddToWishlist | server/src/routes/users.ts:260-267 | 400 and no change for a listed product; otherwise appended once; a duplicate-free list stays so |
| UserRoutes.UserDocument.RemoveFromWishlist | server/src/routes/users.ts:299-301 | every occurrence is filtered out; removing an absent product changes nothing |
| Lists.Without | server/src/routes/users.ts:299-301 | the value is gone, every other value keeps its membership and its number of occurrences, the list does not grow |
| Lists.WithoutAppend | server/src/routes/users.ts:299-301 | filtering a concatenation concatenates the filtered pieces, so the kept elements keep their order |
| Lists.WithoutAbsent | server/src/routes/users.ts:299-301 | filtering out an absent value changes nothing |
| Lists.WithoutIdempotent | server/src/routes/users.ts:299-301 | filtering out twice is filtering out once |
| Lists.RemoveAt | client/src/pages/admin/Products.tsx:178-184 | the element at the index goes and the others keep their order; an index outside the list changes nothing |
| AdminRoutes.ToView | server/src/routes/admin.ts:345-346 | the response carries the id, name, email, role and verification of the stored user |
| AdminRoutes.ViewIgnoresPassword | server/src/routes/admin.ts:345-346 | the response cannot depend on the password |
| AdminRoutes.InsertKeepsEmailsUnique | server/src/routes/admin.ts:328-342 | storing a user with an untaken email keeps emails unique |
| AdminRoutes.RemoveKeepsEmailsUnique | server/src/routes/admin.ts:391 | removing a user keeps emails unique |
| AdminRoutes.NewUser | server/src/routes/admin.ts:336-342 | role defaults to customer; email and verification as given |
| AdminRoutes.UserRegistry.CreateUser | server/src/routes/admin.ts:325-351 | a taken email gives 400 with no change; otherwise the user is stored under the new id and returned without password (201); emails stay unique |
| AdminRoutes.UserRegistry.DeleteUser | server/src/routes/admin.ts:374-391 | 404 for an unknown id, 400 for the caller's own id (no change either way), otherwise exactly that user goes; the caller is never removed |
| AdminRoutes.Customers | server/src/routes/admin.ts:176 | the customers of the list, all of them and nothing else |
| AdminRoutes.ListUsers | server/src/routes/admin.ts:170-201 | the response is the page of the customers (window and metadata as `Pagination.Paginate`, default limit 20); only customers are listed; total counts the customers |
| AdminRoutes.WithStatus | server/src/routes/admin.ts:129-130 | with a status, exactly the orders having it; without one, all orders |
| AdminRoutes.ListAllOrders | server/src/routes/admin.ts:122-155 | the response is the page of the orders with the given status, or of all orders (window and metadata as `Pagination.Paginate`, default limit 20); total counts the matching orders |
| Text.IndexOf | server/src/index.ts:81 | `indexOf`: the first position of the substring, or none when it does not occur |
| Text.Trim | server/src/index.ts:72 | `trim`: a contiguous part of the input with no trimmable character at either end |
| Text.TrimCharacterized | server/src/index.ts:72 | `trim` removes exactly the removable characters at both ends: the piece with only removable characters around it and none at its ends is the result |
| Text.TrimIdempotent | server/src/index.ts:72 | trimming twice is trimming once |
| Text.Split | server/src/index.ts:71 | `split(',')`: at least one piece and no separator in any piece |
| Text.JoinSplit | server/src/index.ts:71 | joining the pieces back with the separator gives the input |
| Text.SplitJoin | client/src/pages/admin/Products.tsx:363 | splitting separator-free pieces joined by the separator gives the pieces back |
| ServerEdge.CleanOrigins | server/src/index.ts:72-73 | the kept entries are non-empty and no more than the pieces |
| ServerEdge.CleanOriginsMembers | server/src/index.ts:72-73 | an entry is kept exactly when it is the non-empty trim of a piece |
| ServerEdge.ParseAllowedOrigins | server/src/index.ts:68-74 | an absent or empty setting gives no origins; no result is empty |
| ServerEdge.ParseAllowedOriginsMembers | server/src/index.ts:68-74 | an origin is listed exactly when it is the non-empty trim of a comma-separated entry, and it is trimmed |
| ServerEdge.LookAlikeRejected | server/src/index.ts:98 | a host that merely ends with the pattern's text, not at a label boundary, does not match |
| ServerEdge.IsOriginAllowedByPattern | server/src/index.ts:76-103 | without '*' exactly the identical origin matches; an unparseable origin never matches a wildcard |
| ServerEdge.SchemeWildcardMatch | server/src/index.ts:93-99 | a "scheme://*.host" pattern admits exactly the parseable origins with that protocol whose host is the host or a subdomain of it |
| ServerEdge.HostWildcardMatch | server/src/index.ts:80-90 | a "*.host" pattern without a scheme admits exactly the parseable origins whose host is the host or a subdomain of it, whatever their protocol |
| ServerEdge.FallbackOrigin | server/src/index.ts:106 | `CLIENT_URL`, or "http://localhost:3000" when absent or empty |
| ServerEdge.CorsAllows | server/src/index.ts:109-123 | no origin is always allowed; otherwise allowed exactly when a pattern admits it or it is the fallback origin |
| ServerEdge.CorsDefaultConfiguration | server/src/index.ts:105-123 | with neither setting, only "http://localhost:3000" (or no origin) passes |
| ServerEdge.LimiterSkips | server/src/index.ts:55-63 | skipped exactly for "/health", "/api/health" and user agents containing "Render/1.0" |
| ServerEdge.NoAgentOnlyHealthSkips | server/src/index.ts:57-62 | without a user agent only the two health paths are skipped |
| DbCheck.CheckDatabaseConnection | server/src/middleware/dbCheck.ts:4-22 | exactly one of next or a 503 with `success: false`; the 503 exactly for a path other than "/api/health" while not connected |
| DbCheck.MountedPath | server/src/index.ts:146 | under a mount the middleware sees the rest of the path after the mount path, or "/" |
| DbCheck.HealthStatus | server/src/index.ts:149-161 | the health handler answers 200 exactly when connected, else 503 |
| DbCheck.ServeAsWritten | server/src/index.ts:146-162 | when connected, the gate always hands the request on |
| DbCheck.HealthGatedWhenDown | server/src/middleware/dbCheck.ts:6 | as mounted, a health request while disconnected gets the gate's 503, never the health report |
| DbCheck.GateAsWritten | server/src/middleware/dbCheck.ts:6-19 | as mounted, the gate refuses every path under "/api" while disconnected except "/api/api/health" |
| DbCheck.HealthAlwaysReports | server/src/index.ts:146-162 | with the corrected gate the health endpoint always reports the connection state; other paths get a 503 exactly while disconnected |
| ImageUtils.FallbackChoice | client/src/utils/imageUtils.ts:14 | the fallback, or "/placeholder-image.jpg" when absent or empty; never empty, blob only if the fallback is |
| ImageUtils.PlaceholderNotBlob | client/src/utils/imageUtils.ts:6-8 | the placeholder is not a blob URL |
| ImageUtils.SafeImageUrl | client/src/utils/imageUtils.ts:13-28 | empty and blob URLs give the fallback choice; any other URL, data URLs included, is kept; the result is never empty and is blob only if the fallback is |
| ImageUtils.SafeImageUrlIdempotent | client/src/utils/imageUtils.ts:13-28 | with a non-blob fallback, sanitising twice is sanitising once |
| ImageUtils.SafeImageUrls | client/src/utils/imageUtils.ts:33-39 | an empty list gives the one fallback choice; otherwise the same length, sanitised position by position |
| ImageUtils.SafeImageUrlsClean | client/src/utils/imageUtils.ts:33-39 | with a non-blob fallback no blob or empty URL comes out |
| RegisterForm.SubmitForm | client/src/pages/Register.tsx:181-255 | the browser blocks the submit exactly when a required input is empty, the email is not well formed or the terms are unchecked; otherwise the handler runs |
| RegisterForm.SentRequestsAreComplete | client/src/pages/Register.tsx:81-255 | a request is sent exactly for a named, well-formed email, matching passwords of at least 6 characters and accepted terms |
| RegisterForm.Submit | client/src/pages/Register.tsx:81-98 | the handler, once the browser lets the submit through: a mismatch is reported first, then a password under 6; a request is sent exactly when both pass, without the confirmation |
| RegisterForm.InputChange | client/src/pages/Register.tsx:112-117 | the named field takes the value and every other field is kept |
| RegisterForm.MatchingPasswordsSend | client/src/pages/Register.tsx:81-117 | typing one long enough password into both inputs, in either order, sends name, email and that password |
| AdminRoute.Guard | client/src/components/AdminRoute.tsx:13-32 | a spinner while loading, "/login" without a user, "/" for a customer, and the page exactly for a loaded admin |
| AdminRoute.NonAdminNeverRendered | client/src/components/AdminRoute.tsx:21-32 | a visitor who is not an admin never sees the page, and is redirected once loading ends |
| ProductDetail.FirstOr | client/src/pages/ProductDetail.tsx:79-80 | `options[0] \|\| d`: the first option when present and non-empty, else the default |
| ProductDetail.AddToCart | client/src/pages/ProductDetail.tsx:64-85 | nothing before the product loads; a missing size is reported before a missing colour, each only when options exist; a line is added exactly when both guards pass, with non-empty size and colour |
| ProductDetail.AddedSelection | client/src/pages/ProductDetail.tsx:77-82 | an added line carries the chosen size or "M" and the chosen colour or "Black": the first-option fallbacks are never reached |
| ProductDetail.SubmitReview | client/src/pages/ProductDetail.tsx:87-98 | signed out asks to sign in; a blank comment is refused; otherwise the rating and the untrimmed comment are posted |
| ProductDetail.BlankCommentRefused | client/src/pages/ProductDetail.tsx:93-96 | a comment of white space only is never posted |
| ProductDetail.StepDown | client/src/pages/ProductDetail.tsx:324 | never below 1; one less when above 1 |
| ProductDetail.StepUp | client/src/pages/ProductDetail.tsx:333 | always one more, with no cap |
| ProductDetail.StepperRoundTrip | client/src/pages/ProductDetail.tsx:324-333 | "+" then "-" gives the quantity back, and "-" then "+" does above 1 |
| ProductDetail.AddDisabled | client/src/pages/ProductDetail.tsx:349-354 | disabled for an inactive product or one with no stock, enabled for an active one in stock |
| ProductDetail.Prev | client/src/pages/ProductDetail.tsx:544-546 | stays within the images, wrapping from the first to the last |
| ProductDetail.Next | client/src/pages/ProductDetail.tsx:570-572 | stays within the images, wrapping from the last to the first |
| ProductDetail.PrevNextInverse | client/src/pages/ProductDetail.tsx:544-572 | previous after next, and next after previous, are the identity |
| ProductDetail.NextTimesCycle | client/src/pages/ProductDetail.tsx:570-572 | pressing next once per image comes back to the same image |
| ProductDetail.Stars | client/src/pages/ProductDetail.tsx:100-116 | five stars, star i filled exactly when i < rating |
| ProductDetail.StarsFillFromLeft | client/src/pages/ProductDetail.tsx:110 | filled stars come before empty ones |
| ProductDetail.FilledStars | client/src/pages/ProductDetail.tsx:100-116 | the number of filled stars is the rating rounded up, clamped to 0..5 |
| ProductCard.QuickAdd | client/src/components/ProductCard.tsx:31-41 | no stock leaves the dialog as it was; otherwise it opens on the first size and colour (or "") and quantity 1 |
| ProductCard.Add | client/src/components/ProductCard.tsx:43-52 | refused unless both a size and a colour are set; otherwise the dialog's line is added and the dialog closes |
| ProductCard.QuickAddThenAdd | client/src/components/ProductCard.tsx:31-52 | a product in stock with named first options adds one unit of them straight away |
| ProductCard.StepUp | client/src/components/ProductCard.tsx:312 | `Math.min(stock, quantity + 1)`: never above the stock or one more |
| ProductCard.StepperWithinStock | client/src/components/ProductCard.tsx:305-312 | from a quantity in 1..stock, both buttons keep it in 1..stock |
| ProductCard.CardStars | client/src/components/ProductCard.tsx:171 | star i filled exactly when i + 1 ≤ rating, i.e. i < floor(rating) |
| ProductCard.CardStarsAtMostPage | client/src/components/ProductCard.tsx:171 | the tile never fills a star the product page leaves empty, and both agree on whole ratings |
| AdminProducts.OpenModal | client/src/pages/admin/Products.tsx:110-139 | editing copies name, description, price, category, the images (or none), the flags, and the lists and design with their defaults when absent, and stock or 0; creating starts from the initial form; previews match the images |
| AdminProducts.CloseModal | client/src/pages/admin/Products.tsx:141-146 | closed, editing nothing, the initial form and no previews |
| AdminProducts.CloseThenCreate | client/src/pages/admin/Products.tsx:133-146 | closing then opening for a new product is opening for it directly |
| AdminProducts.UploadImages | client/src/pages/admin/Products.tsx:168-169 | the new URLs go at the end of both lists; nothing else changes; equal lists stay equal |
| AdminProducts.RemoveImage | client/src/pages/admin/Products.tsx:178-184 | the image at the index leaves both lists, the rest keep order; equal lists stay equal |
| AdminProducts.UploadThenRemoveLast | client/src/pages/admin/Products.tsx:168-184 | removing the image just uploaded gives the previews back |
| AdminProducts.Toggle | client/src/pages/admin/Products.tsx:459-465 | checking appends the option; unchecking filters out every copy; other options keep their membership |
| AdminProducts.ToggleOnOff | client/src/pages/admin/Products.tsx:484-490 | checking then unchecking an unlisted option gives the list back |
| AdminProducts.MapTrim | client/src/pages/admin/Products.tsx:363 | one trimmed entry per piece |
| AdminProducts.SplitTrim | client/src/pages/admin/Products.tsx:441 | one trimmed entry per comma-separated piece, empty pieces kept |
| AdminProducts.DisplayRoundTrip | client/src/pages/admin/Products.tsx:362-363 | a non-empty list of trimmed comma-free entries, shown joined by ", " and read back, is unchanged |
| AdminProducts.EmptyListNotRoundTripped | client/src/pages/admin/Products.tsx:362-363 | an empty list is read back as one empty entry |
| AdminProducts.Submit | client/src/pages/admin/Products.tsx:186-194 | an update of the edited product exactly when one is being edited, else a create, with the form as data |
| AdminProducts.OpenThenSubmit | client/src/pages/admin/Products.tsx:110-194 | opening a product and submitting updates that product; opening for a new one creates the initial form |
| AdminUsers.SearchParam | client/src/pages/admin/Users.tsx:42 | the search term is sent exactly when it is non-empty |
| AdminUsers.PagerIffMoreThanAPage | client/src/pages/admin/Users.tsx:277 | with the server's page count, the pager appears exactly when there are more than 10 customers |
| AdminUsers.RangeStart | client/src/pages/admin/Users.tsx:280 | the range starts one after the documents skipped |
| AdminUsers.RangeEnd | client/src/pages/admin/Users.tsx:280 | the range ends at the smaller of page times 10 and the total |
| AdminUsers.RangeWithinTotal | client/src/pages/admin/Users.tsx:280 | on a page in range, 1 ≤ start ≤ end ≤ total and the range holds at most 10 |
| AdminUsers.RangesAdjacent | client/src/pages/admin/Users.tsx:280-295 | consecutive pages show adjacent ranges |
| AdminUsers.ButtonsStayInRange | client/src/pages/admin/Users.tsx:283-295 | from a page in range, an enabled button leads to a page in range; both disabled only with one page |
| AdminUsers.OpenModal | client/src/pages/admin/Users.tsx:79-100 | editing pre-fills name, email, role and verification but never the password; a new user starts blank |
| AdminUsers.CloseModal | client/src/pages/admin/Users.tsx:102-112 | editing nothing, the blank form |
| AdminUsers.Submit | client/src/pages/admin/Users.tsx:114-117 | always the create request with the form's fields |
| AdminUsers.SubmitIgnoresEditing | client/src/pages/admin/Users.tsx:114-117 | what is sent does not depend on whether a user is being edited |
| AdminUsers.EditResubmitsTakenEmail | client/src/pages/admin/Users.tsx:114-117 | editing a stored user and submitting unchanged asks to create a user with a taken email, which the registry refuses |

## Left out

- Payments (server/src/routes/payments.ts): foreign SDK calls and webhooks; their effect on an order is the paid hook in `OrderModel.AfterSave`.
- The dashboard and analytics aggregation pipelines in server/src/routes/admin.ts, the regex search of the admin listings, `populate`, and ObjectId casting. Ids are plain numbers.
- Mongoose validation as a step. Schema bounds are predicates (`WithinBounds`), and the save methods prove they are kept. The validation error paths are not modelled: the 400 `ValidationError` responses, and the order in which validation runs against the hooks. An `Order.create` that fails validation after the decrements is not modelled either. In particular, Mongoose validates before it runs the save hooks, and `orderNumber` and `total` are required (Order.ts:62-66, 186-190) but set only by those hooks, while `POST /orders` supplies neither (orders.ts:147-156). If validation runs first, every create would answer 400 after the stock decrements. `OrderRoutes.CreateOrder`'s created outcome models the reading in which the hooks fill those fields before they are checked.
- Database connection, retry timers and signal handlers (server/src/config/database.ts): I/O and time. `readyState` is a parameter.
- The cart's localStorage persistence (CartContext.tsx:34-50), the `FileReader` conversions (imageUtils.ts:44-58), toasts, rendering and animation, the static pages, and the seed scripts.
- The HTTP client and its interceptors (client/src/services/api.ts), and the token flows of client/src/contexts/AuthContext.tsx. The guard takes the user's role as a parameter.
- The user schema, server/src/models/User.ts, is not part of this model. The user routes' 404 for a missing user document, and the authentication middleware, are not modelled either.
- Random and time-based SKU and order-number suffixes are a `stamp` parameter, and dates are a `now` parameter. `orderAge` is not modelled.
- URL parsing (`new URL`) is a parameter `parseUrl`, not a model of the URL standard.
- The email address grammar of the browser's `type="email"` check is a parameter `wellFormedEmail`.
- The listings' `.sort({ createdAt: -1 })` (orders.ts:25, admin.ts:141 and 188): creation dates are not modelled, so the rows a listing is given are taken to be in the store's newest-first order already.
- Concurrency. Each handler is one sequential step; requests do not interleave.
- Intl currency formatting (client/src/utils/currency.ts): a library call.
- The rate limiter's window and counting, and how its mount strips "/api": only the skip predicate is modelled, on the path it is given.
- CartStore.Cart.RemoveFromCart: requires an index in range. The source reads the line at the index before filtering, so an out-of-range index throws inside the state updater.
- CartStore.Cart.UpdateQuantity: requires an index in range, for the same reason.
- CartStore.Cart.AddToCart: `+=` on a shallow copy of the list also changes the line object the previous state shares. Only the new list is modelled, not that aliasing.
- UserRoutes.UserDocument.AddAddress: the new address id is a parameter (the source makes a fresh ObjectId).
- AdminRoutes.UserRegistry.CreateUser: requires the new id to be unused, because the database assigns fresh ids.
- AdminRoutes.UserRegistry.CreateUser: email lookup is exact string equality; no case folding is modelled.
- OrderRoutes.UpdateOrderStatus: an absent `status` in the request body is not modelled; the status is always a given string.
- String lengths count characters, not JavaScript's UTF-16 code units. This affects the 6-character password check and the schema length bounds.
- RegisterForm.InputChange: an input name outside the four form fields is not modelled. The source would add that key to the form.
- ProductModel.DiscountPercentage, ProductModel.RecomputeRating and CartSummary.ProgressPercent use exact reals, not floating point.
- Review ratings are whole numbers in the model; the schema accepts any number from 1 to 5. The rating bounds hold either way.
- CartStore.Cart.GetTotalItems: stated as the left fold of the line quantities. What it means for adding and removing lines is proved in AddItemCount and RemoveTotals.
- CartStore.Cart.GetSubtotal: stated as the left fold of price times quantity. Its behaviour under add and remove is proved in AddSubtotal and RemoveTotals.

## Findings

| source | as written | input that shows it | evidently intended | confidence | as-written member | corrected member |
|---|---|---|---|---|---|---|
| server/src/routes/orders.ts:246-252 | cancel adds each quantity to `sizes.$[elem].stock` for a matching size element; creation took it from the top-level `stock` | any order whose product had stock 10: create with quantity 2, then cancel, leaves stock 8 | cancel adds the quantity back to `stock` | not executed | OrderRoutes.CreateThenCancelLosesStock | OrderRoutes.RestockRoundTrip |
| server/src/routes/orders.ts:112-144 | each item is checked against the stock read before any decrement | two lines for product 7, size M, quantity 1 each, with stock 1: both pass and the stock ends at -1 | the summed quantity per product is checked against its stock | not executed | OrderRoutes.DuplicateLinesOversell | OrderRoutes.AggregateCheckKeepsStock |
| server/src/middleware/dbCheck.ts:6 | the bypass compares `req.path` with "/api/health", but mounted at "/api" the gate sees "/health" | GET /api/health while the database is disconnected returns the gate's generic 503, not the health report | the health endpoint bypasses the gate: the bypass compares the full request path | not executed | DbCheck.HealthGatedWhenDown | DbCheck.HealthAlwaysReports |
