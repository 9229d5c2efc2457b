# ERP ordering app — a verified Dafny model

This project models the data logic of a small MERN ordering application:
an Express back end over MongoDB, and React screens for customers, suppliers,
inspectors and administrators.

- **Back end.**
  - The order routes: create, pay, supplier ship-out ("deliver"), inspector
    confirmation ("markdeliver"), item replacement, bulk delete, the `/mine`
    and `/delivered` queries, and the `/summary` group-bys.
  - The product routes: create with defaults, full-overwrite update, delete,
    the supplier's paged listing, search with its filters and sort table,
    categories, and look-up by slug or id.
  - The product schema, with its required, unique and default constraints.
  - The inventory-item patch route, the PayPal key route and the error
    middleware of `server.js`.
  - The `baseUrl` choice, the token payload, bearer-token authentication and
    the three role gates of `utils.js`.
- **Front end.**
  - The `useReducer` reducers of the order, product, order-list, history,
    product-list and dashboard screens.
  - The effects and handlers, as sequences of dispatched actions.
  - The cart's stock checks, its digit-only quantity filter and its subtotals.
  - The order tables' selection toggling and in-place date sort.
  - The visibility predicates of the buttons.
  - The page links, the dashboard's cards and chart, and the inspector's
    inventory table.

How the model is built:

- Each source file is one Dafny module. Shared records and helpers live in six
  modules of their own:
  - `Common`: option, identifiers, day of a timestamp, replies, filtering;
  - `Text`: decimal digit strings and ASCII case folding;
  - `Orders`: cart lines, order lines and orders;
  - `OrderSummary`: the `/summary` pipelines;
  - `OrderList`: what the two order tables share;
  - `CartRules`: the cart look-up, the stock check and an effect recorder.
- Collections are sequences in natural (insertion) order with distinct ids.
- MongoDB identifiers are natural numbers, handed out by a counter.
- Timestamps are integer milliseconds. The calendar day `'%Y-%m-%d'` is
  `Day(t) = t / 86400000`.
- Prices are integers in minor units.
- Stateful parts are classes whose methods are proved against pure functions:
  the order and product stores, the inventory-item store and the page states.
- The server's replies, the clock, user confirmations and library calls
  (JWT verification) are parameters.

## Model

| member | source | states |
|---|---|---|
| Common.Filter | frontend/src/screens/CartScreen.js:122 | keeps exactly the elements that pass, each from the input; the result is a sub-multiset no longer than the input |
| Common.FilterKeepsAll | frontend/src/screens/AdminOrderList.js:112-118 | filtering a sequence whose elements all pass returns it unchanged |
| Common.FilterDropsAll | frontend/src/screens/CartScreen.js:122 | filtering a sequence none of whose elements passes returns the empty sequence |
| Common.FilterAppend | frontend/src/screens/CartScreen.js:122 | filtering distributes over concatenation, so kept elements keep their order |
| Text.DigitChar | frontend/src/screens/ProductListScreen.js:190-198 | the character for a digit value is a digit with that value |
| Text.NatToString | frontend/src/screens/ProductListScreen.js:190-198 | the decimal text of a number is non-empty and all digits |
| Text.ParseNatToString | frontend/src/screens/CartScreen.js:120-124 | reading back a number's decimal text gives the number (round trip) |
| Text.NatToStringInjective | backend/routes/productRoutes.js:19-28 | different numbers have different decimal texts |
| Text.LowerString | backend/routes/productRoutes.js:108-116 | ASCII lower-casing keeps the length and folds each character |
| ProductModel.NewProduct | backend/routes/productRoutes.js:19-28 | a new product has price 0, stock 0, the default category, brand and image, no extra images, the schema's empty variant and measurement lists, both timestamps `now`, and every required field non-empty |
| ProductModel.NewProductKeysByTime | backend/routes/productRoutes.js:19-28 | two new products have equal names, and equal slugs, exactly when they were created in the same millisecond |
| ProductModel.IndexOfProduct | backend/models/productModel.js:3-20 | finds the first product with the id, or reports that no product has it |
| Orders.IndexOfOrder | backend/routes/orderRoutes.js:165 | finds the first order with the id, or reports that no order has it |
| OrderRoutes.ToOrderItems | backend/routes/orderRoutes.js:26 | each line keeps every field of its cart entry and takes the entry's own id as `product` |
| OrderRoutes.NewOrder | backend/routes/orderRoutes.js:25-34 | the new order belongs to the authenticated user; it copies the shipping address, the payment method and the four prices unchanged; line `i` is cart entry `i` with `product` set to that entry's id; it starts unpaid, unshipped and unmarked |
| OrderRoutes.Paid | backend/routes/orderRoutes.js:205-212 | pay sets `isPaid`, `paidAt = now` and the payment record from the body, and changes no other field |
| OrderRoutes.Shipped | backend/routes/orderRoutes.js:167-168 | ship-out sets only `isDelivered` and `deliveredAt = now`, with no paid check |
| OrderRoutes.MarkedDelivered | backend/routes/orderRoutes.js:184-185 | mark-delivered sets only `markDelivered` and overwrites `deliveredAt` with `now` |
| OrderRoutes.Updated | backend/routes/orderRoutes.js:149-150 | update replaces only the items and the total price |
| OrderRoutes.PaySecondTimeOverwrites | backend/routes/orderRoutes.js:204-214 | paying twice equals paying once with the second call's time and record: the first `paidAt` is lost |
| OrderRoutes.MarkOverwritesShipTime | backend/routes/orderRoutes.js:167-168 | after shipping and marking, the order keeps `isDelivered` and only the marking time |
| OrderRoutes.UnpaidOrdersShipAndDeliver | backend/routes/orderRoutes.js:178-187 | an unpaid order can be shipped and marked delivered and stays unpaid |
| OrderRoutes.Remaining | backend/routes/orderRoutes.js:250 | bulk delete keeps exactly the orders whose id is not listed, removes something exactly when some stored id is listed, and keeps ids distinct |
| OrderRoutes.Mine | backend/routes/orderRoutes.js:85 | `/mine` returns exactly the stored orders of the requester |
| OrderRoutes.DeliveredOrders | backend/routes/orderRoutes.js:96 | exactly the stored orders with `markDelivered` |
| OrderRoutes.NameOf | backend/routes/orderRoutes.js:15 | the populated name belongs to a user with that id, or no user has the id |
| OrderRoutes.AllOrders | backend/routes/orderRoutes.js:11-18 | `GET /` lists every order in store order, each with its user's name looked up |
| OrderRoutes.RefOf | backend/routes/orderRoutes.js:97 | a line's product is populated exactly when a product has that id, with its name, category and stock |
| OrderRoutes.PopulateItems | backend/routes/orderRoutes.js:97 | every line keeps its fields and gets its product looked up |
| OrderRoutes.PopulateOrders | backend/routes/orderRoutes.js:96-97 | every order keeps its fields and gets its lines populated |
| OrderRoutes.Delivered | backend/routes/orderRoutes.js:90-103 | `/delivered` lists only stored, marked orders, and lists every one of them |
| OrderRoutes.MarkedOrderIsListed | backend/routes/orderRoutes.js:178-192 | once the inspector marks an order, `/delivered` lists it |
| OrderRoutes.OrderStore.constructor | backend/routes/orderRoutes.js:9 | the store starts empty and valid |
| OrderRoutes.OrderStore.Create | backend/routes/orderRoutes.js:21-39 | appends the new order and nothing else, keeps ids distinct, and answers 201 'New Order Created' |
| OrderRoutes.OrderStore.Get | backend/routes/orderRoutes.js:105-137 | returns the stored order with the id when its user still exists; a stored order whose user was deleted gives 500 (reading `order.user.name` throws); no stored order gives 404 'Order Not Found' |
| OrderRoutes.OrderStore.Pay | backend/routes/orderRoutes.js:195-238 | replaces exactly the addressed order with its paid version and answers 'Order Paid' whatever the mail outcome; if the order's user was deleted the order is still saved paid but the reply is 500; a missing id gives 404 and no change |
| OrderRoutes.OrderStore.Deliver | backend/routes/orderRoutes.js:161-175 | replaces exactly the addressed order with its shipped version and answers 'Order Delivered'; a missing id gives 404 and no change |
| OrderRoutes.OrderStore.MarkDeliver | backend/routes/orderRoutes.js:178-192 | replaces exactly the addressed order with its marked version and answers 'Order Marked as Delivered'; a missing id gives 404 and no change |
| OrderRoutes.OrderStore.Update | backend/routes/orderRoutes.js:139-159 | replaces the addressed order's items and total and returns it; a missing id gives 404 and no change |
| OrderRoutes.OrderStore.DeleteMany | backend/routes/orderRoutes.js:241-261 | removes exactly the listed orders; answers 200 when something went and 404 'No orders were deleted' otherwise; a missing `orderIds` matches nothing, so no change and 404 |
| OrderSummary.OrdersGroup | backend/routes/orderRoutes.js:42-50 | one group when there are orders, none otherwise, carrying the order count and the sum of `totalPrice` |
| OrderSummary.UsersGroup | backend/routes/orderRoutes.js:51-58 | one group carrying the user count when there are users, none otherwise |
| OrderSummary.NoOrdersNoSales | backend/routes/orderRoutes.js:63-64 | a day with no orders has no sales |
| OrderSummary.AscendingCons | backend/routes/orderRoutes.js:67 | a bucket below an ascending list extends it ascending |
| OrderSummary.DaysCons | backend/routes/orderRoutes.js:62 | the days of a list are its head's day and its tail's days |
| OrderSummary.AddKeepsAscending | backend/routes/orderRoutes.js:59-68 | adding an order to the day buckets keeps them strictly ascending and adds exactly its day |
| OrderSummary.AllAbove | backend/routes/orderRoutes.js:67 | a bound below every old day and the new day is below every resulting day |
| OrderSummary.AddBucketOf | backend/routes/orderRoutes.js:59-68 | adding an order bumps the count and sales of its own day's bucket (or creates it) and no other |
| OrderSummary.NoBucketBelow | backend/routes/orderRoutes.js:67 | an ascending list has no bucket for a day below its first |
| OrderSummary.AddTotals | backend/routes/orderRoutes.js:63-64 | adding an order raises the bucket counts by one and the bucket sales by its total |
| OrderSummary.DailyOrders | backend/routes/orderRoutes.js:59-68 | the daily buckets are strictly ascending by day |
| OrderSummary.DailyOrdersGroup | backend/routes/orderRoutes.js:59-68 | the bucket of a day holds exactly that day's count and sales, and a day without orders has none |
| OrderSummary.BucketOfAscending | backend/routes/orderRoutes.js:67 | in an ascending list each bucket is the one found for its day |
| OrderSummary.DailyOrdersBuckets | backend/routes/orderRoutes.js:59-68 | every bucket has at least one order, and its day's count and sales |
| OrderSummary.DailyOrdersDays | backend/routes/orderRoutes.js:62 | there is one bucket per distinct creation day |
| OrderSummary.DailyOrdersTotals | backend/routes/orderRoutes.js:59-68 | the bucket counts add up to `numOrders` and the bucket sales to `totalSales` |
| OrderSummary.ProductCategories | backend/routes/orderRoutes.js:69-76 | each category that has products maps to its number of products, and no other category appears |
| OrderSummary.SummaryOf | backend/routes/orderRoutes.js:77 | the reply has a user group exactly when there are users, holding their count; an order group exactly when there are orders, with their count and total; the daily buckets in ascending order; and per category the number of products in it, for exactly the categories that have any |
| ProductRoutes.Overwritten | backend/routes/productRoutes.js:40-55 | update overwrites exactly the nine fields from the body, with no bound on price or stock; it fails validation exactly when a required field is missing |
| ProductRoutes.SameMillisecondCreatesCollide | backend/routes/productRoutes.js:19-30 | two products created in the same millisecond cannot both be saved |
| ProductRoutes.CreateAcceptedIff | backend/models/productModel.js:5-6 | with a fresh id, a new product is accepted exactly when its name and slug are unused |
| ProductRoutes.IndexBySlug | backend/routes/productRoutes.js:172-179 | finds the first product with the slug, or reports that none has it |
| ProductRoutes.FindBySlug | backend/routes/productRoutes.js:172-179 | the product found has the slug, or no product has it |
| ProductRoutes.FindById | backend/routes/productRoutes.js:181-188 | the product found has the id, or no product has it |
| ProductRoutes.LookupsFindEachProduct | backend/models/productModel.js:5-6 | in a valid catalog, each product is what both look-ups return for its slug and its id |
| ProductRoutes.GetBySlug | backend/routes/productRoutes.js:172-179 | returns a product with the slug exactly when one exists, else 404 'Product not found' |
| ProductRoutes.GetById | backend/routes/productRoutes.js:181-188 | returns a product with the id exactly when one exists, else 404 'Product not found' |
| ProductRoutes.Categories | backend/routes/productRoutes.js:164-170 | every product's category is listed, and only such categories |
| ProductRoutes.CountCategoryPositive | backend/routes/orderRoutes.js:69-76 | a category is counted exactly when some product has it |
| ProductRoutes.CategoriesAreSummaryKeys | backend/routes/productRoutes.js:164-170 | `/categories` lists exactly the keys of the summary's category counts |
| ProductRoutes.Window | backend/routes/productRoutes.js:84-86 | `skip`/`limit` returns the consecutive products from the offset, at most `limit` of them, and as many as remain when fewer |
| ProductRoutes.LimitOf | backend/routes/productRoutes.js:83-86 | the number of products `.limit(pageSize)` lets through is the absolute value of the page size, 0 (no limit) only for a zero size |
| ProductRoutes.PageCount | backend/routes/productRoutes.js:92 | a page count exists exactly for a non-zero page size; it is never negative for a positive size and never positive for a negative one |
| ProductRoutes.PageCountIsCeiling | backend/routes/productRoutes.js:92 | the page count is the ceiling of count over size for either sign of the size: for a positive size the least number of full pages covering the count |
| ProductRoutes.Paginate | backend/routes/productRoutes.js:80-93 | page defaults to 1 and size to 7; a negative offset is a 500 through the error middleware; otherwise the products are the window of `|size|` products starting at `size * (page - 1)` (a negative size lists at most `-size` products and reports at most 0 pages), the count is the whole input, the page is echoed and `pages` is the ceiling of count over size |
| ProductRoutes.SupplierPage | backend/routes/productRoutes.js:76-95 | `/supplier` counts the whole collection |
| ProductRoutes.NegativePageSize | backend/routes/productRoutes.js:82-92 | with page size `-n` the first page lists the first `n` products and reports minus the number of full pages of `n` as its page count; the second page is a 500 |
| ProductRoutes.DivBounds | backend/routes/productRoutes.js:84 | an offset lies within the page its quotient names |
| ProductRoutes.MulCancelLess | backend/routes/productRoutes.js:84 | cancelling a positive factor keeps a strict order |
| ProductRoutes.ProductOnItsPage | backend/routes/productRoutes.js:76-95 | product `k` appears on page `k / size + 1` at position `k % size`, and that page is within the page count |
| ProductRoutes.ProductOnOnePage | backend/routes/productRoutes.js:84-86 | with unique ids, a `/supplier` page that lists product `k` is page `k / size + 1`: no other page holds it |
| ProductRoutes.PageOfIndex | backend/routes/productRoutes.js:84-86 | the offset window of page `page` contains index `k` only when `page == k / size + 1` |
| ProductRoutes.UpToDash | backend/routes/productRoutes.js:123 | `split('-')[0]` is a dash-free prefix of the text |
| ProductRoutes.AfterDash | backend/routes/productRoutes.js:124 | there is a second piece exactly when the text has a dash |
| ProductRoutes.DigitsHaveNoDash | backend/routes/productRoutes.js:123-124 | a digit string contains no dash |
| ProductRoutes.SplitAtDash | backend/routes/productRoutes.js:123-124 | splitting `a-b` at the dash gives back `a` and `b` |
| ProductRoutes.UpToDashWhole | backend/routes/productRoutes.js:123 | a text with no dash is its own first piece |
| ProductRoutes.PriceRangeKeeps | backend/routes/productRoutes.js:118-127 | the price value `lo-hi` keeps exactly the products with `lo <= price <= hi` |
| ProductRoutes.Active | backend/routes/productRoutes.js:109 | a filter value is applied exactly when it is truthy and not 'all' |
| ProductRoutes.NameMatches | backend/routes/productRoutes.js:108-116 | an inactive query keeps every product; an active one keeps exactly the names containing it, ignoring case |
| ProductRoutes.NameWithQueryMatches | backend/routes/productRoutes.js:108-116 | a name containing the query text verbatim passes the name filter |
| ProductRoutes.CategoryMatches | backend/routes/productRoutes.js:117 | a product passes exactly when the category value is inactive or equals its category |
| ProductRoutes.NumberOf | backend/routes/productRoutes.js:123-124 | `Number` of a piece is a number exactly when the piece is present and all decimal digits |
| ProductRoutes.NumberOfNatToString | backend/routes/productRoutes.js:123-124 | `Number` reads back the decimal text of a number |
| ProductRoutes.PriceBounds | backend/routes/productRoutes.js:123-124 | the lower bound is a number exactly when the text before the first dash is digits; without a dash the upper bound is `NaN` |
| ProductRoutes.PriceBoundsOfRange | backend/routes/productRoutes.js:123-124 | the bounds of `lo-hi` are `lo` and `hi`, so that value is not rejected |
| ProductRoutes.PriceMatches | backend/routes/productRoutes.js:118-127 | an inactive price value keeps every product; a product passes an active one only when both bounds are numbers |
| ProductRoutes.Matches | backend/routes/productRoutes.js:141-145 | the spread filter is the conjunction of the name, category and price filters; with all three inactive every product passes |
| ProductRoutes.PriceWithNaNFails | backend/routes/productRoutes.js:118-127 | an active price value with no dash, or whose first piece is not digits, makes the search answer 500 through the error middleware |
| ProductRoutes.WindowSorted | backend/routes/productRoutes.js:146-148 | skipping and limiting a sorted list keeps it sorted |
| ProductRoutes.SortFor | backend/routes/productRoutes.js:128-139 | only 'lowest' sorts ascending, and exactly the five known values choose a field other than `_id` |
| ProductRoutes.SortedCons | backend/routes/productRoutes.js:141-148 | a product with the least key in front of a sorted list keeps it sorted |
| ProductRoutes.InsertByKey | backend/routes/productRoutes.js:141-148 | inserting into a sorted list keeps it sorted and adds exactly that product |
| ProductRoutes.SortedTail | backend/routes/productRoutes.js:141-148 | the tail of a sorted list is sorted |
| ProductRoutes.SortByKey | backend/routes/productRoutes.js:141-148 | `.sort(sortOrder)` returns a permutation of the input ordered by the chosen key |
| ProductRoutes.Search | backend/routes/productRoutes.js:97-162 | a `NaN` price bound or a negative offset is a 500 through the error middleware; otherwise the products are the `/supplier`-style window of the matching products sorted by the chosen key, so they are sorted, stored and matching, at most `|pageSize|` of them (7 by default), with at most 0 pages for a negative size; the count uses the same filter, the page is echoed and `pages` is the ceiling |
| ProductRoutes.RemoveAt | backend/routes/productRoutes.js:64-70 | removing one product keeps the catalog valid and drops exactly the products with its id |
| ProductRoutes.ProductStore.constructor | backend/models/productModel.js:3-20 | the catalog starts empty and valid |
| ProductRoutes.ProductStore.Create | backend/routes/productRoutes.js:14-32 | appends the default product when its name and slug are free and answers 'Product Created'; otherwise the save fails, the error middleware answers 500 with the database's message and nothing changes |
| ProductRoutes.ProductStore.Update | backend/routes/productRoutes.js:34-57 | replaces the addressed product with its overwritten version when that passes validation, else the error middleware's 500 and no change; a missing id gives 404 and no change |
| ProductRoutes.ProductStore.Delete | backend/routes/productRoutes.js:59-72 | removes exactly the addressed product and answers 'Product Deleted'; a missing id gives 404 and no change |
| Server.Patched | backend/server.js:58-67 | `name` and `category` are replaced only by a truthy value; `quantity` whenever it is defined, zero and negative included |
| Server.PatchIdempotent | backend/server.js:58-67 | applying the same body twice equals applying it once |
| Server.PatchLeavesAbsentFields | backend/server.js:58-67 | absent fields and empty strings leave the item as it was; a defined quantity is stored |
| Server.PutItemAsWritten | backend/server.js:46-76 | as written, every request ends in the 500 branch with `success: false` and changes nothing |
| Server.PutItem | backend/server.js:46-76 | an unknown id gives 404 'Item not found' and no change; a known one is patched, saved and sent back; the set of ids is unchanged |
| Server.AsWrittenNeverUpdates | backend/server.js:52 | for a stored item the written route fails where the intended one succeeds, and the item keeps its fields |
| Server.AsWrittenRenameExample | backend/server.js:52 | a concrete rename the written route loses and the intended route applies |
| Server.ItemStore.constructor | backend/server.js:46-76 | the store holds the given items |
| Server.ItemStore.Update | backend/server.js:46-76 | the in-place update's reply and new collection are the intended route's result |
| Server.PaypalClientId | backend/server.js:35-37 | the configured client id when set, else 'sb' |
| Server.ErrorMiddleware | backend/server.js:79-81 | an error thrown in a route becomes a 500 carrying the error's message; the failed product saves, the rejected pages and searches, and the order routes' missing-user errors all reply through it |
| Utils.BaseUrl | backend/utils.js:4-9 | `BASE_URL` when set; else the localhost URL outside production and the production URL in it |
| Utils.GenerateToken | backend/utils.js:11-26 | the payload carries exactly id, name, email and the three role flags, and the token expires 30 days after issue |
| Utils.TokenOf | backend/utils.js:32 | the token is the header with its first seven characters dropped |
| Utils.TokenAfterAnyPrefix | backend/utils.js:32 | any seven-character prefix, 'Bearer ' included, gives back the token |
| Utils.IsAuth | backend/utils.js:29-48 | no header gives 401 'No Token'; a token that fails to verify gives 401 'Invalid Token'; otherwise `next` runs with the decoded payload |
| Utils.IsAdmin | backend/utils.js:50-56 | passes exactly when a user is set and is an admin, else 401 'Invalid Admin Token' |
| Utils.IsSupplier | backend/utils.js:58-64 | passes exactly when a user is set and is a supplier, else 401 'Invalid Supplier Token' |
| Utils.IsInspector | backend/utils.js:66-72 | passes exactly when a user is set and is an inspector, else 401 'Invalid Inspector Token' |
| Utils.GatesFollowIssuedRoles | backend/utils.js:11-72 | a request with a token issued to a user passes each gate exactly when the user has that role, independently of the others |
| Utils.NoHeaderDeniesEveryGate | backend/utils.js:45-47 | without a header every gate denies |
| OrderScreen.Reduce | frontend/src/screens/OrderScreen.js:18-54 | the new state of each of the fifteen actions, field by field; each action changes only fields of its own group, and an unknown action returns the state unchanged |
| OrderScreen.RunAppend | frontend/src/screens/OrderScreen.js:124-182 | dispatching two sequences in turn equals dispatching their concatenation |
| OrderScreen.RunOne | frontend/src/screens/OrderScreen.js:124-182 | dispatching one action is one reducer step |
| OrderScreen.RunSnoc | frontend/src/screens/OrderScreen.js:124-182 | dispatching one more action is one more reducer step |
| OrderScreen.RunPair | frontend/src/screens/OrderScreen.js:184-200 | dispatching two actions is two reducer steps |
| OrderScreen.ResetsClearOwnFlags | frontend/src/screens/OrderScreen.js:32-49 | PAY_RESET, DELIVER_RESET and MARK_RESET clear their own loading and success flags, touch no other group, and are idempotent |
| OrderScreen.ResetActions | frontend/src/screens/OrderScreen.js:148-156 | a reset is dispatched exactly for each success flag that is set |
| OrderScreen.RefetchActions | frontend/src/screens/OrderScreen.js:140-156 | a refetch starts with FETCH_REQUEST and ends with the fetch's outcome |
| OrderScreen.RefetchSteps | frontend/src/screens/OrderScreen.js:140-156 | FETCH_REQUEST does not change which resets are due, and the refetch runs request, resets, outcome |
| OrderScreen.ResetsClear | frontend/src/screens/OrderScreen.js:148-156 | the resets clear all three success flags and leave the fetch fields alone |
| OrderScreen.RefetchSettles | frontend/src/screens/OrderScreen.js:140-156 | after a refetch loading is over and all success flags are clear; a fetched order is stored with no error, and once it is the route's order no further refetch is needed |
| OrderScreen.RequestsSettle | frontend/src/screens/OrderScreen.js:101-119 | pay, deliver and mark requests each end with their loading flag down on success and failure, raise their success flag only on success, and touch no other group |
| OrderScreen.SuccessTriggersRefetch | frontend/src/screens/OrderScreen.js:140-146 | a successful pay, ship-out or mark makes the effect refetch |
| OrderScreen.ShowPayPal | frontend/src/screens/OrderScreen.js:338 | the PayPal buttons show exactly while the order is unpaid |
| OrderScreen.ButtonsFollowRoutes | frontend/src/screens/OrderScreen.js:338-364 | PayPal buttons show only for an unpaid order, ship-out for a supplier on a paid, unshipped order, mark for an inspector on a paid, unmarked order; the amount is `totalPrice` |
| OrderScreen.OrderPage.constructor | frontend/src/screens/OrderScreen.js:77-83 | the page starts in the initial state with nothing dispatched |
| OrderScreen.OrderPage.Dispatch | frontend/src/screens/OrderScreen.js:18-54 | a dispatch applies the reducer and records the action |
| OrderScreen.OrderPage.Effect | frontend/src/screens/OrderScreen.js:124-182 | signed out, it navigates to '/login'; signed in, it refetches exactly when the condition holds, and otherwise changes no state |
| OrderScreen.OrderPage.Refetch | frontend/src/screens/OrderScreen.js:140-156 | dispatches FETCH_REQUEST, the due resets and the outcome, and the state is their run |
| OrderScreen.OrderPage.DispatchResets | frontend/src/screens/OrderScreen.js:148-156 | dispatches exactly the due resets in order |
| OrderScreen.OrderPage.PayHandler | frontend/src/screens/OrderScreen.js:101-119 | dispatches PAY_REQUEST then PAY_SUCCESS or PAY_FAIL |
| OrderScreen.OrderPage.DeliverHandler | frontend/src/screens/OrderScreen.js:184-200 | dispatches DELIVER_REQUEST then DELIVER_SUCCESS or DELIVER_FAIL |
| OrderScreen.OrderPage.MarkHandler | frontend/src/screens/OrderScreen.js:201-217 | dispatches MARK_REQUEST then MARK_SUCCESS or MARK_FAIL |
| CartRules.FindInCart | frontend/src/screens/ProductScreen.js:57 | finds a cart entry with the id, or reports that none has it |
| CartRules.RequestedQuantityCounts | frontend/src/screens/ProductScreen.js:57-58 | the request is one more than the cart's quantity for a product in the cart and 1 otherwise; a request that passes the check never exceeds the fetched stock |
| CartRules.Effects.constructor | frontend/src/screens/CartScreen.js:17-35 | nothing dispatched, alerted or navigated yet |
| CartRules.Effects.Dispatch | frontend/src/screens/CartScreen.js:23-26 | records one store action and nothing else |
| CartRules.Effects.Alert | frontend/src/screens/CartScreen.js:20-22 | records one alert and nothing else |
| CartRules.Effects.Navigate | frontend/src/screens/CartScreen.js:33-35 | records one navigation and nothing else |
| CartScreen.UpdatePayload | frontend/src/screens/CartScreen.js:17-27 | nothing is dispatched exactly when the fetched stock is below the request; otherwise the line takes the requested quantity and the fetched variant and measurement lists, and keeps everything else |
| CartScreen.UpdateCart | frontend/src/screens/CartScreen.js:17-27 | a short stock gives one alert and no dispatch; otherwise exactly one CART_ADD_ITEM with that payload |
| CartScreen.ChoicePayload | frontend/src/screens/CartScreen.js:77-93 | a variant or measurement choice never reaches the cart line |
| CartScreen.RemoveItem | frontend/src/screens/CartScreen.js:29-31 | dispatches exactly one CART_REMOVE_ITEM for the line |
| CartScreen.Checkout | frontend/src/screens/CartScreen.js:33-35 | navigates to '/signin?redirect=/shipping' and dispatches nothing |
| CartScreen.DigitsOnly | frontend/src/screens/CartScreen.js:122 | the filtered text is all digits, keeps every digit and adds nothing |
| CartScreen.DigitsOnlyAppend | frontend/src/screens/CartScreen.js:122 | the filter keeps the digits in their original order |
| CartScreen.DigitsOnlyIdempotent | frontend/src/screens/CartScreen.js:122 | filtering twice equals filtering once |
| CartScreen.InputOfNumber | frontend/src/screens/CartScreen.js:120-124 | typing a number's decimal text asks for that number |
| CartScreen.NoDigitsMeansZero | frontend/src/screens/CartScreen.js:19-22 | an input with no digit asks for 0, which the stock check rejects only for negative stock |
| CartScreen.SubtotalsAppend | frontend/src/screens/CartScreen.js:154-155 | the item count and the amount add up over any split of the cart |
| CartScreen.SubtotalsOfOne | frontend/src/screens/CartScreen.js:154-155 | one line counts its quantity and its price times quantity |
| CartScreen.ItemCountAtLeastLines | frontend/src/screens/CartScreen.js:154-163 | with positive quantities the item count is at least the number of lines; when checkout is disabled both subtotals are 0 |
| CartScreen.MinusGoesBelowZero | frontend/src/screens/CartScreen.js:109-110 | the minus button is disabled only at exactly 1, so from 0 it requests -1, which is accepted |
| CartScreen.PlusEnabledPastStock | frontend/src/screens/CartScreen.js:128-129 | the plus button is disabled only at exactly the stock, so past it the button is enabled and its request is refused |
| ProductScreen.Reduce | frontend/src/screens/ProductScreen.js:21-32 | only FETCH_SUCCESS writes the product, only FETCH_FAIL the error, and any other action returns the state |
| ProductScreen.FetchSettles | frontend/src/screens/ProductScreen.js:40-51 | a fetch always ends loading; a success shows the product unless an old error remains; a failure shows its message |
| ProductScreen.FirstVisitShowsProduct | frontend/src/screens/ProductScreen.js:34-51 | the first successful fetch shows the product |
| ProductScreen.StaleErrorHidesNextProduct | frontend/src/screens/ProductScreen.js:21-32 | after a failed slug, a later product loads but the old error stays on screen |
| ProductScreen.AddToCart | frontend/src/screens/ProductScreen.js:56-79 | a short fetched stock alerts, dispatches nothing and stays; otherwise one CART_ADD_ITEM with the quantity and the selected variant and measurement, then '/cart' |
| ProductScreen.AddToCartFollowsStock | frontend/src/screens/ProductScreen.js:150-154 | with stock shown and unchanged, a product not in the cart is accepted, and one whose cart quantity reached the stock is refused |
| ProductScreen.Gallery | frontend/src/screens/ProductScreen.js:120-127 | the thumbnails are the main image followed by the extra images |
| ProductScreen.DisplayedImage | frontend/src/screens/ProductScreen.js:103 | the main image is the selected thumbnail once one is clicked, else the product's own image |
| ProductScreen.DisplayedImageInGallery | frontend/src/screens/ProductScreen.js:103 | the displayed image is the selected one, else the main image, and always in the gallery |
| ProductCard.AddToCart | frontend/src/component/Product.js:16-28 | a short fetched stock alerts and dispatches nothing; otherwise one CART_ADD_ITEM with only the quantity set and no variant or measurement; never navigates |
| ProductCard.NegativeStockShowsButton | frontend/src/component/Product.js:54-62 | negative stock shows the add button, and even one unit is then refused |
| OrderList.Reduce | frontend/src/screens/AdminOrderList.js:17-44 | fetch actions touch only list fields, delete actions only the delete flags; DELETE_REQUEST sets loading and clears success, DELETE_SUCCESS sets success, DELETE_RESET clears both; unknown actions return the state |
| OrderList.DeleteThenRefetch | frontend/src/screens/AdminOrderList.js:84-88 | a successful delete runs the effect twice, reset then refetch; a failed one triggers no refetch |
| OrderList.Toggle | frontend/src/screens/AdminOrderList.js:120-122 | the toggle always changes the direction |
| OrderList.ToggleTwice | frontend/src/screens/AdminOrderList.js:120-122 | toggling twice is the identity |
| OrderList.DateKeyOrder | frontend/src/screens/AdminOrderList.js:68-74 | sorted by the key means creation times never decrease (asc) or never increase (desc) |
| OrderList.Reverse | frontend/src/screens/AdminOrderList.js:68-74 | reversal reads the list backwards |
| OrderList.ReverseSortsOtherWay | frontend/src/screens/AdminOrderList.js:68-74 | a list sorted one way, reversed, is sorted the other way |
| OrderList.SortInPlace | frontend/src/screens/AdminOrderList.js:68-74 | the in-place sort leaves the array sorted and a permutation of what it was |
| OrderList.InsertLast | frontend/src/screens/AdminOrderList.js:68-74 | one insertion step extends the sorted prefix by one and permutes the array |
| OrderList.Swap | frontend/src/screens/AdminOrderList.js:68-74 | exchanges two neighbours and permutes the array |
| OrderList.LoadOrders | frontend/src/screens/AdminOrderList.js:60-82 | on success the state's list is the sorted array, a permutation of the fetched orders; on failure the error is stored |
| OrderList.Effect | frontend/src/screens/AdminOrderList.js:60-89 | after a successful delete it resets without fetching; otherwise it fetches |
| OrderList.ViewOf | frontend/src/screens/AdminOrderList.js:164-172 | the empty-list message shows exactly when loaded, error-free and empty |
| OrderList.StatusCell | frontend/src/screens/AdminOrderList.js:210-214 | a cross exactly when the flag is clear; the date part of the timestamp when it is set |
| OrderList.CellsOfWellFormedOrders | frontend/src/screens/SupplierOrderList.js:146-148 | orders from the routes never break the cells, and an order marked but never shipped shows a cross under DELIVERED |
| OrderList.UserCell | frontend/src/screens/SupplierOrderList.js:143 | the user's name, or 'DELETED USER' |
| OrderList.UserCellOfListing | frontend/src/screens/AdminOrderList.js:207 | a listed order whose user is gone shows 'DELETED USER', and any other name shown is its user's |
| AdminOrderList.ToggleSelection | frontend/src/screens/AdminOrderList.js:112-118 | the id's membership flips, every other id keeps its membership, and no duplicate appears |
| AdminOrderList.NoDuplicatesFilter | frontend/src/screens/AdminOrderList.js:112-118 | removing an id keeps a selection free of duplicates |
| AdminOrderList.SelectTwice | frontend/src/screens/AdminOrderList.js:112-118 | toggling twice restores the selected set, and the list itself for a new id |
| AdminOrderList.AdminOrderPage.constructor | frontend/src/screens/AdminOrderList.js:52-58 | initial state, ascending, nothing selected |
| AdminOrderList.AdminOrderPage.Refresh | frontend/src/screens/AdminOrderList.js:60-89 | the whole new state: after a delete only the delete flags reset and the array is untouched; otherwise a fetched array is sorted in place by date and shown, and a failed fetch records its error and stops loading |
| AdminOrderList.AdminOrderPage.ToggleSort | frontend/src/screens/AdminOrderList.js:120-122 | flips the direction and changes nothing else |
| AdminOrderList.AdminOrderPage.Select | frontend/src/screens/AdminOrderList.js:112-118 | a checkbox toggles the id's selection |
| AdminOrderList.AdminOrderPage.Delete | frontend/src/screens/AdminOrderList.js:91-110 | without confirmation nothing happens; with it the selected orders are removed, and the selection is cleared only when the server reports a deletion |
| SupplierOrderList.SupplierOrderPage.constructor | frontend/src/screens/SupplierOrderList.js:16-43 | initial state, ascending, no delete pending |
| SupplierOrderList.SupplierOrderPage.Refresh | frontend/src/screens/SupplierOrderList.js:56-85 | every run fetches and shows the array sorted by date, or stores the error |
| SupplierOrderList.SupplierOrderPage.ToggleSort | frontend/src/screens/SupplierOrderList.js:87-89 | flips the direction and changes nothing else |
| OrderHistory.Reduce | frontend/src/screens/OrderHistoryScreen.js:15-26 | only FETCH_SUCCESS replaces the orders, only FETCH_FAIL writes the error, and any other action returns the state |
| OrderHistory.ViewOf | frontend/src/screens/OrderHistoryScreen.js:103-110 | 'No items in the history.' shows exactly when loaded, error-free and empty |
| OrderHistory.ErrorOutlivesRefetch | frontend/src/screens/OrderHistoryScreen.js:15-26 | once a fetch failed, a later success still shows the error |
| OrderHistory.OrderHistoryPage.constructor | frontend/src/screens/OrderHistoryScreen.js:33-36 | initial state, ascending |
| OrderHistory.OrderHistoryPage.Refresh | frontend/src/screens/OrderHistoryScreen.js:40-67 | dispatches FETCH_REQUEST first; on success shows exactly the requester's orders, sorted in place by date; on failure stores the error |
| OrderHistory.OrderHistoryPage.ToggleSort | frontend/src/screens/OrderHistoryScreen.js:69-71 | flips the direction and changes nothing else |
| ProductListScreen.Reduce | frontend/src/screens/ProductListScreen.js:11-51 | FETCH_SUCCESS copies products, page and pages and clears loading; DELETE_FAIL and DELETE_RESET both clear both delete flags; each other action changes only its own fields |
| ProductListScreen.PageLinks | frontend/src/screens/ProductListScreen.js:190-198 | one link per page 1..pages, in order, bold exactly when it is the current page |
| ProductListScreen.OneBoldLink | frontend/src/screens/ProductListScreen.js:190-198 | at most one link is bold, and one is exactly when the current page is in range |
| ProductListScreen.LinkRoundTrip | frontend/src/screens/ProductListScreen.js:67 | following a link opens its page, which is then the bold link |
| ProductListScreen.FailureToastAsWritten | frontend/src/screens/ProductListScreen.js:103-120 | as written, the error toast carries the page's `error` field, not the request's |
| ProductListScreen.FailureToast | frontend/src/screens/ProductListScreen.js:103-120 | as intended, the error toast carries the caught request's error |
| ProductListScreen.FailureToastIgnoresServer | frontend/src/screens/ProductListScreen.js:120 | as written, two different server messages give the same empty toast; as intended they differ |
| ProductListScreen.Refreshed | frontend/src/screens/ProductListScreen.js:72-88 | after a delete it resets; otherwise a successful fetch shows the page and a failed one changes nothing |
| ProductListScreen.FailedFetchKeepsLoading | frontend/src/screens/ProductListScreen.js:80 | a failed first fetch leaves the page loading with no error |
| ProductListScreen.ProductListedOnItsPage | frontend/src/screens/ProductListScreen.js:72-88 | every product is shown on the page its number names, and that page is in range |
| ProductListScreen.ProductListPage.constructor | frontend/src/screens/ProductListScreen.js:58-62 | initial state, no toasts, no navigation |
| ProductListScreen.ProductListPage.Refresh | frontend/src/screens/ProductListScreen.js:72-88 | the state becomes the effect's result, and nothing else changes |
| ProductListScreen.ProductListPage.Create | frontend/src/screens/ProductListScreen.js:90-109 | on a successful save a toast and navigation to the new product's editor; otherwise an error toast and no new product |
| ProductListScreen.PageNumber | frontend/src/screens/ProductListScreen.js:67 | a missing or empty page parameter is page 1; otherwise the page is a number exactly when the parameter is all digits |
| ProductListScreen.ProductListPage.Delete | frontend/src/screens/ProductListScreen.js:111-126 | without confirmation nothing happens; with it exactly that product is removed, and a success or error toast follows |
| Dashboard.Reduce | frontend/src/screens/DashboardScreen.js:10-22 | only FETCH_SUCCESS writes the summary, only FETCH_FAIL the error, and any other action returns the state |
| Dashboard.Fetched | frontend/src/screens/DashboardScreen.js:32-47 | the fetch ends loading and stores the summary or the error |
| Dashboard.ViewOf | frontend/src/screens/DashboardScreen.js:52-65 | the page shows the loading box exactly while loading, the error box exactly when loading is over with an error text, the board only with a summary, and throws when loading is over with neither |
| Dashboard.FetchShowsBoard | frontend/src/screens/DashboardScreen.js:32-65 | a successful first fetch shows the board; after a failure a success still shows the error; a first failure with an empty error text throws on render |
| Dashboard.UsersCard | frontend/src/screens/DashboardScreen.js:63-65 | the Users card shows the first user group's count, or 0 without one |
| Dashboard.OrdersCard | frontend/src/screens/DashboardScreen.js:75-77 | the Total Orders card shows the first order group's count, or 0 without one |
| Dashboard.CardsShowCounts | frontend/src/screens/DashboardScreen.js:63-77 | the users and orders cards show the counts, with 0 when the group is missing |
| Dashboard.ExpensesAsWritten | frontend/src/screens/DashboardScreen.js:87-89 | as written, the card shows 0 without users, fails without orders, and shows the sales otherwise |
| Dashboard.Expenses | frontend/src/screens/DashboardScreen.js:87-89 | as intended, the card shows the total sales, or 0 without orders |
| Dashboard.ExpensesAsWrittenFails | frontend/src/screens/DashboardScreen.js:87-89 | users without orders break the page, and orders without users show 0 in place of the sales |
| Dashboard.Points | frontend/src/screens/DashboardScreen.js:106-109 | one chart row per day bucket, in order, with its day and sales |
| Dashboard.ChartData | frontend/src/screens/DashboardScreen.js:106-109 | a header row, then one row per bucket |
| Dashboard.PointsTotal | frontend/src/screens/DashboardScreen.js:106-109 | the chart's points add up to the buckets' sales |
| Dashboard.ChartAgreesWithCard | frontend/src/screens/DashboardScreen.js:98-109 | 'No Expenses' shows exactly when there are no orders; chart days strictly increase; the points add up to the intended expenses card |
| Inventory.RowOf | frontend/src/screens/Inventory.js:58-60 | a row is the line's name, its product's category and the line's quantity |
| Inventory.ItemRows | frontend/src/screens/Inventory.js:55-63 | one row per line of an order, in order |
| Inventory.RowsAppend | frontend/src/screens/Inventory.js:55-63 | the table of two order lists is the concatenation of their tables |
| Inventory.RowsCount | frontend/src/screens/Inventory.js:55-63 | one row per line item of every order, never merged |
| Inventory.RenderFailsAppend | frontend/src/screens/Inventory.js:59 | a table breaks exactly when one of its parts does |
| Inventory.MissingProductCons | frontend/src/screens/Inventory.js:59 | a missing product is in the first order's rows or in the rest |
| Inventory.RenderFailsIff | frontend/src/screens/Inventory.js:59 | the table breaks exactly when some line's product is missing |
| Inventory.PopulatedTable | frontend/src/screens/Inventory.js:55-63 | for `/delivered` data, the table breaks exactly when a listed line names a deleted product |
| Inventory.InventoryPage.constructor | frontend/src/screens/Inventory.js:12-14 | not loading, no error, no orders |
| Inventory.InventoryPage.Load | frontend/src/screens/Inventory.js:16-32 | loading ends after success and failure; success stores the orders, failure stores the error |

## Left out

- Email: the Mailgun clients, the HTML templates and their sending. A send failure is only logged, so `OrderStore.Pay` takes the outcome as an ignored parameter.
- JWT signing and verification belong to a library. `verify` is a parameter, a partial function from token text to payload.
- MongoDB connection set-up, Express and router wiring, axios calls, the PayPal SDK and the loading of the PayPal script. This is I/O plumbing. Collections become sequences or maps, requests become calls, and replies become parameters.
- `formatNumber`, `toFixed` and `toLocaleString` formatting, and JavaScript floating-point prices. Prices are integers.
- Date parsing and `Date.now`. Timestamps are integers and the day is `t / 86400000`.
- Regular expressions in the name search. A query is a case-insensitive substring match with ASCII case folding.
- `Number` is modelled only on decimal digit strings. Whitespace, signs and decimals all become `NaN` (written `None`), and a `NaN` price bound makes the search fail with a 500.
- The `page` and `pageSize` query parameters are integers here, either sign allowed. Text that `*` turns into `NaN` (a non-numeric page or page size) is not modelled, nor is the single-batch size cap of a negative `.limit`.
- The texts of database errors (a rejected save, a negative skip, a failed cast) come from MongoDB and Mongoose. They are the parameter `dbError`.
- OrderRoutes.OrderStore.DeleteMany: a malformed id in `orderIds` makes the cast fail and the handler answer 500 'Internal Server Error'. Identifiers are natural numbers here, so that path is not modelled.
- ProductRoutes.SortByKey: it does not state stability. MongoDB gives no order among equal keys.
- OrderList.SortInPlace: it does not state stability. `Array.prototype.sort` is stable.
- Orders.IndexOfOrder and ProductModel.IndexOfProduct: they return the first match, standing for `findById` on a unique `_id`.
- `GET /api/products` returns the collection as it is, which is `ProductStore.products`. It has no member of its own.
- The order schema (orderModel.js), the user model, the application store (Store.js) and `getError` (util.js) are not part of this model.
- The import of `../models/productmodel.js` differs in case from `productModel.js`. That matters only on case-sensitive file systems.
- The print, Details, Edit and back buttons only navigate or print.
- The supplier table has no empty-list message. It always renders the table, so `ViewOf` models only the admin and history tables.
- The product list's fetch URL has a trailing space after the page number. The space does not change the parsed page.
- ProductListScreen.FailureToastAsWritten: the toast carries the value handed to `getError`, not the text `getError` makes of it.
- Server.ItemStore.Update models the route with its missing import supplied. The route as written is `Server.PutItemAsWritten`.
- Dashboard.Fetched: the dashboard's effect dispatches no FETCH_REQUEST, so the model has none.
- JSX rendering beyond the visibility predicates, the cells and the views named above.

## Findings

| source | as written | input that shows it | evidently intended | confidence | as-written member | corrected member |
|---|---|---|---|---|---|---|
| backend/server.js:52 | `InventoryItem.findById` with `InventoryItem` never imported: a ReferenceError inside `try`, so every call answers 500 | `PUT /api/items/1` with body `{ name: 'Veneer' }` for a stored item named 'Plywood' | patch the item, save it and answer 200 with the saved item | not executed | Server.PutItemAsWritten, Server.AsWrittenRenameExample | Server.PutItem, Server.ItemStore.Update |
| frontend/src/screens/DashboardScreen.js:87-89 | the guard tests `summary.users[0]` but the card reads `summary.orders[0].totalSales` | a shop with one user and no orders: `orders[0]` is undefined and rendering throws | guard on `summary.orders[0]` and show 0 without orders | not executed | Dashboard.ExpensesAsWritten, Dashboard.ExpensesAsWrittenFails | Dashboard.Expenses, Dashboard.ChartAgreesWithCard |
| frontend/src/screens/ProductListScreen.js:104-120 | `toast.error(getError(error))` in both the create handler (line 104) and the delete handler (line 120) passes the page's fetch error, not the caught `err` | deleting a missing product on a page with no fetch error: the toast is empty instead of 'Product Not Found' | `getError(err)` | not executed | ProductListScreen.FailureToastAsWritten, ProductListScreen.FailureToastIgnoresServer | ProductListScreen.FailureToast, ProductListScreen.ProductListPage.Create, ProductListScreen.ProductListPage.Delete |
