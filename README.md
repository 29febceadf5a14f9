# OneInfo affiliate backend: order ingestion and commission pipeline in Dafny

This project models the core of the OneInfo affiliate-marketing backend and
proves properties of that model. The core is the order-ingestion and
commission pipeline, plus the smaller decision rules around it:

- **Ingestion adapters.** These are the Admitad cron, the manual Admitad sync,
  the Flipkart and Meesho report connectors and the CSV service. Each turns
  its own rows into `createOrder` job payloads on the order queue.
- **`createOrder`.** This is the idempotent order upsert. An order id that is
  already stored is a replay or a status change. Otherwise the creator is
  resolved from the sub id, the commission rule for (platform, category) is
  looked up, the commission is split, and the order is inserted. A `null`
  result drops the job and a thrown error retries it.
- **The order worker.** It turns the upsert result into a signed `$inc` and
  upserts the creator's CreatorStats row.
- **The payout worker.** It totals a creator's orders in a period and inserts
  at most one payout per (creator, periodStart, periodEnd).
- **The click side.** This is the redirect decision chain, the five-minute
  fraud heuristic, and click tracking (one ClickEvent plus three counters).
- **Admin routes and the GraphQL read side.** These cover rule validation,
  the status whitelist, order listing, the profit dashboard, payout payment,
  pagination clamps, link creation with its five-attempt short-code search,
  and rescraping.

Each MongoDB collection is a class whose field is a `seq` (or a `map` for
collections keyed by a unique string). Each has a `Valid()` predicate for the
schema's required fields, enums and unique indexes. The order queue is a
sequence of payloads. Every operation that writes has two forms:

- a method that changes the collection in place;
- a function (`...Spec`) that the method's `ensures` equates the new state
  with.

The properties are lemmas about those functions. Money and counters are exact
`real`s. Times are `int` milliseconds. A JavaScript value that can be missing
is `""` for strings and `Option` for numbers. Foreign calls are parameters:
the Admitad API, `generateBaseLink`, `buildAffiliateUrl`, `scrapeOG`, URL
parsing and `Math.random`. So are database and queue failures.

## Behaviour as written

The model follows the code. These points differ from the system's own
design description, or are easy to miss:

- **Revenue for Admitad jobs.** The worker adds `job.data.orderValue` to
  `lifetimeRevenue`. For Admitad jobs that field is the commission `payment`,
  while the order stores the cart value (`price`, else `amount`) as its
  `orderValue` (`AdmitadCron.AdmitadRevenueIsCommission`).
- **Paid orders.** A `paid` order is counted in `approvedCommission`.
  `paidCommission` is never incremented, so it stays 0
  (`OrderWorker.BucketTable`, `CreatorStatsModel.Balanced`).
- **Payout filter.** The payout job selects orders with status `"confirmed"`.
  That status is not in the Order enum, and every stored order passes
  validation, so the job never creates a payout
  (`PayoutWorker.NeverCreates`).
- **Commission rules.** Rule update compares only the two rates in the
  request. A rule can therefore end up with creator rate > brand rate, and
  orders then get a negative platform share (`Admin.UpdateCanInvertRule`,
  `CreateOrderService.InvertedRuleLosesMoney`).
- **Admin status override.** It writes the order status without touching
  CreatorStats.
- **Manual sync window.** The manual sync starts from the day of `lastSync`
  with no overlap, and takes `rawAmount` from `amount` only. The cron keeps a
  one-hour overlap and uses `price`, else `amount`.
- **Stats write after the order write.** The worker stores the order (or
  its new status) first and upserts CreatorStats after it, with no
  transaction. When the stats write throws, the queue retries the job. The
  retry finds the order already stored and is a replay with an empty
  increment, so that order's increment is lost for good
  (`OrderWorker.LostIncrementOnRetry`).
- **Unknown status on a stored order.** A status outside the enum sent for a
  stored order is rejected by `save()` validation. The job is retried and
  nothing is written.

## Model

| member | source | states |
|---|---|---|
| OrderModel.FindByOrderId | OneInfo_Affiliate_backend/src/orders/createOrder.service.js:11 | returns the first order with that orderId; `None` exactly when no order has it |
| OrderModel.FindUnique | OneInfo_Affiliate_backend/src/orders/order.model.js:10 | under the unique orderId index, a stored order is found at its own position |
| OrderModel.AppendFresh | OneInfo_Affiliate_backend/src/orders/order.model.js:6-36 | appending a valid order with a fresh orderId keeps the collection valid and unique, and the new order is found at the end |
| OrderModel.SetStatusKeepsWellFormed | OneInfo_Affiliate_backend/src/orders/order.model.js:31-36 | setting one order's status to an enum value keeps the collection valid |
| CommissionRuleModel.FindRule | OneInfo_Affiliate_backend/src/orders/createOrder.service.js:39-42 | returns a stored rule with that (platform, category); `None` exactly when there is none |
| CommissionRuleModel.FindById | OneInfo_Affiliate_backend/src/admin/admin.route.js:138-142 | returns the position of the rule with that id; `None` exactly when there is none |
| PayoutModel.FindPayout | OneInfo_Affiliate_backend/src/queue/payout.worker.js:40-44 | returns a payout with that (creator, start, end) triple; `None` exactly when there is none |
| CreatorStatsModel.NewStats | OneInfo_Affiliate_backend/src/models/creatorStats.model.js:4-16 | an upserted row starts with zero counters, so it is balanced with zero lifetime commission |
| CreatorStatsModel.ApplyConserving | OneInfo_Affiliate_backend/src/queue/order.worker.js:65-70 | an increment that moves the buckets by what it adds to `lifetimeCommission` keeps a row balanced |
| CreatorStatsModel.FindRow | OneInfo_Affiliate_backend/src/queue/order.worker.js:66 | returns the position of a row of that creator; `None` exactly when the creator has no row |
| CreatorStatsModel.UpsertKeepsOneRow | OneInfo_Affiliate_backend/src/models/creatorStats.model.js:4 | although `creatorId` is not unique in the schema, upserts never create a second row for a creator |
| CreatorStatsModel.UpsertKeepsBalance | OneInfo_Affiliate_backend/src/queue/order.worker.js:65-70 | a conserving upsert keeps every row balanced |
| CreatorStatsModel.UpsertEffect | OneInfo_Affiliate_backend/src/queue/order.worker.js:65-70 | after an upsert, the creator's row is the old row (or a zero row) plus the increment, and every other creator's row is unchanged |
| CreatorStatsModel.StatsStore.UpdateOne | OneInfo_Affiliate_backend/src/queue/order.worker.js:65-70 | the in-place upsert keeps one row per creator and every row balanced |
| AffiliateLinkModel.FindLink | OneInfo_Affiliate_backend/src/redirects/redirect.route.js:28 | returns the first link with that short code; `None` exactly when there is none |
| AffiliateLinkModel.LinkStatsStore.AddClick | OneInfo_Affiliate_backend/src/redirects/redirect.route.js:103-107 | adds exactly one to that link's total (from 0 when it has no row); other links' totals are unchanged |
| Cursor.NewestFirst | OneInfo_Affiliate_backend/src/admin/admin.route.js:187 | sorting newest first reverses insertion order, element by element |
| Cursor.Window | OneInfo_Affiliate_backend/src/graphql/resolvers.js:78-82 | skip/limit returns the slice starting at skip, at most n long, and empty past the end |
| Cursor.Limit | OneInfo_Affiliate_backend/src/graphql/resolvers.js:34-37 | a limit of 0 means no limit, a negative limit counts as its absolute value, and the result is a prefix |
| Cursor.PagesAreAdjacent | OneInfo_Affiliate_backend/src/admin/admin.route.js:182-189 | two consecutive pages of one size together form the page of twice that size |
| CreateOrderService.SplitFor | OneInfo_Affiliate_backend/src/orders/createOrder.service.js:49-62 | brand = creator + platform. The creator share is value·creatorRate/100. For Admitad, brand = value and the stored brand rate is 0. Otherwise brand = value·brandRate/100 and the rule's brand rate is stored |
| CreateOrderService.PercentageProfitNonNegative | OneInfo_Affiliate_backend/src/orders/createOrder.service.js:58-61 | with 0 ≤ creator rate ≤ brand rate, a non-negative sale gives 0 ≤ creator ≤ brand and a non-negative platform share |
| CreateOrderService.AdmitadProfitNonNegative | OneInfo_Affiliate_backend/src/orders/createOrder.service.js:52-56 | for Admitad, a creator rate of at most 100% keeps the platform share of a non-negative payment non-negative |
| CreateOrderService.PercentageExample | OneInfo_Affiliate_backend/src/orders/createOrder.service.js:58-61 | a sale of 1000 at 10%/7% splits into brand 100, creator 70, platform 30 |
| CreateOrderService.AdmitadExample | OneInfo_Affiliate_backend/src/orders/createOrder.service.js:52-56 | a payment of 100 at a 50% creator rate gives creator 50 and platform 50, whatever the brand rate |
| CreateOrderService.InvertedRuleLosesMoney | OneInfo_Affiliate_backend/src/orders/createOrder.service.js:58-61 | a rule with creator rate above brand rate gives a negative platform share, because nothing is checked at order time |
| CreateOrderService.ResolveCreator | OneInfo_Affiliate_backend/src/orders/createOrder.service.js:24-36 | a sub id without a creator id resolves through the link with that short code, or fails when there is none; otherwise the job's own creator and short code are used |
| CreateOrderService.NewOrder | OneInfo_Affiliate_backend/src/orders/createOrder.service.js:64-83 | the inserted order is valid and carries the job's orderId. brand = creator + platform. `orderValue` is `rawAmount` when truthy, else `orderValue`. The status defaults to pending and the customer type to existing. A missing order value fails validation |
| CreateOrderService.CreateOrder | OneInfo_Affiliate_backend/src/orders/createOrder.service.js:9-86 | the in-place upsert keeps the order collection valid and orderIds unique; its new collection and outcome are those of the specification function |
| CreateOrderService.PreservesWellFormed | OneInfo_Affiliate_backend/src/orders/createOrder.service.js:11-83 | every call keeps every stored order valid and keeps orderIds unique |
| CreateOrderService.ReplayIsNoOp | OneInfo_Affiliate_backend/src/orders/createOrder.service.js:11-21 | a stored orderId with an absent or equal status leaves the store unchanged and returns the stored order, `isNew=false` and the stored status as `oldStatus` |
| CreateOrderService.TransitionChangesOnlyStatus | OneInfo_Affiliate_backend/src/orders/createOrder.service.js:14-19 | a different valid status changes only that order's status and returns `isNew=false` with the previous status |
| CreateOrderService.InvalidTransitionRejected | OneInfo_Affiliate_backend/src/orders/createOrder.service.js:15-18 | a different status outside the enum fails `save()` validation: an error, and nothing written |
| CreateOrderService.DanglingSubIdDrops | OneInfo_Affiliate_backend/src/orders/createOrder.service.js:28-33 | a sub id with no creator id and no matching link returns `null` and writes nothing, whatever the rules are |
| CreateOrderService.MissingRuleThrows | OneInfo_Affiliate_backend/src/orders/createOrder.service.js:39-46 | no rule for (platform, category) throws a retryable error and inserts nothing |
| CreateOrderService.AtMostOneWrite | OneInfo_Affiliate_backend/src/orders/createOrder.service.js:9-86 | each call makes one of three changes. (1) It changes nothing and `isNew` is false. (2) It changes one order's status and `isNew` is false. (3) It appends one order with a fresh orderId, `isNew=true`, no `oldStatus`, brand = creator + platform and the default status |
| CreateOrderService.SecondCallIsReplay | OneInfo_Affiliate_backend/src/orders/createOrder.service.js:11-22 | repeating a successful job writes nothing and returns `isNew=false` with the same order and its own status as `oldStatus`: at most one order per orderId |
| OrderWorker.BucketOf | OneInfo_Affiliate_backend/src/queue/order.worker.js:38-46 | every status maps to the pending, approved or declined bucket |
| OrderWorker.BucketTable | OneInfo_Affiliate_backend/src/queue/order.worker.js:38-46 | pending→pending, approved→approved, paid→approved, declined→declined, any other status→pending; never the paid bucket |
| OrderWorker.BuildInc | OneInfo_Affiliate_backend/src/queue/order.worker.js:34-63 | the `inc` object filled key by key is a conserving increment |
| OrderWorker.IncConserving | OneInfo_Affiliate_backend/src/queue/order.worker.js:48-63 | in every branch, the change to pending + approved + declined equals the change to `lifetimeCommission`, and `paidCommission` is untouched |
| OrderWorker.NewOrderIncrements | OneInfo_Affiliate_backend/src/queue/order.worker.js:48-54 | a new order adds: 1 order; c to lifetime commission and to its status bucket; p to platform profit; `job.data.orderValue \|\| 0` to revenue. Nothing else |
| OrderWorker.TransitionIncrements | OneInfo_Affiliate_backend/src/queue/order.worker.js:55-63 | a change across buckets takes c from the old bucket and adds c to the new one; the increment names only those two, so lifetime totals are untouched |
| OrderWorker.SameBucketIsEmpty | OneInfo_Affiliate_backend/src/queue/order.worker.js:55-63 | a same-status replay or an approved↔paid change builds an empty increment |
| OrderWorker.NoWriteWithoutIncrement | OneInfo_Affiliate_backend/src/queue/order.worker.js:27-29 | a `null` result, a thrown error, a replay or a same-bucket change leaves CreatorStats unchanged |
| OrderWorker.StatsAfterKeepsValid | OneInfo_Affiliate_backend/src/queue/order.worker.js:65-70 | after any job the stats keep one row per creator and every row balanced |
| OrderWorker.HandleCreateOrderJob | OneInfo_Affiliate_backend/src/queue/order.worker.js:25-72 | one job updates the orders as `createOrder` specifies. The stats get the increment unless the `CreatorStats.updateOne` throws, which leaves them as they were. The job fails exactly when `createOrder` throws or a needed stats write throws. Both collections stay valid |
| OrderWorker.PipelineKeepsInvariants | OneInfo_Affiliate_backend/src/queue/order.worker.js:25-72 | any run of jobs, whichever stats writes fail, keeps the orders valid and unique and every stats row balanced |
| OrderWorker.LostIncrementOnRetry | OneInfo_Affiliate_backend/src/queue/order.worker.js:27-70 | when the stats write after a new order throws, the job fails with the order stored and the stats unchanged. Its retry is a replay that writes nothing and succeeds, so the order's increment, which would have added one to `lifetimeOrders`, is never applied |
| OrderWorker.BucketsSumFromEmpty | OneInfo_Affiliate_backend/src/queue/order.worker.js:48-63 | from empty collections, whichever stats writes fail, every creator's three buckets sum to `lifetimeCommission` and `paidCommission` stays 0 |
| PayoutWorker.Selected | OneInfo_Affiliate_backend/src/queue/payout.worker.js:17-24 | exactly the orders of that creator with status "confirmed" and `createdAt` in the closed period are selected |
| PayoutWorker.NewPayout | OneInfo_Affiliate_backend/src/queue/payout.worker.js:50-57 | a new payout is pending, has no `paidAt`, and counts the selected orders |
| PayoutWorker.GeneratePayout | OneInfo_Affiliate_backend/src/queue/payout.worker.js:14-58 | the job writes only the payout collection (no order changes) and keeps the triple unique; its effect is the specification function's |
| PayoutWorker.PreservesWellFormed | OneInfo_Affiliate_backend/src/queue/payout.worker.js:40-57 | the job keeps at most one payout per (creator, start, end) and keeps every status in the enum |
| PayoutWorker.CreatedPayout | OneInfo_Affiliate_backend/src/queue/payout.worker.js:26-57 | no selected orders means no write. A created payout is appended, is pending, has no `paidAt`, and carries the count, revenue sum and commission sum of exactly the selected orders. Any other outcome writes nothing |
| PayoutWorker.SecondRunWritesNothing | OneInfo_Affiliate_backend/src/queue/payout.worker.js:40-48 | running the same job again writes nothing |
| PayoutWorker.SelectedAppend | OneInfo_Affiliate_backend/src/queue/payout.worker.js:17-24 | selection over two batches of orders is the concatenation of the two selections |
| PayoutWorker.SumsAppend | OneInfo_Affiliate_backend/src/queue/payout.worker.js:28-37 | the revenue and commission totals add up across batches |
| PayoutWorker.NothingSelected | OneInfo_Affiliate_backend/src/queue/payout.worker.js:19 | over orders whose statuses are all in the enum, the "confirmed" filter selects nothing |
| PayoutWorker.NeverCreates | OneInfo_Affiliate_backend/src/queue/payout.worker.js:17-26 | over a valid order collection the job always ends with no orders and writes nothing |
| Fraud.CountClicks | OneInfo_Affiliate_backend/src/fraud/fraud.service.js:12-15 | the windowed count is at most the size of the log |
| Fraud.CheckClickFraud | OneInfo_Affiliate_backend/src/fraud/fraud.service.js:6-40 | fraud exactly when there are more than 20 windowed clicks from the IP or more than 200 on the code. The IP reason applies whenever the IP rule trips, so it wins. The spike reason applies only when the IP rule does not. No reason when there is no fraud |
| Fraud.CountConcat | OneInfo_Affiliate_backend/src/fraud/fraud.service.js:12-28 | counting distributes over concatenation of the click log |
| Fraud.CountAppend | OneInfo_Affiliate_backend/src/fraud/fraud.service.js:12-28 | one more click adds one exactly when it is counted. Its fraud flag plays no part, and a click older than five minutes adds nothing |
| Fraud.CountAllCounted | OneInfo_Affiliate_backend/src/fraud/fraud.service.js:12-15 | a log of n counted clicks has count n |
| Fraud.TwentyOneFromOneIpTrips | OneInfo_Affiliate_backend/src/fraud/fraud.service.js:17-22 | 21 windowed clicks from one IP give fraud with "Too many clicks from same IP" |
| Fraud.TwentyFromOneIpPasses | OneInfo_Affiliate_backend/src/fraud/fraud.service.js:17 | a log of 20 clicks trips neither rule |
| Fraud.FraudIsMonotone | OneInfo_Affiliate_backend/src/fraud/fraud.service.js:17-35 | more clicks never clear a fraud verdict |
| Fraud.ClickLog.Append | OneInfo_Affiliate_backend/src/redirects/redirect.route.js:77-86 | the click log is append-only: one event at the end |
| Redirect.Decide | OneInfo_Affiliate_backend/src/redirects/redirect.route.js:28-59 | a 302 to `affiliateUrl` happens exactly when the link exists, is active, is not expired and its URL starts with "http". Otherwise the answer is 404, or 410 exactly for an active, expired link |
| Redirect.DecisionOrder | OneInfo_Affiliate_backend/src/redirects/redirect.route.js:35-48 | an inactive link is 404 before expiry is checked, a null `expiresAt` is never 410, and there is no redirect except to `affiliateUrl` |
| Redirect.RefererOf | OneInfo_Affiliate_backend/src/redirects/redirect.route.js:55 | the referer header, else the referrer header, else "direct"; never empty |
| Redirect.ClickFor | OneInfo_Affiliate_backend/src/redirects/redirect.route.js:77-86 | the logged click carries the link's code and creator, the IP and the fraud flag and reason; the user agent defaults to "unknown" and the referer to "direct" |
| Redirect.BumpClickCount | OneInfo_Affiliate_backend/src/redirects/redirect.route.js:92-95 | adds 1 to `clickCount` of the link with that code and changes nothing else |
| Redirect.BumpKeepsWellFormed | OneInfo_Affiliate_backend/src/redirects/redirect.route.js:92-95 | the click-count bump keeps the link collection valid |
| Redirect.ClickIncOnlyCountsClicks | OneInfo_Affiliate_backend/src/redirects/redirect.route.js:97-101 | a click adds exactly 1 to `totalClicks`, touches no other counter, and conserves the buckets |
| Redirect.Track | OneInfo_Affiliate_backend/src/redirects/redirect.route.js:72-114 | a failed fraud query or insert changes nothing. Otherwise exactly one event, carrying the fraud flag, is appended after the existing log. A fraud click changes no counter, and a counter update that fails leaves its own collection alone. A clean non-fraud click adds 1 to the link's `clickCount`, upserts the creator's `totalClicks` and adds 1 to the link's stats total, from 0 when it has none |
| Redirect.TrackClick | OneInfo_Affiliate_backend/src/redirects/redirect.route.js:72-114 | the four collections end up as `Track` of their old contents, and the link and creator-stats collections stay valid |
| Redirect.BumpCounters | OneInfo_Affiliate_backend/src/redirects/redirect.route.js:89-109 | each of the three counter updates of a non-fraud click either happens or leaves its collection as it was. The link and creator-stats collections stay valid |
| Redirect.HandleRedirect | OneInfo_Affiliate_backend/src/redirects/redirect.route.js:23-65 | the response is the decision chain's (or 500 when the lookup fails) whatever tracking does. Nothing is tracked without a redirect, and every redirect tracks the click on the link found, with the referer `referer \|\| referrer \|\| "direct"`, as `Track` says |
| AdmitadSync.DayOf | OneInfo_Affiliate_backend/src/cron/admitad.cron.js:15 | the calendar day of a timestamp is the day whose span contains it |
| AdmitadSync.SyncStateStore.Touch | OneInfo_Affiliate_backend/src/cron/admitad.cron.js:54-58 | the upsert sets `lastSync` of that platform to now and leaves other platforms alone |
| AdmitadSync.QueuedPrefix | OneInfo_Affiliate_backend/src/cron/admitad.cron.js:28-51 | the actions queued before the first failing add are a prefix; it is the whole run exactly when no add fails |
| AdmitadCron.CronDateStart | OneInfo_Affiliate_backend/src/cron/admitad.cron.js:14-21 | with no SyncState row, the day of now − 24 h; otherwise the day of `lastSync` − 1 h |
| AdmitadCron.WindowOverlaps | OneInfo_Affiliate_backend/src/cron/admitad.cron.js:17-21 | the window starts at least one hour and less than 25 hours before `lastSync` |
| AdmitadCron.CronJob | OneInfo_Affiliate_backend/src/cron/admitad.cron.js:38-46 | the job carries subId = subid, orderId = order_id, orderValue = payment, the status, platform "admitad" and category "fashion". `rawAmount` is `price`, falling back to `amount` |
| AdmitadCron.CronJobs | OneInfo_Affiliate_backend/src/cron/admitad.cron.js:28-51 | one job per action, in fetch order |
| AdmitadCron.CronTick | OneInfo_Affiliate_backend/src/cron/admitad.cron.js:6-63 | queues the jobs of the actions before the first failing add. `lastSync` is set to now only when the fetch was non-empty, every add succeeded and the update did not fail; otherwise SyncState is unchanged |
| AdmitadCron.AdmitadRevenueIsCommission | OneInfo_Affiliate_backend/src/cron/admitad.cron.js:41-42 | a new order from a cron job stores the cart value as `orderValue` and the payment as the brand amount with brand rate 0, while the worker adds the payment to `lifetimeRevenue` |
| Connectors.RowJob | OneInfo_Affiliate_backend/src/connectors/flipkart.connector.js:16-26 | the job copies the row's fields and the platform, with no status, sub id or raw amount |
| Connectors.ProcessReport | OneInfo_Affiliate_backend/src/connectors/flipkart.connector.js:4-44 | the shared loop appends to the queue exactly the jobs of the kept rows, in row order; the order store is not in its frame |
| Connectors.ProcessRow | OneInfo_Affiliate_backend/src/connectors/flipkart.connector.js:6-42 | one row: it is queued exactly when it is kept (its lookup and add do not throw and its `orderId` is not stored), and otherwise the queue is unchanged |
| Connectors.ProcessFlipkartReport | OneInfo_Affiliate_backend/src/connectors/flipkart.connector.js:4-44 | the report's kept rows are queued with platform "flipkart" |
| Connectors.ProcessMeeshoReport | OneInfo_Affiliate_backend/src/connectors/meesho.connector.js:3-42 | the report's kept rows are queued with platform "meesho" |
| Connectors.ReportJobsSound | OneInfo_Affiliate_backend/src/connectors/flipkart.connector.js:8-13 | every queued job comes from a kept row, has no stored orderId and has no status |
| Connectors.ReportJobsComplete | OneInfo_Affiliate_backend/src/connectors/meesho.connector.js:7-12 | every kept row is queued, a row that repeats an earlier orderId of the report included, and a failing row does not stop later ones |
| Connectors.FreshReportQueuedWhole | OneInfo_Affiliate_backend/src/connectors/flipkart.connector.js:5-43 | with no failures and no stored ids, every row is queued in order |
| CsvService.JsNumber | OneInfo_Affiliate_backend/src/ingestion/csv.service.js:12 | `Number` of blank text is 0 |
| CsvService.NumberOfDecimal | OneInfo_Affiliate_backend/src/ingestion/csv.service.js:12 | `Number` reads back the decimal text of any natural number and of its negation |
| CsvService.BlankIsZero | OneInfo_Affiliate_backend/src/ingestion/csv.service.js:12 | every cell that is empty or holds only ASCII white space (space, tab, line feed, vertical tab, form feed, carriage return) becomes 0, not NaN |
| CsvService.WordIsNaN | OneInfo_Affiliate_backend/src/ingestion/csv.service.js:12 | in the decimal forms modelled, every cell whose trimmed text holds a character other than a digit, '.' or a leading sign becomes NaN (exponents, hex and `Infinity`, which JavaScript reads as numbers, are outside those forms; see `CsvService.JsNumber` under "## Left out") |
| CsvService.FormFeedIsZero | OneInfo_Affiliate_backend/src/ingestion/csv.service.js:12 | a cell holding only a form feed becomes 0 |
| CsvService.VerticalTabIgnored | OneInfo_Affiliate_backend/src/ingestion/csv.service.js:12 | a vertical tab before "12" is trimmed away, giving 12 |
| CsvService.PaddedWordIsNaN | OneInfo_Affiliate_backend/src/ingestion/csv.service.js:12 | " abc " becomes NaN |
| CsvService.DotIsNaN | OneInfo_Affiliate_backend/src/ingestion/csv.service.js:12 | a lone "." becomes NaN |
| CsvService.FractionExample | OneInfo_Affiliate_backend/src/ingestion/csv.service.js:12 | "12.5" becomes 12.5 |
| CsvService.CsvJob | OneInfo_Affiliate_backend/src/ingestion/csv.service.js:7-15 | the job carries the platform argument, `Number(orderValue)` and the other fields unchanged, with no status |
| CsvService.CsvJobs | OneInfo_Affiliate_backend/src/ingestion/csv.service.js:4-23 | one job per row, in row order |
| CsvService.PushRowsToQueue | OneInfo_Affiliate_backend/src/ingestion/csv.service.js:3-24 | with no duplicate check, queues one job per row up to the first failing add, and succeeds exactly when no add fails |
| ShortCode.Alphabet | OneInfo_Affiliate_backend/src/utils/shortCode.js:7 | the alphabet has 62 characters |
| ShortCode.AlphabetIsAlphanumeric | OneInfo_Affiliate_backend/src/utils/shortCode.js:7 | the alphabet is exactly the ASCII letters and digits |
| ShortCode.CodeShape | OneInfo_Affiliate_backend/src/utils/shortCode.js:6-12 | a code is "OI-" followed by `length` letters or digits, 3 + `length` characters in all |
| ShortCode.EveryShapeIsDrawable | OneInfo_Affiliate_backend/src/utils/shortCode.js:9-11 | every letters-and-digits suffix can be drawn |
| ShortCode.DefaultAndEmpty | OneInfo_Affiliate_backend/src/utils/shortCode.js:6-12 | the default length gives 9 characters; length 0 gives exactly "OI-" |
| ShortCode.GenerateShortCode | OneInfo_Affiliate_backend/src/utils/shortCode.js:6-13 | the loop builds the code of the given (or default 6) length from the draws |
| LinkRoute.AllowedDomainExamples | OneInfo_Affiliate_backend/src/links/link.route.js:19-26 | the allow-list test is a substring test on the hostname: "www.myntra.com" and "myntra.com.example.org" pass, and an unparsable URL fails |
| LinkRoute.NewLink | OneInfo_Affiliate_backend/src/links/link.route.js:111-128 | a created link has `publicUrl` = BASE_URL + "/share/" + code, platform "admitad", 0 clicks, is active and never expires |
| LinkRoute.AttemptStep | OneInfo_Affiliate_backend/src/links/link.route.js:65-137 | one attempt, case by case. A taken code or a duplicate-key insert moves on to the next attempt. A base-link failure, a URL without "tjzuh.com" or another DB error ends with 500. A clean insert creates the link |
| LinkRoute.CheckOrder | OneInfo_Affiliate_backend/src/links/link.route.js:38-58 | missing URL is 400, then missing creator is 401, then a disallowed domain is 400, then a missing BASE_URL is 500; a created link passed all four |
| LinkRoute.AttemptFacts | OneInfo_Affiliate_backend/src/links/link.route.js:61-137 | a refusal is 500 and writes nothing. A created link is appended, and its code was free and was drawn in one of the five attempts. Its tracking URL contains "tjzuh.com" and it has the creation defaults |
| LinkRoute.AllTakenGivesUp | OneInfo_Affiliate_backend/src/links/link.route.js:139-143 | when all five drawn codes are taken, the answer is 500 and nothing is written |
| LinkRoute.CreateKeepsWellFormed | OneInfo_Affiliate_backend/src/links/link.route.js:115-128 | link creation keeps short codes unique and every link valid |
| LinkRoute.CreateLink | OneInfo_Affiliate_backend/src/links/link.route.js:32-160 | the bounded `while` loop has the effect of the attempt specification and keeps the collection valid |
| LinkRoute.TryCode | OneInfo_Affiliate_backend/src/links/link.route.js:65-137 | one pass of the loop: either it moves on to the next attempt with nothing written, or its outcome is the attempt specification from that attempt |
| LinkRoute.TryCodes | OneInfo_Affiliate_backend/src/links/link.route.js:61-137 | the loop of at most five attempts has the effect and the reply of the attempt specification from the first attempt |
| LinkRoute.Candidates | OneInfo_Affiliate_backend/src/links/link.route.js:171-178 | exactly the creator's links without an image, in collection order |
| LinkRoute.Merge | OneInfo_Affiliate_backend/src/links/link.route.js:195-203 | only image and title change, each replaced by a non-empty scraped value or else kept |
| LinkRoute.UpdatedCount | OneInfo_Affiliate_backend/src/links/link.route.js:194-204 | the number updated never exceeds the number handled |
| LinkRoute.RescrapedEffect | OneInfo_Affiliate_backend/src/links/link.route.js:187-211 | each handled candidate is merged once when its scrape was useful, and every other link is unchanged |
| LinkRoute.RescrapeFacts | OneInfo_Affiliate_backend/src/links/link.route.js:166-217 | `updated` ≤ `total` = the number of candidates. Only candidates change, and only in image and title. A scraped image clears candidacy, and a useless scrape changes nothing |
| LinkRoute.RescrapeKeepsWellFormed | OneInfo_Affiliate_backend/src/links/link.route.js:194-203 | rescraping keeps the link collection valid |
| LinkRoute.Rescrape | OneInfo_Affiliate_backend/src/links/link.route.js:166-223 | the batched loop has the effect of the rescrape specification and keeps the collection valid |
| LinkRoute.RescrapeBatches | OneInfo_Affiliate_backend/src/links/link.route.js:185-211 | going through the candidates five at a time updates exactly the candidates with a useful scrape, and counts them |
| Resolvers.MeStats | OneInfo_Affiliate_backend/src/graphql/resolvers.js:21-30 | a creator without a stats row sees all zeros |
| Resolvers.MeStatsIsRow | OneInfo_Affiliate_backend/src/graphql/resolvers.js:21-30 | the stats shown are the creator's row (or a zero row), with `totalOrders` taken from `lifetimeOrders` |
| Resolvers.MeStatsAfterUpsert | OneInfo_Affiliate_backend/src/graphql/resolvers.js:21-30 | after a stats upsert, the creator sees the incremented row and other creators see no change |
| Resolvers.OwnedLinks | OneInfo_Affiliate_backend/src/graphql/resolvers.js:34 | `find({ creatorId })` returns exactly the links of that creator |
| Resolvers.LinkViewOf | OneInfo_Affiliate_backend/src/graphql/resolvers.js:43-58 | clicks come from LinkStats or are 0; `publicUrl` falls back to `baseUrl/share/shortCode` |
| Resolvers.LinkLimit | OneInfo_Affiliate_backend/src/graphql/resolvers.js:33 | the link limit is the argument when truthy, else 10 |
| Resolvers.Me | OneInfo_Affiliate_backend/src/graphql/resolvers.js:13-61 | throws "Unauthorized" exactly when there is no creator id |
| Resolvers.MeFacts | OneInfo_Affiliate_backend/src/graphql/resolvers.js:13-61 | the name or "Creator", the creator's stats, at most \|limit\| of the creator's own links (all of them when there are few enough), each with its clicks |
| Resolvers.ValidPage | OneInfo_Affiliate_backend/src/graphql/resolvers.js:73 | the page is at least 1 and a valid page is kept |
| Resolvers.ValidLimit | OneInfo_Affiliate_backend/src/graphql/resolvers.js:74 | the limit is between 1 and 100, and a limit in range is kept |
| Resolvers.MyOrders | OneInfo_Affiliate_backend/src/graphql/resolvers.js:70-99 | throws "Unauthorized" exactly when there is no creator id |
| Resolvers.OwnedOrders | OneInfo_Affiliate_backend/src/graphql/resolvers.js:78 | `find({ creatorId })` returns exactly the orders of that creator |
| Resolvers.MyOrdersFacts | OneInfo_Affiliate_backend/src/graphql/resolvers.js:73-84 | a page holds at most `validLimit` ≤ 100 orders, all the creator's own, and the total counts all the creator's orders |
| Resolvers.MyOrdersShape | OneInfo_Affiliate_backend/src/graphql/resolvers.js:86-98 | `hasMore` holds exactly when skip + returned orders < totalCount |
| Resolvers.NextPageSkip | OneInfo_Affiliate_backend/src/graphql/resolvers.js:75 | skip = (validPage − 1)·validLimit grows by one limit per page |
| Resolvers.HasMoreIffNextPage | OneInfo_Affiliate_backend/src/graphql/resolvers.js:97 | `hasMore` holds exactly when the next page is non-empty |
| Resolvers.CreatorLinks | OneInfo_Affiliate_backend/src/graphql/resolvers.js:104-107 | a truthy limit gives a prefix (the first `limit` links when positive); otherwise the links themselves, or [] |
| Resolvers.FieldLimitShowsNewest | OneInfo_Affiliate_backend/src/graphql/resolvers.js:33-37 | `links(limit: n)` with positive n shows the creator's newest min(n, 10) links |
| Admin.CheckNewRule | OneInfo_Affiliate_backend/src/admin/admin.route.js:98-113 | a rule request passes exactly when platform and category are present, both rates are non-null (0 accepted) and creator ≤ brand; otherwise 400 |
| Admin.CreateRuleFacts | OneInfo_Affiliate_backend/src/admin/admin.route.js:98-125 | 201 exactly for a valid request with a new (platform, category). A created rule has creator rate ≤ brand rate. A failed request is 400 and changes nothing. The collection stays unique |
| Admin.ZeroRatesAccepted | OneInfo_Affiliate_backend/src/admin/admin.route.js:101-102 | rates of 0 are accepted |
| Admin.CreateRule | OneInfo_Affiliate_backend/src/admin/admin.route.js:93-126 | the in-place create has the specified effect and keeps the rules valid |
| Admin.UpdateRuleFacts | OneInfo_Affiliate_backend/src/admin/admin.route.js:128-154 | a 200 needs a stored id and changes only the two rates of that rule. An unknown id with rates that pass the check is 404. Any refusal leaves the rules unchanged, and the rules stay valid |
| Admin.UpdateCanInvertRule | OneInfo_Affiliate_backend/src/admin/admin.route.js:132-142 | raising only the creator rate above the stored brand rate is accepted |
| Admin.UpdateRule | OneInfo_Affiliate_backend/src/admin/admin.route.js:128-154 | the in-place update has the specified effect and keeps the rules valid |
| Admin.DeleteRuleFacts | OneInfo_Affiliate_backend/src/admin/admin.route.js:156-170 | delete removes exactly the rule with that id; an unknown id is 404 and changes nothing |
| Admin.DeleteRule | OneInfo_Affiliate_backend/src/admin/admin.route.js:156-170 | the in-place delete has the specified effect and keeps the rules valid |
| Admin.SetOrderStatusFacts | OneInfo_Affiliate_backend/src/admin/admin.route.js:205-233 | the whitelist is exactly the enum and is checked first (400). An unknown id is 404. A 200 changes only that order's status |
| Admin.SetOrderStatus | OneInfo_Affiliate_backend/src/admin/admin.route.js:205-233 | the status write touches only the order store, never CreatorStats |
| Admin.ParseIntOr | OneInfo_Affiliate_backend/src/admin/admin.route.js:180-181 | `parseInt(x) \|\| d` is the parsed value when non-zero, else the default |
| Admin.Filtered | OneInfo_Affiliate_backend/src/admin/admin.route.js:184 | the filter keeps exactly the orders with the requested status, or all orders for no status |
| Admin.ListOrders | OneInfo_Affiliate_backend/src/admin/admin.route.js:176-200 | every failure (a negative skip, which the database refuses) is answered with 500 |
| Admin.ListOrdersFacts | OneInfo_Affiliate_backend/src/admin/admin.route.js:180-189 | page 1 and limit 20 by default. skip = (page − 1)·limit. At most \|limit\| orders, all with the requested status, newest first |
| Admin.DashboardIsTotals | OneInfo_Affiliate_backend/src/admin/admin.route.js:238-257 | each dashboard entry is the totals of exactly the orders in that status, with zeros for an absent group |
| Admin.DashboardCoversAll | OneInfo_Affiliate_backend/src/admin/admin.route.js:238-257 | over orders in the enum, the four entries add up to the totals of all orders |
| Admin.GeneratePayouts | OneInfo_Affiliate_backend/src/admin/admin.route.js:271-298 | missing fields are 400. A 200 queues exactly one `generatePayout` job. Any failure queues nothing |
| Admin.PayPayoutFacts | OneInfo_Affiliate_backend/src/admin/admin.route.js:300-321 | paying sets status "paid" and `paidAt` now and keeps the totals; an unknown id is 404 and changes nothing |
| Admin.PayingTwiceRestamps | OneInfo_Affiliate_backend/src/admin/admin.route.js:302-309 | nothing guards a second payment, which re-stamps `paidAt` |
| Admin.PayPayout | OneInfo_Affiliate_backend/src/admin/admin.route.js:300-321 | the in-place payment has the specified effect and keeps the payouts valid |
| Admin.ManualSyncDate | OneInfo_Affiliate_backend/src/admin/admin.route.js:418-424 | the date is `body.dateStart`, else the day of `lastSync` with no overlap, else yesterday |
| Admin.ManualJob | OneInfo_Affiliate_backend/src/admin/admin.route.js:430-438 | platform "admitad", category "fashion", orderValue = payment, rawAmount = amount, and the status copied |
| Admin.ManualJobs | OneInfo_Affiliate_backend/src/admin/admin.route.js:429-439 | one job per action, in order |
| Admin.ManualSync | OneInfo_Affiliate_backend/src/admin/admin.route.js:416-454 | queues the jobs before the first failing add. SyncState is updated whenever every add succeeded, even for zero actions. The reply is 200 with the action count, or 500 |

## Left out

- Concurrency is left out and every operation is sequential and atomic. This
  covers worker concurrency 5, the `Promise.all` fan-outs in click tracking
  and rescrape, and read-then-write races between jobs.
- Queue plumbing is left out: BullMQ and Redis, retry and backoff options,
  the `completed`/`failed` metric handlers, graceful shutdown, and the
  worker's `fetchFlipkartReport` fake-data branch. The queue is a sequence
  of payloads.
- Floating point is left out. JavaScript doubles are exact `real`s, and no
  rounding is claimed.
- Dates are `int` milliseconds. `toISOString().split("T")[0]` is a day number
  (floor division by one day), not a string.
- Foreign calls are parameters: `fetchActions`, `generateBaseLink`,
  `buildAffiliateUrl`, `scrapeOG`, WHATWG URL parsing (as the parsed
  hostname) and `Math.random` (as the drawn alphabet positions). Their own
  logic is not part of this model.
- Database and queue errors are explicit fault parameters, not modelled
  causes, for the writes whose failure the callers observe. These are the
  click tracking writes, queue adds, report lookups, the SyncState update
  and the worker's CreatorStats write.
- CreateOrderService.CreateOrder: a database error inside `createOrder`
  (a failing `findOne`, `save` or `Order.create`) is not a parameter. Each
  is a single-document operation that either happens or throws, and the
  retried job then starts over from the same collections.
- MongoDB ObjectIds of orders and payouts are positions in the collection.
  Rules, which can be deleted, carry their own id. An id that fails to cast
  is `None`.
- Click, SyncState, LinkStats, JobFailure, JobMetrics, Creator and Admin
  schemas are not separate modules. The fields the core touches are folded
  into records.
- Authentication, admin creation and login, the read-only admin listings
  (payouts, job failures, job metrics, fraud report, top creators, Admitad
  actions), the HTTP server wiring and the Apollo wiring are left out. They
  are plumbing with no decision logic of their own.
- `Sort by createdAt descending` is modelled as reverse insertion order,
  since documents are never re-dated.
- CsvService.JsNumber: `Number` is modelled only on plain decimal text.
  Exponents, hex and `Infinity` are not covered. Of the white space it
  trims, only the ASCII characters are: no-break space, the byte-order
  mark, the line and paragraph separators and the other Unicode space
  separators are not. Text outside these forms is NaN.
- Admin.UpdateRule: a rate sent as `null` is treated like an absent rate,
  which keeps the stored value. MongoDB would store `null`.
- Resolvers.MyOrders: `page` and `limit` are integers. A missing or
  non-numeric argument (NaN in JavaScript) is not modelled.
- Resolvers.Me: `createdAt` is kept as a timestamp, not converted to an ISO
  string.
