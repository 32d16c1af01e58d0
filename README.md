# surfing4fun back end: a verified model of its core logic

This project models, in Dafny, the parts of the surfing4fun NestJS back end
that carry logic of their own rather than database or SDK glue:

- offset pagination (`PaginatorService.paginate`) and the two interceptors
  that shape its HTTP form: `PaginationHeadersInterceptor` (`X-Total-Count`
  and the Web Linking `Link` header of RFC 8288, section 3) and
  `WrapResponseInterceptor` (the `{data, meta}` envelope);
- the in-process metrics aggregator `MetricsService`: request, log and cache
  counters, latency lists, the capped list of the five slowest requests, and
  the percentile, Apdex, cache-hit-ratio and error-rate queries;
- three time-to-live caches: `CacheVersioningInterceptor` (one minute, one
  cache hit or miss recorded per request), `ServerHealthService` (thirty
  seconds) and `KsfScraperService` (two minutes, case-insensitive key);
- `HttpErrorFilter`, which maps any exception to an RFC 7807 Problem Details
  body (section 3.1 members `type`, `title`, `status`, `detail`, `instance`)
  and splits validation messages into field and message;
- pure conversions: `normalizePermissions`, the IPv4 number to dotted quad
  conversion and flag URL of `CountryFlagService`, and the account id to
  SteamID64 conversion and first-player choice of `SteamService`;
- `StripeService`: grouping active prices under their products in
  first-appearance order, and turning SDK failures into `null` or `false`;
- `StripeWebhooksService`: the subscriptions table kept as a field, and the
  event handlers and hourly expiry sweep that create and update its rows;
- `RefreshTokenService`: refresh-token rotation with a blacklist of spent
  tokens (reuse detection) and the daily clean-up of expired entries.

Classes model the services whose fields the source updates in place
(`MetricsService`, the three caches, the two token and subscription tables,
the Express response). Pure code is functions over datatypes. Loops in the
source (`scrapeMap`'s option loop, `getMap`'s style loop, the grouping
`reduce`) are methods with invariants, proved equal to a specification
function about which the properties are proved as lemmas.

Everything outside the process is an input. This covers the clock (`now`),
the database lookups, the Stripe SDK, HTTP fetches, the A2S game-server
queries and JWT signing. Helper modules: `Wrappers` (Option, Result),
`Text` (decimal rendering and parsing, split and join, trim, ASCII lower
case, JavaScript `parseInt`), `Json` (JavaScript values, property reads,
truthiness, `String()` and `JSON.stringify`) and `Http` (the Express
response).

## Model

| member | source | states |
|---|---|---|
| Paginator.Take | src/modules/helpers/services/paginator.service.ts:32 | take is at least 1 and at least pageSize; it equals pageSize whenever pageSize >= 1, and is 1 for every pageSize < 1 |
| Paginator.Skip | src/modules/helpers/services/paginator.service.ts:33 | skip is non-negative, 0 for every page up to 1, and (page - 1) * take from page 1 on |
| Paginator.CeilDiv | src/modules/helpers/services/paginator.service.ts:40 | Math.ceil(a / b) as the unique r with (r - 1) * b < a <= r * b, and 0 for a = 0 |
| Paginator.Paginate | src/modules/helpers/services/paginator.service.ts:32-67 | the query receives exactly (skip, take), and data and total come back unchanged; meta.pageSize is exactly Take(pageSize) and page is echoed unclamped; totalPages is the ceiling of total / take; hasNextPage iff page < totalPages and hasPreviousPage iff page > 1; self, first and last point at page, 1 and totalPages; prev and next are null exactly when their flag is false, and otherwise point at page - 1 and page + 1 |
| Paginator.PaginateWithDefaults | src/modules/helpers/services/paginator.service.ts:25-31 | an omitted page is page 1 with no previous page; an omitted size is 10 rows, queried from offset 0 on the first page; given values are used as passed |
| Paginator.EmptyTotal | src/modules/helpers/services/paginator.service.ts:40-53 | with total 0 there are no pages, `last` points at page 0, and a page of 0 or 1 has neither flag nor prev/next link |
| Paginator.WindowedPageSize | src/modules/helpers/services/paginator.service.ts:33-40 | when the query slices the counted table, a page holds max(0, min(take, total - skip)) rows, and a page past the last is empty |
| Paginator.DefaultUrlDiffersOnlyInPage | src/modules/helpers/services/paginator.service.ts:45-46 | two default links `?page=P&pageSize=take` are equal exactly when their page numbers are |
| Paginator.DefaultLinks | src/modules/helpers/services/paginator.service.ts:45-54 | without a builder every link is the default URL of its page with the reported page size |
| PaginationHeaders.Expose | src/interceptors/pagination-headers.interceptor.ts:23-25 | the expose header is set exactly when headers were not yet sent; status and body are untouched |
| PaginationHeaders.Rels | src/interceptors/pagination-headers.interceptor.ts:35-40 | the entries run first, prev, self, next, last; prev and next appear exactly when their links are truthy, so there are 3 to 5 entries |
| PaginationHeaders.LinkEntries | src/interceptors/pagination-headers.interceptor.ts:35-40 | one entry per rel of Rels |
| PaginationHeaders.LinkEntriesFollowRels | src/interceptors/pagination-headers.interceptor.ts:36-40 | entry k is `<url>; rel="name"` for the k-th rel and that rel's own link |
| PaginationHeaders.BuildLinkValue | src/interceptors/pagination-headers.interceptor.ts:35-42 | the conditional pushes produce the entries of LinkEntries joined by ", " |
| PaginationHeaders.OnBody | src/interceptors/pagination-headers.interceptor.ts:28-43 | the body is returned unchanged; nothing is written once headers are sent; otherwise X-Total-Count and Link are set exactly when meta.total is non-null and links is truthy, to String(total) and the joined entries |
| PaginationHeaders.PagedJsonReads | src/interceptors/pagination-headers.interceptor.ts:32-39 | on a paginator body the interceptor reads the numeric total, and prev/next are truthy exactly when they are non-empty URLs |
| PaginationHeaders.TotalHeaderRoundTrip | src/interceptors/pagination-headers.interceptor.ts:32-33 | X-Total-Count parses back to the numeric total |
| PaginationHeaders.PaginatorHeaders | src/interceptors/pagination-headers.interceptor.ts:32-42 | for any paginator result with default links, the headers are set and Link lists prev iff hasPreviousPage and next iff hasNextPage |
| WrapResponse.Wrap | src/interceptors/wrap-response.interceptor.ts:17-33 | defines the envelope: a body with an array data and an object meta becomes {data, meta} with a numeric durationMs merged into meta, anything else is returned untouched; properties in Untouched, Envelope and Idempotent |
| WrapResponse.Untouched | src/interceptors/wrap-response.interceptor.ts:17-33 | a body that is not an object with an array `data` and an object `meta` is returned as is |
| WrapResponse.Envelope | src/interceptors/wrap-response.interceptor.ts:24-30 | a matching body becomes exactly `{data, meta'}`: data is the body's array and every other top-level key is dropped |
| WrapResponse.MetaKeys | src/interceptors/wrap-response.interceptor.ts:26-29 | meta' keeps every key of meta except durationMs, and holds the body's durationMs exactly when that is a number, overriding meta's own |
| WrapResponse.Idempotent | src/interceptors/wrap-response.interceptor.ts:24-30 | rewriting the rewritten body changes nothing |
| WrapResponse.PutSame | src/interceptors/wrap-response.interceptor.ts:26-29 | a property assigned in an object literal reads back as the assigned value |
| WrapResponse.PutOther | src/interceptors/wrap-response.interceptor.ts:26-29 | assigning one property leaves every other property's value unchanged |
| CacheVersioning.CacheKey | src/interceptors/cache-versioning.interceptor.ts:49-52 | defines the key as method, URL, query and body joined by ":"; properties in KeyFields and SameKeySameRoute |
| CacheVersioning.KeyFields | src/interceptors/cache-versioning.interceptor.ts:49-52 | when neither the method nor `originalUrl` holds a ':', the key's first two ':'-separated fields are the method and the URL |
| CacheVersioning.SameKeySameRoute | src/interceptors/cache-versioning.interceptor.ts:49-52 | for methods and URLs without ':', two requests with the same key have the same method and URL (a ':' in a path or query can make the ':'-joined key ambiguous) |
| CacheVersioning.Serve | src/interceptors/cache-versioning.interceptor.ts:30-35 | a request is served from the cache iff an entry exists and is younger than 60000 ms, and then gets that entry's data |
| CacheVersioning.Store | src/interceptors/cache-versioning.interceptor.ts:42-45 | a response overwrites its key with the request time and data; a failed handler stores nothing; no other key changes and nothing is evicted |
| CacheVersioning.StoredIsServed | src/interceptors/cache-versioning.interceptor.ts:20-44 | a stored response is served for exactly one lifetime after its request, and other keys are served as before |
| CacheVersioning.FailureNotCached | src/interceptors/cache-versioning.interceptor.ts:42-45 | after a failed handler the key is still a miss |
| CacheVersioning.CacheVersioningInterceptor.Intercept | src/interceptors/cache-versioning.interceptor.ts:25-47 | a hit returns the cached data without the handler and records one hit; a miss records one miss, returns the handler's response and stores it; hits plus misses grow by exactly one |
| HttpErrorFilter.SplitMessage | src/modules/helpers/filters/http-exception.filter.ts:61-64 | the field holds no space; with a space in the message, field + " " + message is the message; without one, the field is the message and the message is "" |
| HttpErrorFilter.Strings | src/modules/helpers/filters/http-exception.filter.ts:60 | exactly the string entries are kept |
| HttpErrorFilter.StringsConcat | src/modules/helpers/filters/http-exception.filter.ts:60 | the filter keeps the string entries in order |
| HttpErrorFilter.ValidationErrors | src/modules/helpers/filters/http-exception.filter.ts:59-64 | one error per string message, in order, each split at its first space |
| HttpErrorFilter.ErrorsOf | src/modules/helpers/filters/http-exception.filter.ts:52-65 | defines the errors list: present only for a BadRequestException whose response has an array message, from its string items split into field and message; properties in ValidationErrors and Catch |
| HttpErrorFilter.ProblemJson | src/modules/helpers/filters/http-exception.filter.ts:110-118 | defines the problem document with type, title, status, detail, instance, timestamp and, when present, errors; properties in ProblemJsonReads |
| HttpErrorFilter.ProblemJsonReads | src/modules/helpers/filters/http-exception.filter.ts:109-144 | the body written reports the status it is sent with, the type URI and the request URL |
| HttpErrorFilter.Nullish | src/modules/helpers/filters/http-exception.filter.ts:99-100 | `x ?? fallback`: the value when defined and non-null, the fallback otherwise |
| HttpErrorFilter.TitleAndDetail | src/modules/helpers/filters/http-exception.filter.ts:67-105 | statuses 400, 401, 403, 404, 409, 422 and 429 get their fixed title and detail; other object payloads give detail from message and title from error (falling back to the exception's message and name); string payloads give the string and the exception's name |
| HttpErrorFilter.Catch | src/modules/helpers/filters/http-exception.filter.ts:21-145 | nothing is written once headers are sent; otherwise the problem is sent with its own status; non-HTTP exceptions are 500 InternalServerError; type is the status URI and instance the URL; errors only for a BadRequestException with an array message; the header table is left as Express's send leaves it for that status (SendsJsonHeaders): for 204 and 304, no Content-Type, Content-Length or Transfer-Encoding; otherwise Content-Type (the JSON type when none was set) and Content-Length; for 205, Content-Length "0"; always an ETag (one already set is kept); no other header added, every other header kept |
| Http.Response.StatusJson | src/modules/helpers/filters/http-exception.filter.ts:144 | status and body are those given and the response is committed; SendsJsonHeaders for that status: 204 and 304 lose Content-Type, Content-Length and Transfer-Encoding; any other status has Content-Type (the JSON type when none was set) and Content-Length, and 205 has Content-Length "0" and no Transfer-Encoding; an ETag is present and one already set is kept; no other header is added and every header send does not touch is kept |
| NormalizePermissions.Normalize | src/utils/normalizePermissions.ts:6-10 | the entry carries the permission's name and copies the four flags verbatim |
| NormalizePermissions.NormalizePermissions | src/utils/normalizePermissions.ts:5-11 | undefined exactly when the role or its links are absent; otherwise one entry per link, in the same order |
| NormalizePermissions.NormalizeInjective | src/utils/normalizePermissions.ts:6-10 | two links give the same entry only when they are the same link |
| NormalizePermissions.NormalizeConcat | src/utils/normalizePermissions.ts:5 | normalising concatenated link lists concatenates the results |
| CountryFlag.Octets | src/modules/api/country-flag/country-flag.service.ts:12-15 | there are four components, each in [0, 255] |
| CountryFlag.LongToIp | src/modules/api/country-flag/country-flag.service.ts:9-17 | defines the dotted quad of the four octets of n; properties in LongToIpShape, LongToIpLow32 and LongToIpRoundTrip |
| CountryFlag.LongToIpShape | src/modules/api/country-flag/country-flag.service.ts:11-16 | the dotted quad splits into exactly four decimal components, each in [0, 255] |
| CountryFlag.LongToIpLow32 | src/modules/api/country-flag/country-flag.service.ts:12-15 | the output depends only on n mod 2^32 |
| CountryFlag.OctetsRecompose | src/modules/api/country-flag/country-flag.service.ts:12-15 | for 0 <= n < 2^32, a * 2^24 + b * 2^16 + c * 2^8 + d = n |
| CountryFlag.LongToIpRoundTrip | src/modules/api/country-flag/country-flag.service.ts:9-17 | for 0 <= n < 2^32 the dotted quad reads back as n |
| CountryFlag.FlagUrl | src/modules/api/country-flag/country-flag.service.ts:26-28 | the URL is the flagsapi prefix, the code, then `/flat/64.png` |
| CountryFlag.FlagUrlCode | src/modules/api/country-flag/country-flag.service.ts:27 | the code reads back from the URL, so different codes get different URLs |
| Steam.SteamId3To64 | src/modules/api/steam/steam.service.ts:13-15 | defines the 64-bit id as the decimal of the base id plus the account id; properties in SteamIdValue and SteamIdInjectiveMonotone |
| Steam.SteamIdValue | src/modules/api/steam/steam.service.ts:7-15 | the SteamID64 string parses back to 76561197960265728 + account id |
| Steam.SteamIdInjectiveMonotone | src/modules/api/steam/steam.service.ts:13-15 | the conversion is injective and order-preserving, and a non-negative account is at least the base |
| Steam.PlayerSummaryOf | src/modules/api/steam/steam.service.ts:32-43 | a missing, non-array-like or empty player list fails with "Player not found"; a non-empty list gives the first player's four fields |
| Steam.FirstPlayerOnly | src/modules/api/steam/steam.service.ts:33-34 | players after the first never change the result |
| StripeService.OrNull | src/modules/api/payment/stripe/stripe.service.ts:14-20 | the SDK value on success, null on any failure |
| StripeService.ValidateWebhook | src/modules/api/payment/stripe/stripe.service.ts:63-73 | the verified event on success, false on any failure |
| StripeService.ActivePrices | src/modules/api/payment/stripe/stripe.service.ts:100-102 | exactly the prices whose product is active |
| StripeService.ActivePricesConcat | src/modules/api/payment/stripe/stripe.service.ts:100-102 | the filter keeps input order and multiplicity: it distributes over concatenation and keeps a single price iff its product is active |
| StripeService.PricesOf | src/modules/api/payment/stripe/stripe.service.ts:110 | a group holds only prices of its own product |
| StripeService.ToProductDto | src/modules/api/payment/stripe/stripe.service.ts:115-126 | an entry carries only id, name, description and images of the product, and each price only id, unit_amount, currency and recurring |
| StripeService.FirstIdsCover | src/modules/api/payment/stripe/stripe.service.ts:109 | a product id is listed exactly when some price of it exists |
| StripeService.FirstIdsDistinct | src/modules/api/payment/stripe/stripe.service.ts:109-115 | no product id is listed twice |
| StripeService.PricesOfConcat | src/modules/api/payment/stripe/stripe.service.ts:110 | within a group, prices keep their input order |
| StripeService.GroupSizesTotal | src/modules/api/payment/stripe/stripe.service.ts:105-112 | every price lands in exactly one group: the group sizes add up to the number of prices |
| StripeService.GroupByProduct | src/modules/api/payment/stripe/stripe.service.ts:105-112 | the reduce keys the accumulator by the product ids in first-appearance order, each holding the first price's product and its prices in order |
| StripeService.ListActiveProductsWithPrices | src/modules/api/payment/stripe/stripe.service.ts:79-127 | the listing is the catalog of the active prices |
| StripeService.Catalog | src/modules/api/payment/stripe/stripe.service.ts:93-127 | defines the catalogue: active prices grouped by product in first-seen order, one entry per product; properties in CatalogFacts and ListActiveProductsWithPrices |
| StripeService.CatalogFacts | src/modules/api/payment/stripe/stripe.service.ts:100-126 | one entry per product among active prices, ids distinct, each with exactly its product's active prices, and as many prices in all as active prices |
| StripeWebhooks.TypeOf | src/modules/api/payment/stripe/stripe-webhooks.service.ts:67-75 | '2' iff the whitelist id is configured and present; else '1' iff the VIP id is configured and present; '0' iff neither |
| StripeWebhooks.SubscriptionType | src/modules/api/payment/stripe/stripe-webhooks.service.ts:70-75 | the `let` chain computes TypeOf |
| StripeWebhooks.CheckoutStatus | src/modules/api/payment/stripe/stripe-webhooks.service.ts:35-41 | 'active' iff payment_status is 'paid', 'pending' otherwise |
| StripeWebhooks.ProductIds | src/modules/api/payment/stripe/stripe-webhooks.service.ts:58-61 | one product id per item, a string product as is and an expanded one by its id |
| StripeWebhooks.FindByStripeId | src/modules/api/payment/stripe/stripe-webhooks.service.ts:132-136 | the first row in table order with the Stripe id, or none when no row has it |
| StripeWebhooks.SetStatus | src/modules/api/payment/stripe/stripe-webhooks.service.ts:143-150 | the rows with the id get the new status; every other row is unchanged |
| StripeWebhooks.ExpireSweep | src/modules/api/payment/stripe/stripe-webhooks.service.ts:273-280 | defines the sweep: every subscription due to expire gets status "expired", the rest are unchanged, the length is kept; properties in ExpireSweepExact, ExpireSweepIdempotent and ExpireSweepMonotone |
| StripeWebhooks.ExpireSweepExact | src/modules/api/payment/stripe/stripe-webhooks.service.ts:273-280 | exactly the 'Payment' rows with endDate < now and status other than 'expired' become 'expired', with no other field changed; all other rows are unchanged |
| StripeWebhooks.ExpireSweepIdempotent | src/modules/api/payment/stripe/stripe-webhooks.service.ts:273-280 | a second sweep at the same instant changes nothing and counts nothing |
| StripeWebhooks.ExpireSweepMonotone | src/modules/api/payment/stripe/stripe-webhooks.service.ts:274-277 | a row due now is due at any later time, and a non-Payment row is never swept |
| StripeWebhooks.StripeWebhooksService.Create | src/modules/api/payment/stripe/stripe-webhooks.service.ts:78-88 | a create appends one row under a fresh id and keeps row ids distinct |
| StripeWebhooks.StripeWebhooksService.UpdateStatus | src/modules/api/payment/stripe/stripe-webhooks.service.ts:143-150 | an update by id changes that row's status, or fails and changes nothing when no row has the id |
| StripeWebhooks.OneTimePaymentRecorded | src/modules/api/payment/stripe/stripe-webhooks.service.ts:216-261 | defines the outcome of a one-time payment: an Error and no change when the session cannot be fetched, NotFound and no change without the user, otherwise Done and one new "Payment" row; properties in RecordOneTimePayment and PaymentExpiresAfterWindow |
| StripeWebhooks.StripeWebhooksService.RecordOneTimePayment | src/modules/api/payment/stripe/stripe-webhooks.service.ts:216-261 | OneTimePaymentRecorded: a failed session read is that error and a missing user is NotFound, both changing nothing; otherwise it is Done and exactly one row is appended: 'Payment', the user's id, from now to now + 30 days, the given status, the session id, and TypeOf the line items' products |
| StripeWebhooks.PaymentExpiresAfterWindow | src/modules/api/payment/stripe/stripe-webhooks.service.ts:232-235 | a one-time payment is Done iff the session read and the user lookup succeed, and the hourly sweep expires its row exactly once the thirty days are over |
| StripeWebhooks.StripeWebhooksService.HandleCheckoutSessionCompleted | src/modules/api/payment/stripe/stripe-webhooks.service.ts:27-92 | payment mode is a one-time payment (OneTimePaymentRecorded) with status CheckoutStatus ('active' iff paid); subscription mode fails with NotFound and persists nothing for a missing user or subscription, and otherwise is Done and appends exactly one 'Subscription' row with the user's id, the period in ms (seconds * 1000), the Stripe status and id, and TypeOf the subscription's products; any other mode does nothing |
| StripeWebhooks.StripeWebhooksService.HandleSubscriptionDeleted | src/modules/api/payment/stripe/stripe-webhooks.service.ts:126-151 | the row found by Stripe id becomes 'canceled', or NotFound with nothing changed |
| StripeWebhooks.StripeWebhooksService.HandleChargeRefunded | src/modules/api/payment/stripe/stripe-webhooks.service.ts:154-177 | a partial refund is rejected before anything else; a missing invoice is NotFound; otherwise the row whose id is the invoice id becomes 'refunded' |
| StripeWebhooks.StripeWebhooksService.HandleAsyncPaymentSucceeded | src/modules/api/payment/stripe/stripe-webhooks.service.ts:182-187 | exactly an 'active' one-time payment (OneTimePaymentRecorded): Done with the new 'Payment' row whenever the session read and user lookup succeed |
| StripeWebhooks.StripeWebhooksService.HandleAsyncPaymentFailed | src/modules/api/payment/stripe/stripe-webhooks.service.ts:192-211 | the first existing row for the session becomes 'failed'; without one it is exactly a 'failed' one-time payment (OneTimePaymentRecorded) |
| StripeWebhooks.StripeWebhooksService.HandleExpiredPayments | src/modules/api/payment/stripe/stripe-webhooks.service.ts:268-287 | the table becomes the expiry sweep of the old table, and the count is the number of rows swept |
| RefreshToken.Unexpired | src/modules/api/core/auth/refresh-token.service.ts:80-86 | exactly the entries with expiresAt > now are kept |
| RefreshToken.PairScoped | src/modules/api/core/auth/refresh-token.service.ts:49-56 | blacklisting is per (token, user) pair |
| RefreshToken.SpentIsBlacklisted | src/modules/api/core/auth/refresh-token.service.ts:37-56 | a spent token is blacklisted for its user whatever its expiry |
| RefreshToken.CleanupForgetsOnlyExpired | src/modules/api/core/auth/refresh-token.service.ts:79-87 | the clean-up never blacklists anything, and an unexpired spent token stays blacklisted |
| RefreshToken.RefreshTokenService.GenerateRefreshToken | src/modules/api/core/auth/refresh-token.service.ts:17-47 | without both a token and an expiry the blacklist is unchanged and the new token is returned; a blacklisted pair raises Unauthorized with nothing changed; otherwise exactly one entry (token, expiry, user) is added and the new token returned |
| RefreshToken.RefreshTokenService.IsRefreshTokenBlacklisted | src/modules/api/core/auth/refresh-token.service.ts:49-56 | true exactly when a row has that token for that user |
| RefreshToken.RefreshTokenService.ClearExpiredRefreshTokens | src/modules/api/core/auth/refresh-token.service.ts:79-87 | removes exactly the entries with expiresAt <= now |
| RefreshToken.ReplayIsRefused | src/modules/api/core/auth/refresh-token.service.ts:30-43 | after a successful rotation, presenting the same token for the same user is refused and records nothing |
| ServerHealth.CodeTables | src/modules/api/server-health/server-health.service.ts:48-77 | a code comes back raw (numbers in decimal) exactly when it is not one of the listed codes |
| ServerHealth.ServerInfoOf | src/modules/api/server-health/server-health.service.ts:68-88 | a record exactly when the queries succeeded (a failure gives null), with one player entry per player |
| ServerHealth.ServerInfoFields | src/modules/api/server-health/server-health.service.ts:69-83 | the address is ip + ":" + port, splitting back into both when the host has no ':'; players is the two counts around '/'; name, map, bots and version are the reply's or "Unnamed Server", "N/A", 0 and "unknown"; the four coded fields go through their tables; each player keeps name, score and duration |
| ServerHealth.Ports | src/modules/api/server-health/server-health.service.ts:98 | eleven ports, the k-th being 27015 + k |
| ServerHealth.PortsRange | src/modules/api/server-health/server-health.service.ts:98 | the ports are exactly 27015 to 27025, increasing |
| ServerHealth.Present | src/modules/api/server-health/server-health.service.ts:103 | exactly the non-null results are kept |
| ServerHealth.PresentAppend | src/modules/api/server-health/server-health.service.ts:103 | the filter keeps port order |
| ServerHealth.Infos | src/modules/api/server-health/server-health.service.ts:100-102 | one probe result per port, in port order |
| ServerHealth.Servers | src/modules/api/server-health/server-health.service.ts:100-103 | defines the answering servers as the present infos of the eleven ports, in port order; properties in ServersAreAnswers |
| ServerHealth.ServersAreAnswers | src/modules/api/server-health/server-health.service.ts:100-103 | a server is listed iff some port answered with it, and with every port answering all eleven are listed in port order |
| ServerHealth.Cached | src/modules/api/server-health/server-health.service.ts:93-95 | the cache is used iff it exists and now - lastCacheTime < 30000 |
| ServerHealth.ServerHealthService.GetHealthCheck | src/modules/api/server-health/server-health.service.ts:91-114 | a fresh cache is returned with nothing changed; otherwise the check is rebuilt for now, cached, and lastCacheTime becomes now |
| ServerHealth.RefreshWindow | src/modules/api/server-health/server-health.service.ts:92-95 | after a refresh at t, calls before t + 30000 get the same answer and later ones refresh |
| KsfScraper.LinkedRows | src/modules/api/ksf-scrapper/ksf-scrapper.service.ts:37-39 | a row is kept iff it holds a player link |
| KsfScraper.LinkedRowsKeepLinked | src/modules/api/ksf-scrapper/ksf-scrapper.service.ts:37-39 | every row that links a player is kept |
| KsfScraper.LinkedRowsConcat | src/modules/api/ksf-scrapper/ksf-scrapper.service.ts:37-39 | the filter keeps page order and multiplicity: it distributes over concatenation and keeps a single row iff it links a player |
| KsfScraper.ScrapeTop10 | src/modules/api/ksf-scrapper/ksf-scrapper.service.ts:35-64 | at most ten records: the first min(10, n) linked rows, in page order |
| KsfScraper.SteamIdIsLastSegment | src/modules/api/ksf-scrapper/ksf-scrapper.service.ts:52-53 | the steam id holds no '/' and ends the profile link, right after its last '/' |
| KsfScraper.CountryOfFlag | src/modules/api/ksf-scrapper/ksf-scrapper.service.ts:54-58 | "flag xx" gives "xx", and a missing flag image gives "Unknown" |
| KsfScraper.DigitNumber | src/modules/api/ksf-scrapper/ksf-scrapper.service.ts:72-74 | NaN exactly when the text has no digit; otherwise parseInt of the digits, their decimal value |
| KsfScraper.ScrapeInfo | src/modules/api/ksf-scrapper/ksf-scrapper.service.ts:66-77 | defines the map info from the three info fields: tier absent when missing or 0, stages and bonuses 0 when missing; properties in InfoIsDigitValue |
| KsfScraper.InfoIsDigitValue | src/modules/api/ksf-scrapper/ksf-scrapper.service.ts:66-77 | stages and bonuses are the value of their digits (0 without any); tier is null exactly when its digits spell 0 or there are none |
| KsfScraper.StyleUrl | src/modules/api/ksf-scrapper/ksf-scrapper.service.ts:159 | defines the style page as the base URL with "?mode=" and the style parameter, or the base URL for forward; properties in StyleUrlInjective |
| KsfScraper.StyleUrlInjective | src/modules/api/ksf-scrapper/ksf-scrapper.service.ts:149-159 | the forward style uses the base page, and different style parameters give different pages |
| KsfScraper.ZoneUrl | src/modules/api/ksf-scrapper/ksf-scrapper.service.ts:102-106 | defines the zone page: the style page for value "0", otherwise the map URL with "?zone=" and, for a style, "&mode="; properties in ZoneUrlInjective |
| KsfScraper.ZoneUrlInjective | src/modules/api/ksf-scrapper/ksf-scrapper.service.ts:102-106 | within one style, different zones other than '0' get different URLs |
| KsfScraper.OptionRecords | src/modules/api/ksf-scrapper/ksf-scrapper.service.ts:100-130 | None exactly for a valueless option, a failed fetch of its page (the style's own page for zone '0') or an empty top-10; otherwise a prefix of that page's top-10: all of it with fullList, its first record without |
| KsfScraper.Tagged | src/modules/api/ksf-scrapper/ksf-scrapper.service.ts:98-127 | each option paired with its target and its records, in option order |
| KsfScraper.RouteTable | src/modules/api/ksf-scrapper/ksf-scrapper.service.ts:115-127 | one option changes a stage or bonus table only by storing its records under its number |
| KsfScraper.RoutedTableKeys | src/modules/api/ksf-scrapper/ksf-scrapper.service.ts:117-126 | every number an option lands under is in its table |
| KsfScraper.RoutedTableLast | src/modules/api/ksf-scrapper/ksf-scrapper.service.ts:117-126 | a table entry holds the records of the last option landing under its number |
| KsfScraper.RoutedListsBounded | src/modules/api/ksf-scrapper/ksf-scrapper.service.ts:113-126 | every stored list holds one to ten records (exactly one without fullList), and mapRecords grows by at most ten per option |
| KsfScraper.StyleListsBounded | src/modules/api/ksf-scrapper/ksf-scrapper.service.ts:98-131 | the bound holds for the options of any page |
| KsfScraper.RouteOption | src/modules/api/ksf-scrapper/ksf-scrapper.service.ts:99-127 | the loop body routes zone '0' onto mapRecords, a "stage" label to the stage table and any other to the bonus table under its number, and drops valueless options and labels without digits |
| KsfScraper.ScrapeStyle | src/modules/api/ksf-scrapper/ksf-scrapper.service.ts:79-134 | defines one style's records: the fetch failure, or every zone option routed to its table; properties in ScrapeMap and ScrapeStylesStep |
| KsfScraper.ScrapeMap | src/modules/api/ksf-scrapper/ksf-scrapper.service.ts:79-134 | the loop yields the options routed in order, or the failure to fetch the style's page |
| KsfScraper.ScrapeStyles | src/modules/api/ksf-scrapper/ksf-scrapper.service.ts:157-164 | on success, one entry per style; the first style that fails ends the loop with its error |
| KsfScraper.ScrapeStylesNames | src/modules/api/ksf-scrapper/ksf-scrapper.service.ts:157-164 | on success, each entry is named as its style, in style order |
| KsfScraper.ScrapeStylesStep | src/modules/api/ksf-scrapper/ksf-scrapper.service.ts:157-164 | one more style extends the scraped entries by that style's records, or stops at the first failure |
| KsfScraper.ScrapeAllStyles | src/modules/api/ksf-scrapper/ksf-scrapper.service.ts:149-164 | the style loop scrapes forward, sideways, halfsideways and backwards in order, and the first failure ends it |
| KsfScraper.ScrapeFailurePersists | src/modules/api/ksf-scrapper/ksf-scrapper.service.ts:157-174 | once a style fails, that failure is the map's |
| KsfScraper.Scrape | src/modules/api/ksf-scrapper/ksf-scrapper.service.ts:145-170 | defines the map data: the base page's info and the four styles, or the first fetch failure; properties in GetMap, and in ScrapeStylesNames and ScrapeFailurePersists for its styles part |
| KsfScraper.CacheKey | src/modules/api/ksf-scrapper/ksf-scrapper.service.ts:137 | defines the key as the lower-cased map name, "_" and "full" or "top1"; properties in CacheKeyShared and ServedWithinTtl |
| KsfScraper.CacheKeyShared | src/modules/api/ksf-scrapper/ksf-scrapper.service.ts:137 | two requests share a key iff their names agree up to case and they ask for the same list length |
| KsfScraper.Cached | src/modules/api/ksf-scrapper/ksf-scrapper.service.ts:140-142 | the entry is served iff it exists and is younger than 120000 ms |
| KsfScraper.KsfScraperService.GetMap | src/modules/api/ksf-scrapper/ksf-scrapper.service.ts:136-180 | a fresh entry is returned unchanged; otherwise a successful scrape is stored with now and returned, and a failure stores nothing and becomes a 502 |
| KsfScraper.ServedWithinTtl | src/modules/api/ksf-scrapper/ksf-scrapper.service.ts:137-172 | a map stored at t is served for two minutes under any spelling of its name that agrees up to case, and no longer |
| Metrics.PercentileIndex | src/modules/helpers/services/metrics.service.ts:116-117 | for 0 <= p <= 100 on a non-empty list, the index max(0, ceil(p * n / 100) - 1) is in range |
| Metrics.PercentileOf | src/modules/helpers/services/metrics.service.ts:114-118 | 0 for an empty list; for 0 <= p <= 100 the result is a sample with at least index + 1 samples at most it and at most index samples below it |
| Metrics.CountsOfSort | src/modules/helpers/services/metrics.service.ts:115 | the sorted copy has the same counts at most and below any value |
| Metrics.PercentileMonotone | src/modules/helpers/services/metrics.service.ts:114-118 | a higher percentile never reports a smaller latency |
| Metrics.Apdex | src/modules/helpers/services/metrics.service.ts:120-126 | the score lies in [0, 1] and is 0 for no samples |
| Metrics.ApdexPartition | src/modules/helpers/services/metrics.service.ts:122-124 | for t >= 0 satisfied, tolerated and frustrated are non-negative and add up to n |
| Metrics.ApdexAllSatisfied | src/modules/helpers/services/metrics.service.ts:120-126 | when every sample is within t >= 0 the score is 1 |
| Metrics.StableSortAfterPush | src/modules/helpers/services/metrics.service.ts:47-48 | pushing onto a sorted list and sorting stably is an insertion |
| Metrics.TopFiveStep | src/modules/helpers/services/metrics.service.ts:46-51 | pushing, sorting and popping keeps the list the five largest admitted durations |
| Metrics.SlowestStep | src/modules/helpers/services/metrics.service.ts:46-51 | the list stays sorted slowest first, at most five long, with only durations above 100 |
| Metrics.PushSlowest | src/modules/helpers/services/metrics.service.ts:47-51 | push, stable descending sort, and pop of a sixth entry |
| Metrics.RecordLatency | src/modules/helpers/services/metrics.service.ts:40-51 | defines one latency step: count and total grow, the duration is appended, and a request slower than 100 ms enters the five slowest; properties in RecordLatencyValid and TopFiveStep |
| Metrics.Replay | src/modules/helpers/services/metrics.service.ts:37-53 | defines the latency record left by a sequence of requests, one RecordLatency step each from the empty record; properties in ReplayValid |
| Metrics.RecordLatencyValid | src/modules/helpers/services/metrics.service.ts:40-51 | one request keeps the latency record's count, total and slowest list valid |
| Metrics.ReplayValid | src/modules/helpers/services/metrics.service.ts:37-53 | after any requests the record counts them, sums their durations and keeps the five slowest of those above 100, sorted slowest first |
| Metrics.MetricsService.constructor | src/modules/helpers/services/metrics.service.ts:14-34 | every counter 0, every list empty, the throughput window starting now |
| Metrics.MetricsService.RecordRequest | src/modules/helpers/services/metrics.service.ts:37-53 | totalRequests and latency.count grow by one, errorCount iff isError, the duration is appended to the buckets, and the slowest list is updated; errorCount <= totalRequests = number of buckets is kept |
| Metrics.MetricsService.RecordLatencyOf | src/modules/helpers/services/metrics.service.ts:40-51 | the latency field becomes one more step of the replay of the recorded requests: count, total, bucket, and the push, sort and pop on the slowest list; nothing else changes |
| Metrics.MetricsService.RecordLog | src/modules/helpers/services/metrics.service.ts:55-58 | 'warn' increments only warnCount; any other level only errorLogCount |
| Metrics.MetricsService.RecordCacheHit | src/modules/helpers/services/metrics.service.ts:60-62 | only cacheHits grows, by one |
| Metrics.MetricsService.RecordCacheMiss | src/modules/helpers/services/metrics.service.ts:63-65 | only cacheMisses grows, by one |
| Metrics.MetricsService.RecordDbLatency | src/modules/helpers/services/metrics.service.ts:71-73 | only dbLatencies changes, by one appended sample |
| Metrics.MetricsService.RecordExtLatency | src/modules/helpers/services/metrics.service.ts:80-82 | only extLatencies changes, by one appended sample |
| Metrics.MetricsService.GetCacheHitRatio | src/modules/helpers/services/metrics.service.ts:66-69 | 0 with no observations, otherwise hits / (hits + misses), always in [0, 1] |
| Metrics.MetricsService.GetErrorRate | src/modules/helpers/services/metrics.service.ts:110-112 | 0 with no requests, otherwise errorCount / totalRequests, always in [0, 1] |
| Metrics.MetricsService.GetThroughput | src/modules/helpers/services/metrics.service.ts:105-108 | requests per elapsed minute rounded half up, an elapsed time of 0 counting as one minute |
| Metrics.MetricsService.GetPercentile | src/modules/helpers/services/metrics.service.ts:114-118 | the nearest-rank percentile of the request latencies |
| Metrics.MetricsService.GetDbP95 | src/modules/helpers/services/metrics.service.ts:74-78 | the same rule with p = 95 on the database latencies |
| Metrics.MetricsService.GetExtP95 | src/modules/helpers/services/metrics.service.ts:83-87 | the same rule with p = 95 on the external-call latencies |
| Metrics.MetricsService.GetApdex | src/modules/helpers/services/metrics.service.ts:120-126 | the Apdex score of the request latencies |
| Metrics.MetricsService.GetSnapshot | src/modules/helpers/services/metrics.service.ts:148-161 | each field is the service's live value: the four counters, the hit ratio GetCacheHitRatio, the 95th percentiles of the database and external latencies, and the slowest list; errorCount <= totalRequests, the hit ratio in [0, 1], and the slowest list sorted, at most five, above 100 and the five largest of the slow requests recorded |
| Metrics.MetricsService.Reset | src/modules/helpers/services/metrics.service.ts:128-146 | every counter zero, every list empty, the throughput window restarted at now |

## Left out

- Clock, I/O and foreign calls are inputs. `Date.now()` and `new Date()` are the `now` argument. The rest are parameters:
  - database lookups (`usersService.findOne`);
  - Stripe SDK reads;
  - HTTP fetches of ksf.surf pages and the Steam API;
  - the A2S info and player queries (`Probe`);
  - JWT signing (`newToken`).
- HTML selection with cheerio is abstracted: a page is the rows, info blocks and zone options it holds (`KsfScraper.Page`).
- `fetchPage`'s request headers and 5-second timeout are not modelled; a fetch is a deterministic function of the URL. The same holds for the Steam request's parameters and `getCountryCodeByLongIp`'s api.country.is lookup.
- `Promise.all` in `paginate` and `getHealthCheck` is modelled sequentially; the joined calls are independent.
- Metrics: `getCpuUsagePercent` and `getMemoryUsageMb` (OS sampling) and the `cpuPercent` and `memMb` fields of `snapshot` are not modelled.
- Metrics.PercentileIndex: computes `ceil(p * n / 100)` exactly; the JavaScript double product can differ at boundaries.
- Metrics.MetricsService.GetThroughput: uses exact reals for the elapsed minutes, not double arithmetic.
- Logging is not modelled: the Nest `Logger` calls and the websocket `_emitSubscriptionUpdate` fan-out after subscription changes.
- HttpErrorFilter.Catch: models the intended path, not the code as written. The filter calls `this.logger.errorEmbed(…)` before `res.status(status).json(errorResponse)`, and `DiscordLoggerService` defines no `errorEmbed`. As written, that call throws and no problem response is sent. The model leaves the call out and sends the response.
- Http.Response.StatusJson: the values of Content-Length and ETag, which Express computes from the serialised body, are left open. So is the value of a Content-Type set beforehand, whose charset Express rewrites to utf-8. Header names are compared case-sensitively, unlike Express's. Conditional-request handling is not modelled: Express can turn a fresh GET into a 304.
- JSON numbers are integers (`Json.JNum(n: int)`). Fractional numbers are outside the model: a non-integer `durationMs` in `WrapResponse`, and fractional values inside `JSON.stringify` for the cache key.
- `handleInvoicePaid` is not modelled. It lacks an `await` on `findFirst`, so its not-found check can never fire, and it updates by the Stripe subscription id.
- `handleChargeRefunded` is modelled as written: it updates the row whose primary id equals the invoice id.
- The subscriptions table's row ids are decimals the model issues itself; the database schema is not part of this model.
- StripeService.ListActiveProductsWithPrices: the group order is the order of the ids' first appearance. That is `Object.values` order for non-numeric keys such as `prod_…`; integer-like product ids would be listed in numeric order instead.
- `toLowerCase` is modelled for ASCII letters only. `trim` uses the JavaScript whitespace set.
- JavaScript `parseInt` is exact on digit strings; precision loss for numbers beyond 2^53 is not modelled.
- `JSON.stringify` in the cache key is modelled for the values the model's `Json` datatype holds, with members in insertion order; `toJSON` methods and non-finite numbers are not.
- Property reads in the code tables of `fetchIServerInfo` and in payload lookups only use the fixed keys the source names; inherited prototype properties are not modelled.
- `getCheckoutSession` and `createBillingPortalSession`, `createCustomer` and `createCheckoutSession` pass SDK results through without handling and are not modelled; the null-returning getters are `StripeService.OrNull`.
- `generateTokenPair` and `generateAccessToken` only sign tokens and are not modelled.
