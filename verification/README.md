# resonance-api core, modelled in Dafny

This project models the request path of the resonance-api music analytics
backend. That path covers:

- the response cache placed in front of a route (`cache(ttl)`) and the
  per-address rate limiter (`rateLimiter(requests, window)`), both backed by
  the Redis store;
- the Spotify client with its client-credentials token lifecycle, its single
  retry on an expired token, and its wrapping of provider failures into
  `ApiError`s;
- the artist search route `GET /search`: query check, search, stats of every
  result, and errors passed to `next`;
- the error classes and the error middleware that turns any error into
  `{status: "error", message, stack?}` with a status code;
- the response normaliser for artist stats and top tracks;
- the Zod-based validation middleware and the two request schemas.

Modules (one per source file, plus three supporting ones):

| module | file | models |
|---|---|---|
| `Wrappers` | wrappers.dfy | `Option`, `Result`, `Outcome` |
| `Errors` | errors.dfy | `src/utils/errors.ts` and the `AppError` shape |
| `ErrorHandler` | error_handler.dfy | `src/middleware/errorHandler.ts` |
| `JsNumbers` | js_numbers.dfy | the JavaScript `Number()`, truthiness, `parseInt` and `toString` on integers |
| `ResponseNormalizer` | response_normalizer.dfy | `src/utils/responseNormalizer.ts` |
| `Schemas` | schemas.dfy | `src/validation/schemas.ts`, as the list of issues each schema reports |
| `Validate` | validate.dfy | `src/middleware/validate.ts` |
| `KeyValueStore` | key_value_store.dfy | `src/services/RedisService.ts`, as a class over a map |
| `Http` | http.dfy | the Express request/response pair and the stack of patched `res.json` wrappers |
| `CacheMiddleware` | cache.dfy | `src/middleware/cache.ts` |
| `RateLimiter` | rate_limiter.dfy | `src/middleware/rateLimiter.ts` |
| `Spotify` | spotify.dfy | `src/services/SpotifyService.ts` |
| `ArtistRoutes` | artist_routes.dfy | the `/search` handler of `src/routes/artist.routes.ts`, behind `cache('5m')` and the error middleware |

How the model handles the outside world:

- **Stateful objects.** The Spotify client, the store and the request/response
  pair are classes whose methods update their fields.
  - `SpotifyService` holds the token and its expiry, plus a log of the
    requests sent to the provider.
  - `Store` holds the key-to-entry map.
  - `Exchange` holds the response status, the responses sent, the installed
    `res.json` wrappers (most recent first when called) and the arguments of
    every `next` call.
- **Abstract inputs.** Everything the code awaits from outside becomes a
  parameter:
  - the provider's replies and the clock reading;
  - whether a store command reaches Redis;
  - the stack trace and `NODE_ENV`.
- **JSON.** `JSON.stringify`/`JSON.parse` become an abstract `Codec`. The
  round-trip assumption about it is stated once, as `Faithful`, and only
  lemmas that need it require it.

Error responses are cached too. Once a request misses the cache, the
wrapped `res.json` is installed before the handler runs, so the error
middleware's own `res.json(...)` also goes through the wrapper. A 400/404/500
error body is therefore written under the request's key with the route's
TTL. A later identical request is then a hit, and that body is served with
status 200. `ArtistRoutes.SearchEndpoint` states this: on a miss with a
reachable store, the stored entry is the serialised body that was sent,
whatever it was.

`rateLimiter` and `validate` are not mounted on any route in the source. They
are modelled as stand-alone middlewares.

## Model

| member | source | states |
|---|---|---|
| Errors.ApiError | src/utils/errors.ts:3-8 | an ApiError carries the given message and status code, name "ApiError" |
| Errors.NotFoundError | src/utils/errors.ts:10-15 | a NotFoundError is an ApiError with status 404, name "NotFoundError", message defaulting to "Resource not found" |
| Errors.BadRequestError | src/utils/errors.ts:17-22 | a BadRequestError is an ApiError with status 400, name "BadRequestError", message defaulting to "Bad request" |
| ErrorHandler.HandleError | src/middleware/errorHandler.ts:7-21 | the body status is always "error"; the code is the error's own status exactly when that is present and non-zero, else 500; a non-empty error message is sent as it is, and the message is never empty, falling back to "Internal server error"; a stack is included exactly in development |
| ErrorHandler.ClassStatuses | src/middleware/errorHandler.ts:14 | NotFoundError and BadRequestError always answer 404 and 400; an ApiError answers its own code unless that code is 0 |
| ErrorHandler.EmptyMessageFallsBack | src/middleware/errorHandler.ts:18 | every error with an empty message, and every thrown non-Error without a `message` property, is answered with "Internal server error"; a BadRequestError built with "" still answers 400 |
| JsNumbers.ToNumber | src/utils/responseNormalizer.ts:7-13 | `Number()` of undefined and of a non-numeric value is NaN, of null is 0, of a number is that number |
| JsNumbers.ParseIntOfDigits | src/middleware/rateLimiter.ts:11 | `parseInt` reads back the decimal text of every natural number |
| JsNumbers.ParseIntOfToDecimal | src/middleware/rateLimiter.ts:11-19 | `parseInt(x.toString()) == x` for every integer and for NaN, so the stored counter reads back as the value written |
| ResponseNormalizer.NumberOrZero | src/utils/responseNormalizer.ts:7-8 | `Number(v) \|\| 0` is always a non-NaN number; it is non-zero exactly when `Number(v)` is truthy, and then equals it |
| ResponseNormalizer.NumberOrNull | src/utils/responseNormalizer.ts:12-13 | `Number(v) \|\| null` is null exactly when `Number(v)` is falsy, otherwise that number |
| ResponseNormalizer.NormalizeArtistStats | src/utils/responseNormalizer.ts:4-16 | counts default to 0, a non-array genre field becomes [], every image keeps its url and gets number-or-null dimensions in the same order, all other fields are kept |
| ResponseNormalizer.NormalizedShape | src/utils/responseNormalizer.ts:4-16 | every result is normalised (numeric counts, an array of genres, non-zero-or-null dimensions), and a record is left unchanged exactly when it is already normalised |
| ResponseNormalizer.NormalizeArtistStatsIdempotent | src/utils/responseNormalizer.ts:4-16 | normalising twice equals normalising once |
| ResponseNormalizer.NormalizeTopTracks | src/utils/responseNormalizer.ts:18-24 | one track per input track in order, identity fields kept, duration and popularity converted with `Number()` and no default |
| ResponseNormalizer.NormalizeTopTracksIdempotent | src/utils/responseNormalizer.ts:18-24 | normalising the track list twice equals normalising it once |
| Schemas.SearchQueryIssues | src/validation/schemas.ts:3-7 | no issue exactly when `q` is a string of 1 to 100 characters; a missing, non-string, empty or over-long `q` reports Required, InvalidType, TooSmall(1) or TooBig(100) |
| Schemas.ArtistIdIssues | src/validation/schemas.ts:9-13 | no issue exactly when the id is a string of exactly 22 characters |
| Validate.ValidateRequest | src/middleware/validate.ts:6-22 | `next()` is called with nothing exactly when parsing succeeds; otherwise with a 400 BadRequestError carrying the first Zod issue's message, or "Invalid request data" for any other failure |
| Validate.ValidateSearchQuery | src/middleware/validate.ts:9-19 | validating with the search schema passes exactly when `q` is a 1-to-100-character string, else fails with the first issue's message |
| Validate.ValidateArtistId | src/middleware/validate.ts:9-19 | validating with the id schema passes exactly when the id has 22 characters, else fails with status 400 |
| KeyValueStore.TtlOf | src/services/RedisService.ts:39-46 | a write records an expiry exactly when its TTL is non-empty, and then records that TTL |
| KeyValueStore.Store.Reply | src/services/RedisService.ts:35-37 | `get` rejects exactly when the store is unreachable, and otherwise resolves to the stored value or null |
| KeyValueStore.Store.Get | src/services/RedisService.ts:35-37 | `get` settles as `Reply` describes and changes nothing |
| KeyValueStore.Store.Set | src/services/RedisService.ts:39-46 | a reachable `set` stores the value with its TTL under the key and changes no other key; an unreachable one rejects and changes nothing |
| KeyValueStore.Store.Del | src/services/RedisService.ts:48-50 | a reachable `del` removes exactly the key; an unreachable one rejects and changes nothing |
| Http.WriteAll | src/middleware/cache.ts:14-18 | calling a stack of patched `res.json` wrappers writes one key per wrapper; the most recent wrapper writes first and the oldest last, so the oldest wrapper's value stays; keys no wrapper writes keep their values |
| Http.Exchange.Json | src/middleware/cache.ts:15-18 | `res.json(b)` sends `b` once with the current status and, when the store is reachable, performs every installed wrapper's write |
| CacheMiddleware.CacheKey | src/middleware/cache.ts:7 | the key is "cache:" followed by the original URL verbatim |
| CacheMiddleware.CacheKeyInjective | src/middleware/cache.ts:7 | two requests share a cache entry exactly when their original URLs are identical |
| CacheMiddleware.Decide | src/middleware/cache.ts:8-22 | a miss exactly when the lookup resolves to null or the empty string; a lookup failure goes to `next` with the lookup's error, and an unparsable stored value with the parse error; a hit serves exactly the parsed value |
| CacheMiddleware.Cache | src/middleware/cache.ts:4-25 | on a hit the parsed body is sent and the handler is skipped; on a failure `next(error)` is called and nothing is sent or stored; on a miss one write-through wrapper for this key and TTL is installed and `next()` is called, with nothing sent or stored yet |
| CacheMiddleware.EmptyValueIsMiss | src/middleware/cache.ts:10 | a stored empty string is treated as a miss |
| CacheMiddleware.WriteThroughThenHit | src/middleware/cache.ts:10-17 | with a faithful codec, a body written by the wrapper is served back unchanged by the next lookup of the same URL |
| RateLimiter.RateKey | src/middleware/rateLimiter.ts:6-7 | the key is "ratelimit:" followed by the client address, or by "undefined" when there is none |
| RateLimiter.CountOf | src/middleware/rateLimiter.ts:11 | a missing or empty counter reads as 0, any other counter through `parseInt` |
| RateLimiter.Decide | src/middleware/rateLimiter.ts:10-19 | a request is rejected exactly when the count is a number of at least `requests`; an admitted request stores a counter that reads back as the count plus one |
| RateLimiter.RateLimit | src/middleware/rateLimiter.ts:4-25 | a rejected request gets status 429 and the fixed message and no `next`; an admitted one stores the incremented counter with the window as TTL and calls `next()`; a store failure goes to `next(error)` |
| RateLimiter.CounterStaysBounded | src/middleware/rateLimiter.ts:13-19 | a counter at or below the limit never rises above it |
| RateLimiter.AllowedFrom | src/middleware/rateLimiter.ts:10-19 | from a counter reading `c`, exactly `min(n, requests - c)` of the next `n` requests within one window pass |
| RateLimiter.FreshAddress | src/middleware/rateLimiter.ts:10-19 | a new address gets exactly `min(n, requests)` of `n` requests through in one window |
| RateLimiter.NaNCounterNeverLimits | src/middleware/rateLimiter.ts:11-19 | every counter that does not parse as a number disables the limit: the request passes and the counter written back is "NaN", which again reads as NaN |
| Spotify.Refreshed | src/services/SpotifyService.ts:16-22 | a grant is requested only when the clock has passed the expiry; a successful grant installs its token and sets the expiry `(expires_in - 60)` s later; a failed one changes nothing |
| Spotify.FirstRefreshGrants | src/services/SpotifyService.ts:6-20 | since the expiry starts at 0, the first refresh requests a grant and installs its token |
| Spotify.GrantedTokenLifetime | src/services/SpotifyService.ts:17-20 | after a grant at `now`, a refresh requests a new grant exactly once the clock passes `now + (expires_in - 60) s` |
| Spotify.RefreshAtSameInstant | src/services/SpotifyService.ts:17-20 | a second refresh at the same instant requests another grant exactly when the granted lifetime is under 60 s |
| Spotify.SearchFailure | src/services/SpotifyService.ts:29-34 | every search failure becomes a 500 ApiError "Failed to search artists", with ": " and the original message for an Error |
| Spotify.SearchAttempt | src/services/SpotifyService.ts:26-34 | one search run yields the provider's items unchanged or the wrapped failure |
| Spotify.SearchRetryCondition | src/services/SpotifyService.ts:71 | the wrapped search failure mentions "token expired" exactly when the provider's error did, so the retry condition is decided by the original error |
| Spotify.SearchOutcome | src/services/SpotifyService.ts:24-36 | a successful first request is final and a failure without "token expired" is not retried; a success is the first or the retried reply's items; a failure is a 500 "Failed to search artists" ApiError, or the grant's own error when the refresh before the retry fails |
| Spotify.SearchState | src/services/SpotifyService.ts:16-22 | a search changes the token state only after an expired-token failure, a due refresh and a successful grant, and then installs the granted token |
| Spotify.SearchCalls | src/services/SpotifyService.ts:24-36 | a search asks the provider for the query with limit 5 under the current token; more requests follow exactly after an expired-token failure, and a third request is the same search under the newly granted token |
| Spotify.DetailsFailure | src/services/SpotifyService.ts:56-64 | a NotFoundError is rethrown unchanged; every other failure becomes a 500 ApiError "Failed to fetch artist details", with the original message for an Error |
| Spotify.DetailsOf | src/services/SpotifyService.ts:41-64 | details succeed exactly when all three lookups succeed and the artist body is present, and then hold the three bodies; otherwise the first failing lookup, in array order, is wrapped as a 500 "Failed to fetch artist details" ApiError; a missing body is a NotFoundError naming the id |
| Spotify.SpotifyService.constructor | src/services/SpotifyService.ts:6-14 | a new client has no token, expiry 0 and has sent nothing |
| Spotify.SpotifyService.RefreshAccessToken | src/services/SpotifyService.ts:16-22 | the client state moves as `Refreshed` says, and a grant request is logged exactly when the expiry has passed |
| Spotify.SpotifyService.RetryWithNewToken | src/services/SpotifyService.ts:67-77 | the operation runs a second time only after a first failure mentioning "token expired" and a successful refresh; the second run's outcome is final; a failed refresh propagates its error |
| Spotify.SpotifyService.SearchArtist | src/services/SpotifyService.ts:24-36 | the result is `SearchOutcome`, the new token state is `SearchState` and the requests sent are `SearchCalls`: a search under the current token, then on retry a grant if due and a second search under the new token |
| Spotify.SpotifyService.GetArtistDetails | src/services/SpotifyService.ts:38-65 | the token is refreshed first (a failure there becomes a 500 ApiError); then the artist, its US top tracks and its related artists are requested and combined as `DetailsOf` says; every failure is an ApiError |
| ArtistRoutes.CollectStats | src/routes/artist.routes.ts:69-71 | one stats record per artist, in the artists' order, exactly when every lookup succeeds; otherwise the earliest failing lookup's error |
| ArtistRoutes.SearchResponse | src/routes/artist.routes.ts:64-71 | a failed search propagates; no result or an empty result is a NotFoundError with the fixed message; a non-empty result succeeds exactly when every stats lookup succeeds, listing one record per result in order, and otherwise fails with the earliest failing lookup's error |
| ArtistRoutes.RouteOutcome | src/routes/artist.routes.ts:59-73 | a missing, empty or non-string `q` fails with a BadRequestError "Search query is required"; the route succeeds exactly when the query is usable, the search found artists and every stats lookup succeeds, with one record per artist found |
| ArtistRoutes.ResponseFor | src/middleware/errorHandler.ts:14-20 | only a success is sent as a list, with 200; an error body always has status "error" and a non-empty message; a NotFoundError answers 404, a BadRequestError 400 and a thrown non-Error 500 |
| ArtistRoutes.EmptyQueryScenario | src/routes/artist.routes.ts:59-62 | in every environment other than development, `GET /search?q=` is answered 400 with `{status: "error", message: "Search query is required"}` and no stack |
| ArtistRoutes.NoResultsScenario | src/routes/artist.routes.ts:64-67 | in every environment other than development, a search whose first request finds an empty list is answered 404 with "No artists found matching the search query" and no stack |
| ArtistRoutes.OneResultScenario | src/routes/artist.routes.ts:64-73 | a search that finds one artist whose stats lookup succeeds is answered 200 with a one-element list holding those stats |
| ArtistRoutes.SearchHandler | src/routes/artist.routes.ts:57-77 | the handler either passes the route outcome's error to `next` and sends nothing, or sends the stats list through the installed wrappers; an unusable query leaves the client untouched, a usable one moves it to `SearchState` with the requests `SearchCalls` |
| ArtistRoutes.SendError | src/middleware/errorHandler.ts:14-20 | the error middleware sets the handler's status and sends its body through the installed wrappers |
| ArtistRoutes.SearchEndpoint | src/routes/artist.routes.ts:57-77 | exactly one response per request; a hit serves the stored body with 200 without using the client; a miss sends the route's response, moves the client as the handler does and, when the store is reachable, caches that body, error bodies included, under the request key with TTL "5m" |

## Left out

- I/O and logging (`console.error`, the connection events) are not modelled. The stack trace and `NODE_ENV` are parameters.
- JSON encoding is an abstract codec. Its round trip is assumed through `Faithful` only where a lemma needs it.
- WriteThroughThenHit: assumes a faithful codec. Real JSON writes a NaN number as `null`, so a cached body holding a NaN count or dimension comes back with `null` there and is not served back unchanged.
- TTL expiry is not modelled: an entry records the TTL it was written with but never expires. `ms('5m')` is not converted to milliseconds.
- `RedisService` reconnection, retry strategy and ready check are not modelled. Whether each command reaches the store is a parameter.
- Timing: `Promise.all` runs its lookups concurrently. The model takes them in array order, and "first failure" means first in that order, not first to reject.
- Clock: `refreshAccessToken` reads `Date.now()` twice. The model uses one clock reading per refresh.
- The Spotify Web API and `spotify-web-api-node` are not part of this model. Their replies are parameters.
- `getArtistStats` is called by the route but not defined in `SpotifyService.ts`. It is a parameter.
- Zod's own messages are a parameter `messageOf`, and so is which failure a non-Zod rejection carries. Schema checking of `body` and `params` beyond the two fields is not modelled.
- Numbers are integers or NaN. Floating point, Infinity, hexadecimal `parseInt` prefixes and numeric-string conversion by `Number()` are not modelled, so `Number("12")` is NaN here.
- String lengths are counted in characters, not UTF-16 code units.
- The YouTube service and routes, health and spotify-test routes, Swagger configuration, database migrations and server start-up are not part of this model.
- ResponseNormalizer.NormalizeArtistStats requires `images` to be present. For a record without images the source throws a TypeError, and that path is not modelled.
- A thrown value that is not an Error but carries a `message` or `statusCode` property (`next({statusCode: 404, message: "x"})`) is not modelled. The error middleware reads both properties off any value, but the model answers every non-Error with 500 and the generic message. No modelled path throws such a value.
- Unhandled rejections are left out. The cache wrapper's `redisService.set` is not awaited, so a failed write is modelled as the store being left unchanged while the response is still sent.
