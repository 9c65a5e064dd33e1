# Resilient market-data access: a Dafny model

This project models the data-access layer of a small Django service that
serves 24-hour ticker statistics from the Binance API
(`backend/crypto_api/views.py`). It has four parts:

- **Cache-aside reads with a stale fallback.** `get_crypto_data(symbol)` and
  `get_crypto_list()` look up a live key. A Python-truthy value is returned
  with `from_cache = True`. On a miss they fetch through the circuit breaker
  and cache the result for 120 s. On any failure inside the `try` they read
  the key's `_stale` companion and return it if it is truthy; otherwise the
  error propagates. The hit test is Python truthiness, so a cached empty
  list counts as a miss. Nothing in the code ever writes a `_stale` key, so
  the fallback only reads one; the model keeps both behaviours.
- **The top-20 selection.** Keep the pairs whose symbol ends in `USDT`,
  stable-sort them by volume (largest first), and keep the first 20.
- **The circuit breaker.** One `CircuitBreaker(fail_max=3, reset_timeout=60)`
  guards every upstream fetch, for every symbol and for the list. It is
  written out as a state machine over an explicit clock: Closed, then Open
  after 3 consecutive failures, refusing calls for 60 s, then one half-open
  trial that either closes it or re-opens it.
- **Cache keys and the admin reset.** The keys are `crypto_<SYMBOL>`,
  `crypto_list` and their `_stale` companions. The detail view upper-cases the
  symbol first. The admin view clears the cache, then resets the breaker.

Layout, one module per component:

- `market.dfy` (`Market`): tickers, JSON payloads, Python truthiness, errors.
- `text.dfy` (`Text`): `str.endswith` and `str.upper`.
- `keys.dfy` (`Keys`): key derivation and distinctness.
- `selection.dfy` (`Selection`): the top-20 selection and its stable sort.
- `breaker.dfy` (`Breaker`): the breaker, as a pure transition function
  `Guarded` and as class `CircuitBreaker`, whose `Call` updates its fields in
  place.
- `cache.dfy` (`Cache`): the cache as a map with expiry times, and class
  `Store`.
- `service.dfy` (`Service`): the read policy `Fetch` on a value `World`
  (cache map plus breaker state), and class `CryptoService` that carries it
  out on the shared `Store` and `CircuitBreaker` objects.
- `views.dfy` (`Views`): the three views, their status codes, and lemmas over
  sequences of API requests.

Each imperative method is proved against the pure function that specifies
it. For example, `CryptoService.GetCryptoData` ends in the state and result
that `Fetch` gives. The properties themselves are proved about the pure
functions.

Time, the upstream response and the reachability of the cache backend are
parameters (`now`, `upstream`, `reachable`). Volumes and prices are integers
standing for the parsed numbers.

## Model

| member | source | states |
|---|---|---|
| `Text.Upper` | backend/crypto_api/views.py:82 | `symbol.upper()` upper-cases every character and changes nothing else; the result has no lower-case letter |
| `Text.UpperFixesExactlyNoLower` | backend/crypto_api/views.py:82 | upper-casing leaves a string unchanged exactly when it has no lower-case letter, so it is idempotent |
| `Keys.LiveKeyNeverStale` | backend/crypto_api/views.py:35-71 | the live key of an upper-cased symbol, and `crypto_list`, never end in `_stale` |
| `Keys.KeysDistinct` | backend/crypto_api/views.py:35-71 | for upper-cased symbols, no live key is any request's stale key, and live (and stale) keys of different requests differ |
| `Keys.LiveKeyInjective` | backend/crypto_api/views.py:35-55 | `crypto_<S>` and `crypto_list` coincide only for the same request |
| `Keys.SameKeyIgnoringCase` | backend/crypto_api/views.py:82 | two symbols share a live key exactly when they agree letter by letter up to case |
| `Text.EndsWith` | backend/crypto_api/views.py:65 | `s.endswith(suffix)` holds exactly when the suffix is no longer than `s` and matches its last characters one by one |
| `Market.Truthy` | backend/crypto_api/views.py:38-72 | the `if cached_data:` and `if stale_data:` tests: `None`, `{}` and `[]` are falsy and every other payload is truthy |
| `Selection.UsdtPairs` | backend/crypto_api/views.py:65 | the comprehension keeps exactly the snapshot's items whose symbol ends in `USDT`: each such item as many times as it occurs upstream, and no other item |
| `Selection.UsdtPairsAppend` | backend/crypto_api/views.py:65 | the comprehension distributes over concatenation, so the pairs it keeps stay in upstream order |
| `Selection.SortByVolume` | backend/crypto_api/views.py:66 | the sort yields volumes in non-increasing order and is a permutation of its input |
| `Selection.SortIsStable` | backend/crypto_api/views.py:66 | for every volume, the tickers of that volume keep their upstream order (`sorted(..., reverse=True)` is stable) |
| `Selection.SortedStableUnique` | backend/crypto_api/views.py:66 | two sequences that are both sorted by volume and have the same tickers, in the same order, for every volume are equal |
| `Selection.SortCharacterised` | backend/crypto_api/views.py:66 | any sequence sorted by volume that keeps the upstream order within each volume is the sort's result |
| `Selection.TopPairs` | backend/crypto_api/views.py:65-66 | `sorted(...)[:20]`: the first min(20, number of USDT pairs) tickers of the stable sort of the USDT pairs |
| `Selection.TopPairsMembers` | backend/crypto_api/views.py:65-66 | every ticker in the top list is a USDT pair from the snapshot, and there are min(20, number of USDT pairs) of them |
| `Selection.TopPairsOrder` | backend/crypto_api/views.py:66 | the top list is sorted by volume, and for each volume it is a prefix of that volume's tickers in upstream order |
| `Selection.TopPairsCutOff` | backend/crypto_api/views.py:66 | the top list is a sub-multiset of the USDT pairs, and every pair left out has at most the volume of the 20th pair kept |
| `Breaker.Guarded` | backend/crypto_api/views.py:14-23 | a call is refused, with nothing run and nothing changed, exactly when the breaker is open and less than 60 s have passed since it opened. Otherwise the fetch runs and its result passes through unchanged. A success closes the breaker with a zero count. A failure adds one to the count and opens the breaker at `now` if it was on trial or reaches 3 failures. The breaker never rests half-open, and the call keeps it valid |
| `Breaker.ResetState` | backend/crypto_api/views.py:148 | `breaker.reset()` leaves it closed with a zero failure count, and keeps its open time |
| `Breaker.FailuresAccumulate` | backend/crypto_api/views.py:14 | over a run of failing calls, the breaker stays valid and is either open or has counted every failure |
| `Breaker.ConsecutiveFailuresOpen` | backend/crypto_api/views.py:14 | from any valid state, 3 consecutive failing calls at any times leave the breaker open |
| `Breaker.OpenWindowShortCircuits` | backend/crypto_api/views.py:14 | every call within 60 s of opening is refused with a circuit-open error, does not run the fetch, and leaves the breaker unchanged |
| `Breaker.TrialAfterCoolDown` | backend/crypto_api/views.py:14 | once 60 s have passed, the next call runs as a trial. Its success closes the breaker with a zero count; its failure re-opens it with the timer restarted at `now` |
| `Breaker.CircuitBreaker.constructor` | backend/crypto_api/views.py:14 | the one module-level breaker starts closed with a zero failure count |
| `Breaker.CircuitBreaker.Call` | backend/crypto_api/views.py:22-23 | the guarded call on the breaker object: new fields and result are those of `Guarded` |
| `Breaker.CircuitBreaker.Reset` | backend/crypto_api/views.py:148 | the breaker object is closed with a zero count, and its open time is kept |
| `Cache.Lookup` | backend/crypto_api/views.py:36-71 | `cache.get(key)` gives the value of a live entry, and `None` for a key that is absent or has expired |
| `Cache.Store.Get` | backend/crypto_api/views.py:36-71 | `cache.get(key)` on the cache object: the value of a live entry of its map, `None` otherwise |
| `Cache.Stored` | backend/crypto_api/views.py:43 | `cache.set(key, value, ttl)` makes `key` read as `value` for `ttl` seconds and as missing afterwards; every other key reads as before at every time |
| `Cache.Store.Set` | backend/crypto_api/views.py:68 | the cache object's entries become those of `Stored` |
| `Cache.Store.Clear` | backend/crypto_api/views.py:147 | a reachable backend is emptied; an unreachable one raises and keeps its entries |
| `Service.TopOf` | backend/crypto_api/views.py:65-66 | an upstream array becomes its top pairs, `{}` becomes the empty list, and any other payload raises inside the `try` |
| `Service.Refresh` | backend/crypto_api/views.py:41-69 | inside the `try`: an error from the guarded call propagates; a symbol's payload is the value to cache; on the list path the payload goes through `TopOf` |
| `Service.Hit` | backend/crypto_api/views.py:36-59 | a read is served from the cache exactly when the live key holds an unexpired entry whose value is truthy |
| `Service.Fetch` | backend/crypto_api/views.py:33-74 | a truthy live value is returned with `from_cache`, with no upstream call and nothing changed. A miss makes exactly one call through the shared breaker. A successful refresh returns the value with `from_cache` false; it caches the value under the live key alone for 120 s, after which the key reads as missing, and the `_stale` key is not written. A failed refresh, including a refused call, leaves the cache unchanged: the result is the truthy stale value with `from_cache`, else the failure |
| `Service.ClearAll` | backend/crypto_api/views.py:145-151 | after clear-then-reset succeeds, every key reads as missing and the breaker is closed with a zero count; if clear raises, nothing changes and the reset is not reached |
| `Service.ServedFromCacheWithinTtl` | backend/crypto_api/views.py:36-44 | within 120 s of a refresh that cached a truthy value, the same read returns that value from the cache, with no upstream call and no change |
| `Service.FalsyValueIsRefetched` | backend/crypto_api/views.py:56-68 | a falsy refreshed value (an empty top list) is cached but never served: the next read calls through the breaker again unless it refuses |
| `Service.ListRefreshIsTopPairs` | backend/crypto_api/views.py:61-69 | a list refresh from an upstream array returns and caches the top pairs: USDT pairs of the snapshot, min(20, number of USDT pairs) of them, sorted by volume, ties in upstream order |
| `Service.ResetThenFetch` | backend/crypto_api/views.py:145-148 | after a successful reset, the next read of any request goes upstream. It returns exactly what the refresh makes of the upstream outcome: no refusal caused by earlier failures, no data cached before the reset |
| `Service.CryptoService.GetCryptoData` | backend/crypto_api/views.py:33-50 | `get_crypto_data` on the shared cache and breaker: the result and the new state are those of `Fetch` for that symbol |
| `Service.CryptoService.GetCryptoList` | backend/crypto_api/views.py:53-74 | `get_crypto_list` on the shared cache and breaker: the result and the new state are those of `Fetch` for the list |
| `Views.DetailErrorStatus` | backend/crypto_api/views.py:98-107 | as written, the detail view answers 503 exactly for a `requests` exception and 400 for every other error |
| `Views.IntendedDetailErrorStatus` | backend/crypto_api/views.py:98-107 | as intended, a failed fetch or a refused call is 503, and only a malformed payload is 400 |
| `Views.OpenCircuitAnsweredAsBadRequest` | backend/crypto_api/views.py:98-107 | with the breaker open and no cached data, a well-formed detail request is refused without an upstream call; as written it gets 400 where 503 was intended |
| `Views.CryptoDetailGet` | backend/crypto_api/views.py:80-107 | the detail view reads the upper-cased symbol with the state change of `Fetch`, and answers 200 or the error's status |
| `Views.CryptoListGet` | backend/crypto_api/views.py:113-139 | the list view reads the top list with the state change of `Fetch`, and answers 200 or 503 |
| `Views.ClearCachePost` | backend/crypto_api/views.py:145-151 | the admin view's new state is that of `ClearAll`; it answers 200, or 500 when clear raises |
| `Views.SymbolCaseIgnored` | backend/crypto_api/views.py:82 | two symbols that agree up to case are handled identically by the detail view: same result, same new state |
| `Views.StaleKeysNeverWritten` | backend/crypto_api/views.py:43-71 | from a cache with no `_stale` entries, no sequence of API requests ever creates one |
| `Views.StaleFallbackNeverServes` | backend/crypto_api/views.py:45-74 | so, from such a cache, the stale fallback never serves anything after any sequence of requests: a cached answer is always a live hit, and a failed refresh surfaces its error |
| `Views.OneBreakerForAllRequests` | backend/crypto_api/views.py:14-63 | three failed reads of one symbol, starting from a fresh breaker, open it. For the next 60 s, a missed read of any symbol or of the list is refused without an upstream call; it returns its stale value if truthy, else the circuit-open error |

## Left out

- The HTTP fetch (`requests.get`, `raise_for_status`, `response.json()`, views.py:25-30) is network I/O. Its outcome is the parameter `upstream`: a payload, or an error.
- Python's `float(...)` parsing of volumes and prices is floating point over strings. Tickers carry integer fields, and volume is compared as an integer.
- JSON shapes outside the model's `Payload` are not modelled, for example an array holding something other than ticker objects.
- The Redis backend and the Django cache settings (`backend/crypto/settings.py`) are configuration. The cache is a map with expiry times. The uniform `KEY_PREFIX` cannot affect key distinctness.
- Cache backend failures are modelled only for `cache.clear()`. A failing `get` or `set` is not modelled.
- `Cache.Store.Clear`: a clear that raises is modelled as leaving every entry in place. A real backend may have removed some entries before failing.
- The library behind `CircuitBreaker` is not part of this model. Its behaviour is the state machine above. The model passes the fetch's own error through on the call that trips the breaker, while the library may raise its own `CircuitBreakerError` there. Listeners, excluded exceptions and state storage are not modelled.
- `breaker.reset()` (views.py:148) is assumed to close the breaker and zero its failure count. The breaker library is not part of this model, so whether it provides `reset()` at all is not established here. If it did not, the admin view would clear the cache and then answer 500 without resetting the breaker.
- Response bodies are not modelled: the field extraction and `float` calls at views.py:84-94 and 117-131, and the `circuit_breaker_state` string. A non-object payload on the detail path would fail there with 400, and a non-ticker list item with 503; neither failure is modelled.
- `Views.CryptoDetailGet`: its status uses the intended mapping `Views.IntendedDetailErrorStatus`, not the mapping as written (see Findings). `Views.DetailErrorStatus` models the written one.
- Concurrency is not modelled: the breaker and cache are shared by concurrent requests, and two trial calls could overlap in half-open. Everything here is sequential, so half-open lasts only for the duration of one call.
- `str.upper()` is modelled on the ASCII letters only. Unicode case mapping ('ß' to "SS", for example) is not modelled.
- URL routing, settings and the React front end are not part of this model.

## Findings

| source | as written | input that shows it | evidently intended | confidence | as-written member | corrected member |
|---|---|---|---|---|---|---|
| backend/crypto_api/views.py:98-107 | Only `requests.exceptions.RequestException` maps to 503. The breaker's `CircuitBreakerError` is not a `RequestException`, so it falls through to `except Exception` and is answered 400 Bad Request. | Breaker open and cooling down, no cached or stale data, `GET /api/crypto/BTCUSDT/` | 503 Service Unavailable with the breaker's state: the 503 body is the one that reports `circuit_breaker_state` | medium: rests on the breaker library's exception class; not executed | `Views.DetailErrorStatus`, `Views.OpenCircuitAnsweredAsBadRequest` | `Views.IntendedDetailErrorStatus` |
