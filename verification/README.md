# ARIMA Stock Predictor: the expiring cache and the pipeline's cache bookkeeping

This project models, in Dafny, the part of the ARIMA Stock Predictor that has
logic of its own:

- **The expiring key-value cache** (`CacheHandler`, in both its current form,
  src/models/cache_handler.py, and its older form, models/CacheHandler.py).
  The on-disk store is modelled as a map from keys to entries
  (`Entry(value, expiry)`) plus an integer clock `now` in seconds. An entry
  whose expiry time the clock has reached is invisible to every reader.
  `insert` writes entries with no expiry; `insert_tmp` writes entries that
  expire `s` seconds later. `get` turns a single key into a one-element list,
  skips keys whose lookup is None (missing, expired, or a stored None), and
  returns the lone item found unwrapped, or else the list found (possibly
  empty). `delete` removes the listed keys that are present; `clear` empties
  the store.
- **The predictor's cache bookkeeping** (`Predictor`, src/models/predictor.py).
  This covers the keys the forecasting pipeline reads and writes
  (`'symbol_on_process'`, `'<symbol>_close_prices'`, `'pdq_<symbol>'` and the
  memoized download). It also covers what each step returns or raises, and how
  many forecast and in-sample steps it asks for. The data source's answer is a
  parameter of each download (`Download`). The pandas preprocessing, the order
  search, forecasting and in-sample prediction are functions of a `Library`
  record whose values the model does not look into. A fitted model is
  identified by its series and its order.

Module `Cache` (cache.dfy) holds the store's specification as pure functions
(`Fetch`, `Stored`, `Removed`, `Found`, `Retrieved`), the lemmas about them,
and the class `CacheHandler`. The class's methods loop over keys as the source
does and are proved against those functions. The scenarios of
tests/test_cache_handler.py are client methods of the class. Module
`LegacyCache` (legacy_cache.dfy) holds the older class, proved against the
same functions. Module `Predictor` (predictor.dfy) gives each pipeline step as
a pure transition on the store (`DownloadMemoized`, `Autofit`, ...). It proves
lemmas about those transitions. It also has the class `Predictor`, whose
methods call the cache as the source does and are proved to make exactly those
transitions.

The predictor's methods keep one invariant, `PipelineStore`. The
`'symbol_on_process'` entry holds a symbol, and a memoized download holds a
series or None. It is what lets `f'pdq_{...}'` be spelled out: a symbol lookup
formats as the symbol, or as `[]` when nothing was found.

The order lookup in `autofit_ARIMA` (src/models/predictor.py:87-100) has the
shape of a cache-or-compute step. It reads the order under `'pdq_<symbol>'`,
and on a falsy answer it searches for an order and writes it to the cache.
But the write does not reach that key. On a miss, `get` returns `[]`, and the
order search runs. Then the order is put in a dictionary keyed by that empty
list, which raises `TypeError` (unhashable type) before anything is stored.
So `'pdq_<symbol>'` is never written, and every call searches again and then
raises. The one exception is a cached falsy string, which is hashable: the
order is then stored under that string. The model follows the code
(`Autofit`, `Autocreate`, `Predictor.AutofitArima`,
`Predictor.AutocreateArimaModel`, `Predictor.AutomakeForecast`). It records
the discrepancy under "## Findings". The corrected lookup (`AutofitIntended`,
`AutocreateIntended`, `Predictor.AutofitArimaIntended`) stores the order
under `'pdq_<symbol>'`.

## Model

| member | source | states |
|---|---|---|
| `Cache.Collapse` | src/models/cache_handler.py:36 | the result never is a one-item list, and its items are exactly the items found |
| `Cache.CollapseRoundTrip` | src/models/cache_handler.py:36 | on every result `get` can give, listing its items and unwrapping a lone item gives the result back |
| `Cache.Found` | src/models/cache_handler.py:31-34 | `get` never finds more items than keys it was asked for |
| `Cache.FoundAppend` | src/models/cache_handler.py:31-34 | found items keep the order in which their keys were requested: the findings for `a + b` are those for `a` followed by those for `b` |
| `Cache.FoundMembers` | src/models/cache_handler.py:31-34 | a value is found if and only if some requested key looks it up |
| `Cache.FoundAgree` | src/models/cache_handler.py:31-34 | `get` depends only on what its requested keys look up |
| `Cache.FoundNothing` | src/models/cache_handler.py:31-34 | keys that are missing, expired or hold None yield nothing |
| `Cache.GetSingleKey` | src/models/cache_handler.py:23-36 | `get(k)` equals `get([k])`; it is the value itself when found, and `[]` when the key is missing, expired or holds None |
| `Cache.GetAfterInsert` | src/models/cache_handler.py:15-17 | after `insert(d)`, `get(k)` returns `d[k]` at any later time for every key of `d` whose value is not None (and `[]` for a None value) |
| `Cache.GetAfterInsertTmp` | src/models/cache_handler.py:19-21 | after `insert_tmp(d, s)` at time `now`, `get(k)` at time `t` returns `d[k]` while `t < now + s`, and `[]` from then on |
| `Cache.GetIgnoresOtherWrites` | src/models/cache_handler.py:15-21 | a write leaves every `get` that names none of the written keys unchanged |
| `Cache.LookupAfterDelete` | src/models/cache_handler.py:38-46 | after `delete(ks)`, every listed key looks up nothing from then on, and every other key looks up what it did before |
| `Cache.GetAfterDelete` | src/models/cache_handler.py:38-46 | `delete(k)` followed by `get(k)` returns `[]` |
| `Cache.GetIgnoresOtherDeletes` | src/models/cache_handler.py:38-46 | `delete` leaves every `get` that names none of the deleted keys unchanged |
| `Cache.GetAfterClear` | src/models/cache_handler.py:51-52 | after `clear`, `get` returns `[]` for any keys |
| `Cache.CacheHandler.constructor` | src/models/cache_handler.py:8-13 | the handler opens with whatever the cache directory holds, at the current time |
| `Cache.CacheHandler.Insert` | src/models/cache_handler.py:15-17 | every pair of `d` is stored with no expiry, overwriting earlier values; other keys and the clock are unchanged |
| `Cache.CacheHandler.InsertTmp` | src/models/cache_handler.py:19-21 | every pair of `d` is stored to expire `s` seconds from now; other keys and the clock are unchanged |
| `Cache.CacheHandler.Get` | src/models/cache_handler.py:23-36 | the loop collects, in request order, the value of each key whose lookup is not None, and returns them collapsed |
| `Cache.CacheHandler.Delete` | src/models/cache_handler.py:38-46 | exactly the listed keys that are present are removed; absent ones are ignored and nothing else changes |
| `Cache.CacheHandler.Clear` | src/models/cache_handler.py:51-52 | the store is empty afterwards |
| `Cache.Probe` | src/models/cache_handler.py:48-49 | the memoizing wrapper's sentinel lookup hits exactly for a live entry, a stored None included, and yields its stored value |
| `Cache.CacheHandler.MemoLookup` | src/models/cache_handler.py:48-49 | the lookup on the handler's store and clock is exactly `Probe` |
| `Cache.InsertThenGet` | tests/test_cache_handler.py:9-14 | `insert({k: v})` then `get(k)` returns `v` |
| `Cache.DeleteThenGet` | tests/test_cache_handler.py:16-19 | `delete(k)` then `get(k)` returns `[]` whatever the cache held |
| `Cache.InsertTmpThenGet` | tests/test_cache_handler.py:21-27 | after `insert_tmp({k: v}, s)`, `get(k)` returns `v` at once and `[]` once `s` seconds have passed |
| `LegacyCache.LegacyCacheHandler.constructor` | models/CacheHandler.py:4-8 | the older handler opens with whatever its cache directory holds |
| `LegacyCache.LegacyCacheHandler.Insert` | models/CacheHandler.py:10-12 | every pair of `d` is stored with no expiry; keys not in `d` are untouched |
| `LegacyCache.LegacyCacheHandler.InsertTmp` | models/CacheHandler.py:14-16 | every pair of `d` is stored with expiry `s` from now, so each pair is absent once `s` has elapsed |
| `LegacyCache.LegacyCacheHandler.Get` | models/CacheHandler.py:18-31 | a single key is treated as a one-element list; keys whose lookup is None are dropped, request order is kept, and exactly one found item is unwrapped |
| `Predictor.SymbolOnProcess` | src/models/predictor.py:195-196 | the symbol being processed while its entry lives, and `[]` once it is missing or expired |
| `Predictor.DataOnProcess` | src/models/predictor.py:201-205 | None unless a non-empty symbol is being processed; otherwise the `get` of that symbol's price key, which is `[]` (not None) once the prices expired |
| `Predictor.DownloadBody` | src/models/predictor.py:21-51 | the download body keeps the pipeline's cache invariant |
| `Predictor.MemoValue` | src/models/predictor.py:19 | memoize stores a series or a None, and returns on a hit exactly what it stored |
| `Predictor.DownloadMemoized` | src/models/predictor.py:19 | the memoized download keeps the pipeline's cache invariant |
| `Predictor.DownloadBodyWrites` | src/models/predictor.py:33-51 | the symbol is marked as being processed for 3600 s before any fetch. A series is returned exactly when the source gave a non-empty table with a Close column. On failure the price key is untouched |
| `Predictor.DownloadReturnsStoredSeries` | src/models/predictor.py:41-43 | the returned series is the value under `'<symbol>_close_prices'` for 3600 s, and nothing afterwards |
| `Predictor.MemoHitSkipsBody` | src/models/predictor.py:19 | a stored result is returned without asking the data source and without any write |
| `Predictor.RepeatDownloadIsMemoized` | src/models/predictor.py:19 | within 3600 s of a download that ran its body, a repeat download of the symbol returns the same result, a failure included, and writes nothing |
| `Predictor.DownloadMemoizedWrites` | src/models/predictor.py:19-51 | a download that runs its body stores its result under its memo key and marks its symbol, each for 3600 s; other symbols' memo entries are unchanged |
| `Predictor.DataOnProcessAfterDownload` | src/models/predictor.py:201-205 | after a successful download of a non-empty symbol, `get_data_on_process` returns that series for the rest of the hour |
| `Predictor.MemoHitLeavesSymbolStale` | src/models/predictor.py:19-35 | downloading `a`, then `b`, then `a` again within the hour leaves `'symbol_on_process'` naming `b`, because the memo hit skips the write |
| `Predictor.Autofit` | src/models/predictor.py:76-104 | the as-written order lookup keeps the pipeline's cache invariant |
| `Predictor.AutofitIntended` | src/models/predictor.py:87-100 | the corrected order lookup keeps the pipeline's cache invariant |
| `Predictor.AutofitHitSkipsSearch` | src/models/predictor.py:87-104 | a cached order under `'pdq_<symbol>'` is returned unchanged, with no search and no write |
| `Predictor.AutofitMissRaises` | src/models/predictor.py:89-99 | as written, a miss runs the search, then raises TypeError and leaves the cache unchanged |
| `Predictor.AutofitNeverStoresUnderPdqKey` | src/models/predictor.py:87-99 | as written, no call changes what `'pdq_<symbol>'` looks up |
| `Predictor.AutofitMissExample` | src/models/predictor.py:87-99 | with `'AAPL'` being processed and no order cached, the call searches and raises |
| `Predictor.AutofitIntendedReusesOrder` | src/models/predictor.py:87-100 | corrected: within 3600 s of a search, a call for the same symbol returns the same order. It does not search again or write, whatever series it is given |
| `Predictor.Autocreate` | src/models/predictor.py:106-119 | the as-written order lookup followed by the fit keeps the pipeline's cache invariant |
| `Predictor.AutocreateIntended` | src/models/predictor.py:106-119 | the corrected order lookup followed by the fit keeps the pipeline's cache invariant |
| `Predictor.AutocreateHitFitsCachedOrder` | src/models/predictor.py:102-119 | with an order cached, both versions fit the series with that order and write nothing |
| `Predictor.AutocreateMissRaises` | src/models/predictor.py:89-119 | as written, a miss of the order lookup propagates TypeError out of `autocreate_ARIMA_model` and leaves the cache unchanged |
| `Predictor.AutocreateIntendedFitsOnMiss` | src/models/predictor.py:89-119 | corrected: a miss fits the series with the searched order and caches that order under `'pdq_<symbol>'` for 3600 s |
| `Predictor.ForecastSteps` | src/models/predictor.py:168-169 | the horizon is `12 * years` steps of the series' business-day frequency, a whole multiple of `StepsPerYear` that divides back to `years` |
| `Predictor.PerformanceWindow` | src/models/predictor.py:187-188 | the in-sample window starts at index 0 and spans one index per observation |
| `Predictor.MakeForecast` | src/models/predictor.py:156-172 | asks the fitted model for `ForecastSteps(years)` steps past the series, so a library that honours lengths returns `12 * years` values |
| `Predictor.MakePerformancePrediction` | src/models/predictor.py:174-189 | asks the fitted model to predict over `PerformanceWindow(data)`, so a library that honours lengths returns one value per observation of the series |
| `Predictor.Predictor.constructor` | src/models/predictor.py:14-19 | a predictor over an existing cache directory, with no fitted model |
| `Predictor.Preprocessed` | src/models/predictor.py:53-74 | preprocessing fails exactly when the table has no Close column, and otherwise yields the business-day filled series |
| `Predictor.Predictor.PreprocessData` | src/models/predictor.py:53-74 | reads the symbol being processed, then returns exactly `Preprocessed`'s result |
| `Predictor.Predictor.DownloadUncached` | src/models/predictor.py:21-51 | the body's cache writes and result are exactly `DownloadBody`'s |
| `Predictor.Predictor.DownloadStockClosingData` | src/models/predictor.py:19-51 | the memoized download's result and cache writes are exactly `DownloadMemoized`'s |
| `Predictor.Predictor.AutofitArima` | src/models/predictor.py:76-104 | the as-written order lookup's result, cache writes and number of searches are exactly `Autofit`'s |
| `Predictor.Predictor.AutofitArimaIntended` | src/models/predictor.py:76-104 | the corrected order lookup's result, cache writes and number of searches are exactly `AutofitIntended`'s |
| `Predictor.Predictor.CreateArimaModel` | src/models/predictor.py:121-135 | the fit of the series with the order is returned and kept as the current model; a value that is not an order is refused |
| `Predictor.Predictor.AutocreateArimaModel` | src/models/predictor.py:106-119 | the as-written order lookup then the fit, equal to `Autocreate`: the result, the cache and the search count; the fitted model is kept, and a raised lookup or refused order leaves the current model as it was |
| `Predictor.Predictor.AutomakeForecast` | src/models/predictor.py:137-154 | `make_forecast` over the model `Autocreate` fits and keeps, or the exception it raised with the model left as it was; the cache and search count are `Autocreate`'s |
| `Predictor.Predictor.ClearCache` | src/models/predictor.py:191-192 | the cache is empty afterwards |

## Left out

- The on-disk persistence, `size_limit` eviction, cross-process sharing and `close` of the cache (both versions). The store is an in-memory map. Expired entries stay in it but are invisible, as they are to every reader of the real store.
- Wall-clock time: the clock is an integer of seconds, moved on by `AdvanceClock`. Fractional expiry times are not modelled.
- `memoize` of the older handler (models/CacheHandler.py:34-35) is the same wrapper as the newer one. It is modelled once, for the newer handler.
- The memo key: it is modelled as one key per symbol. The real wrapper also derives it from the function name and the calling convention (positional or keyword).
- The network download (`yf.download`): each call's answer is a parameter, and is ignored on a memo hit.
- The pandas preprocessing (`dropna`, `asfreq("B")`, `ffill`): an uninterpreted function of the table. Only the empty-table and missing-Close failures are modelled. The other exceptions the broad handler catches are not.
- Order search, fitting, forecasting and in-sample prediction values: uninterpreted library functions. The order search's own exceptions (for example on a series too short to fit) are not modelled, nor are fit and forecast errors such as non-convergence. ARIMA refusing something that is not an order is modelled as one abstract error.
- Predictor.MakeForecast: its length holds only for a library that returns as many values as steps requested (`HonoursLengths`). That is the statistics library's promise, not the pipeline's.
- Predictor.MakePerformancePrediction: likewise assumes `HonoursLengths`.
- The forecast horizon's calendar length: `PriceSeries` carries no dates. The preprocessing reindexes the series to business days (src/models/predictor.py:71), so the `12 * years` steps are business days. With the default `years = 2` (`DefaultYears`, src/models/predictor.py:137 and 156) that is 24 business days, about five weeks. The docstrings (lines 143 and 162) describe `years` as a count of years ahead, and the count is named `forecast_months`. So the step count evidently was meant to cover that many years, which it does not.
- Predictor.Predictor.constructor: requires the existing cache directory to hold only what the pipeline writes (`PipelineStore`). That is, a symbol under `'symbol_on_process'`, and a series or None under each memo key. Other keys may hold anything.
- Each call is modelled as a single instant, at the `now` it starts. In a download, the `'symbol_on_process'` mark, the price entry and the memo entry are all written at that `now`; in the program the data source is queried between these writes. In `autofit_ARIMA` the order is written after the order search has run (src/models/predictor.py:90-99). `get_data_on_process` reads `'symbol_on_process'` twice (lines 202 and 204), and the model does both reads at one time. So later writes expire correspondingly later than modelled, and an entry cannot expire between two reads of one call.
- `get_arima_model` (src/models/predictor.py:198-199) returns the `_arima_model` field; the model exposes it as the field `arimaModel`.
- The `_data_on_process` field: it is set to None and never read.
- Symbols are strings. The `print` output and the Tk GUI, plotting and controller are not part of this model.

## Findings

| source | as written | input that shows it | evidently intended | confidence | as-written member | corrected member |
|---|---|---|---|---|---|---|
| src/models/predictor.py:89-99 | On a cache miss the searched order is put in a dict keyed by the lookup result, the empty list `[]`. That raises TypeError (unhashable list) after the order search has run, and nothing is cached. | `'symbol_on_process'` holds `'AAPL'`, no `'pdq_AAPL'` entry: `autofit_ARIMA` searches, then raises | store the order under `'pdq_<symbol>'` for 3600 s and reuse it within that time | high, not executed | `Predictor.AutofitMissExample` | `Predictor.AutofitIntendedReusesOrder` |
