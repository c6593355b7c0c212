/**
 * The cache bookkeeping of the forecasting pipeline (src/models/predictor.py):
 * which keys the predictor reads and writes, in which order, what each step
 * returns, and how many forecast and in-sample steps it asks for.
 *
 * The network download, the pandas preprocessing, the ARIMA order search,
 * fitting and forecasting are external: the data source's answer is a
 * parameter of each download, and the libraries are a record of functions
 * whose values the model does not look into.
 */
module Predictor {
  import opened Cache

  const SymbolKey: string := "symbol_on_process"
  const CloseSuffix: string := "_close_prices"
  const PdqPrefix: string := "pdq_"
  const CloseColumn: string := "Close"
  /** Every entry the predictor writes, and every memoized download, expires after an hour. */
  const Ttl: int := 3600
  /**
   * Forecast steps per requested year (the source names the count
   * `forecast_months`).  The series is at business-day frequency, so these are
   * business-day steps, not months.
   */
  const StepsPerYear: int := 12
  /** The `years` argument's default in `automake_forecast` and `make_forecast`. */
  const DefaultYears: int := 2

  /** A preprocessed closing-price series; its business-day dates are not modelled. */
  datatype PriceSeries = PriceSeries(closes: seq<real>)

  /** An ARIMA order (p, d, q). */
  datatype Order = Order(p: int, d: int, q: int)

  /** The values the predictor keeps in its cache. */
  datatype Cached = Symbol(symbol: string) | Prices(series: PriceSeries) | Pdq(order: Order)

  /** Cache keys: the predictor's own string keys, and the key memoize derives from a download's symbol. */
  datatype CacheKey = Named(name: string) | MemoOf(symbol: string)

  /** The table the data source returns: its column names, its row count and its cells. */
  datatype Frame = Frame(columns: set<string>, rowCount: nat, cells: seq<real>)

  /** The outcome of one call to the data source: it raised, or it returned a table. */
  datatype Download = FetchFailed | Fetched(frame: Frame)

  /** A fitted ARIMA model, identified by the series and the order it was fitted with. */
  datatype FittedModel = Fitted(data: PriceSeries, order: Order)

  /** The exceptions that escape the pipeline's own handlers. */
  datatype PyError =
    | UnhashableKey   // TypeError: a list used as a dictionary key
    | AmbiguousTruth  // ValueError: the truth value of a Series
    | InvalidOrder    // ARIMA given something that is not a (p, d, q) order

  datatype Outcome<T> = Ok(value: T) | Raised(error: PyError)

  /** The libraries the pipeline hands its numerical work to. */
  datatype Library = Library(
    businessDayFill: Frame -> PriceSeries,           // Close column: dropna, asfreq("B"), ffill
    autoArima: PriceSeries -> Order,                 // pm.auto_arima(...).order
    forecast: (FittedModel, int) -> PriceSeries,     // model.forecast(steps)
    predict: (FittedModel, int, int) -> PriceSeries  // model.predict(start, end)
  )

  /** A result together with the store it leaves behind. */
  datatype Step<R> = Step(result: R, store: Store<CacheKey, Cached>)

  /** What `autofit_ARIMA` returns or raises, the store it leaves, and whether it ran the order search. */
  datatype Search = Search(outcome: Outcome<Got<Cached>>, store: Store<CacheKey, Cached>, searched: bool)

  /** A memoized download result: the series, or a stored None. */
  predicate MemoShaped(v: Option<Cached>) {
    v.None? || v.value.Prices?
  }

  /**
   * What the predictor's own writes keep true of its cache: the
   * 'symbol_on_process' entry holds a symbol, and a memoized download holds
   * a series or None.
   */
  ghost predicate PipelineStore(s: Store<CacheKey, Cached>) {
    && (Named(SymbolKey) in s ==> s[Named(SymbolKey)].value.Some? && s[Named(SymbolKey)].value.value.Symbol?)
    && (forall sym :: MemoOf(sym) in s ==> MemoShaped(s[MemoOf(sym)].value))
  }

  function PricesKey(symbol: string): CacheKey {
    Named(symbol + CloseSuffix)
  }

  /** No symbol's price key is the 'symbol_on_process' key. */
  lemma PricesKeyIsNotSymbolKey(symbol: string)
    ensures PricesKey(symbol) != Named(SymbolKey)
  {
    if |symbol| == 4 {
      assert (symbol + CloseSuffix)[4] == '_' != SymbolKey[4];
    }
  }

  // ---------------------------------------------------------------------
  // Lookups

  /** `get_symbol_on_process`: the symbol being processed, or the empty list once it is missing or expired. */
  function SymbolOnProcess(s: Store<CacheKey, Cached>, now: int): (g: Got<Cached>)
    requires PipelineStore(s)
    ensures g == Many([]) || (g.One? && g.item.Symbol?)
    ensures g.One? <==> Present(s, now, Named(SymbolKey))
    ensures g.One? ==> Some(g.item) == s[Named(SymbolKey)].value
  {
    GetSingleKey(s, now, Named(SymbolKey));
    Retrieved(s, now, Key(Named(SymbolKey)))
  }

  /** `f'{x}'` of a symbol lookup: the symbol itself, or "[]" for the empty list. */
  function Text(g: Got<Cached>): string
    requires g == Many([]) || (g.One? && g.item.Symbol?)
  {
    if g.One? then g.item.symbol else "[]"
  }

  /** `f'pdq_{self.get_symbol_on_process()}'`. */
  function PdqKey(s: Store<CacheKey, Cached>, now: int): CacheKey
    requires PipelineStore(s)
  {
    Named(PdqPrefix + Text(SymbolOnProcess(s, now)))
  }

  /** Python truthiness of a lookup result; a Series has none and raises. */
  function Truth(g: Got<Cached>): Outcome<bool> {
    match g
    case Many(items) => Ok(|items| > 0)
    case One(Symbol(sym)) => Ok(sym != "")
    case One(Pdq(_)) => Ok(true)
    case One(Prices(_)) => Raised(AmbiguousTruth)
  }

  /**
   * `get_data_on_process`: None unless a non-empty symbol is being processed;
   * otherwise what `get` finds under that symbol's price key.
   */
  function DataOnProcess(s: Store<CacheKey, Cached>, now: int): (r: Option<Got<Cached>>)
    requires PipelineStore(s)
    ensures r.Some? <==> Present(s, now, Named(SymbolKey)) && s[Named(SymbolKey)].value.value.symbol != ""
    ensures r.Some? ==> r.value == Retrieved(s, now, Key(PricesKey(s[Named(SymbolKey)].value.value.symbol)))
  {
    var symbol := SymbolOnProcess(s, now);
    if symbol.One? && symbol.item.symbol != "" then
      Some(Retrieved(s, now, Key(PricesKey(Text(symbol)))))
    else
      None
  }

  // ---------------------------------------------------------------------
  // Downloading

  predicate IsEmpty(f: Frame) {
    f.rowCount == 0 || f.columns == {}
  }

  /** `_preprocess_data`: fails without a Close column, else the business-day filled closing prices. */
  function Preprocessed(lib: Library, f: Frame): (r: Option<PriceSeries>)
    ensures r.Some? <==> CloseColumn in f.columns
    ensures r.Some? ==> r.value == lib.businessDayFill(f)
  {
    if CloseColumn in f.columns then Some(lib.businessDayFill(f)) else None
  }

  /** The body of `download_stock_closing_data`, run when memoize finds no stored result. */
  function DownloadBody(s: Store<CacheKey, Cached>, now: int, lib: Library, symbol: string, fetched: Download): (r: Step<Option<PriceSeries>>)
    ensures PipelineStore(s) ==> PipelineStore(r.store)
  {
    PricesKeyIsNotSymbolKey(symbol);
    var marked := Stored(s, map[Named(SymbolKey) := Some(Symbol(symbol))], Some(now + Ttl));
    match fetched
    case FetchFailed => Step(None, marked)
    case Fetched(frame) =>
      if IsEmpty(frame) then Step(None, marked)
      else
        match Preprocessed(lib, frame)
        case None => Step(None, marked)
        case Some(prices) => Step(Some(prices), Stored(marked, map[PricesKey(symbol) := Some(Prices(prices))], Some(now + Ttl)))
  }

  /** How memoize stores a result: a series as itself, a None as a stored None. */
  function MemoValue(r: Option<PriceSeries>): (v: Option<Cached>)
    ensures MemoShaped(v) && MemoResult(v) == r
  {
    if r.Some? then Some(Prices(r.value)) else None
  }

  /** The result memoize returns for a stored value. */
  function MemoResult(v: Option<Cached>): Option<PriceSeries>
    requires MemoShaped(v)
  {
    if v.Some? then Some(v.value.series) else None
  }

  /**
   * `download_stock_closing_data` as memoize wraps it: a stored result for
   * the symbol is returned as it is; otherwise the body runs and its result,
   * None included, is stored for an hour.
   */
  function DownloadMemoized(s: Store<CacheKey, Cached>, now: int, lib: Library, symbol: string, fetched: Download): (r: Step<Option<PriceSeries>>)
    requires PipelineStore(s)
    ensures PipelineStore(r.store)
  {
    match Probe(s, now, MemoOf(symbol))
    case Some(v) => Step(MemoResult(v), s)
    case None =>
      var body := DownloadBody(s, now, lib, symbol, fetched);
      Step(body.result, Stored(body.store, map[MemoOf(symbol) := MemoValue(body.result)], Some(now + Ttl)))
  }

  // ---------------------------------------------------------------------
  // Choosing the order

  /**
   * `autofit_ARIMA` as written.  It looks up the order under 'pdq_<symbol>'.
   * A truthy value is returned as it is.  On a falsy one it runs the order
   * search and then writes the order under the looked-up value instead of
   * under the key: the empty list of a miss is unhashable and raises, and
   * only a falsy string (which is hashable) becomes a key.
   */
  function Autofit(s: Store<CacheKey, Cached>, now: int, lib: Library, data: PriceSeries): (r: Search)
    requires PipelineStore(s)
    ensures PipelineStore(r.store)
  {
    var cached := Retrieved(s, now, Key(PdqKey(s, now)));
    match Truth(cached)
    case Raised(e) => Search(Raised(e), s, false)
    case Ok(truthy) =>
      if truthy then Search(Ok(cached), s, false)
      else
        var order := lib.autoArima(data);
        if cached.One? && cached.item.Symbol? then
          Search(Ok(One(Pdq(order))), Stored(s, map[Named(cached.item.symbol) := Some(Pdq(order))], Some(now + Ttl)), true)
        else
          Search(Raised(UnhashableKey), s, true)
  }

  /** `autofit_ARIMA` as evidently intended: on a falsy lookup the searched order is stored under 'pdq_<symbol>'. */
  function AutofitIntended(s: Store<CacheKey, Cached>, now: int, lib: Library, data: PriceSeries): (r: Search)
    requires PipelineStore(s)
    ensures PipelineStore(r.store)
  {
    var key := PdqKey(s, now);
    var cached := Retrieved(s, now, Key(key));
    match Truth(cached)
    case Raised(e) => Search(Raised(e), s, false)
    case Ok(truthy) =>
      if truthy then Search(Ok(cached), s, false)
      else
        var order := lib.autoArima(data);
        Search(Ok(One(Pdq(order))), Stored(s, map[key := Some(Pdq(order))], Some(now + Ttl)), true)
  }

  /** `create_ARIMA_model`: fits the series with the given order; anything but an order is refused. */
  function Fit(data: PriceSeries, order: Got<Cached>): Outcome<FittedModel> {
    if order.One? && order.item.Pdq? then Ok(Fitted(data, order.item.order)) else Raised(InvalidOrder)
  }

  /** The fit of the series with the order a lookup chose; an exception of the lookup propagates. */
  function FitChosen(data: PriceSeries, chosen: Outcome<Got<Cached>>): Outcome<FittedModel> {
    if chosen.Ok? then Fit(data, chosen.value) else Raised(chosen.error)
  }

  /** `autocreate_ARIMA_model` as written: the as-written order lookup followed by the fit. */
  function Autocreate(s: Store<CacheKey, Cached>, now: int, lib: Library, data: PriceSeries): (r: Step<Outcome<FittedModel>>)
    requires PipelineStore(s)
    ensures PipelineStore(r.store)
  {
    var search := Autofit(s, now, lib, data);
    Step(FitChosen(data, search.outcome), search.store)
  }

  /** `autocreate_ARIMA_model` over the corrected order lookup. */
  function AutocreateIntended(s: Store<CacheKey, Cached>, now: int, lib: Library, data: PriceSeries): (r: Step<Outcome<FittedModel>>)
    requires PipelineStore(s)
    ensures PipelineStore(r.store)
  {
    var search := AutofitIntended(s, now, lib, data);
    Step(FitChosen(data, search.outcome), search.store)
  }

  // ---------------------------------------------------------------------
  // Forecasting

  /** `12 * years` steps of the series' business-day frequency: a whole multiple of `StepsPerYear`. */
  function ForecastSteps(years: int): (steps: int)
    ensures steps % StepsPerYear == 0 && steps / StepsPerYear == years
  {
    StepsPerYear * years
  }

  /** The in-sample window `0 .. len(data) - 1`: one index per observation, starting at the first. */
  function PerformanceWindow(data: PriceSeries): (w: (int, int))
    ensures w.0 == 0 && w.1 - w.0 + 1 == |data.closes|
  {
    (0, |data.closes| - 1)
  }

  /** `make_forecast`: asks the fitted model for `ForecastSteps(years)` steps past the end of the series. */
  function MakeForecast(lib: Library, model: FittedModel, years: int): (r: PriceSeries)
    ensures HonoursLengths(lib) && years >= 0 ==> |r.closes| == StepsPerYear * years
  {
    lib.forecast(model, ForecastSteps(years))
  }

  /** `make_performance_prediction`: asks the fitted model to predict over `PerformanceWindow(data)`. */
  function MakePerformancePrediction(lib: Library, model: FittedModel, data: PriceSeries): (r: PriceSeries)
    ensures HonoursLengths(lib) ==> |r.closes| == |data.closes|
  {
    var w := PerformanceWindow(data);
    lib.predict(model, w.0, w.1)
  }

  /** The statistics library returns as many values as steps it is asked for. */
  ghost predicate HonoursLengths(lib: Library) {
    && (forall m, n :: 0 <= n ==> |lib.forecast(m, n).closes| == n)
    && (forall m, a, b :: 0 <= a <= b + 1 ==> |lib.predict(m, a, b).closes| == b - a + 1)
  }

  // ---------------------------------------------------------------------
  // Properties of the download

  /**
   * The body marks the symbol as being processed for an hour, whatever the
   * data source answers; it returns a series exactly when the source returned
   * a non-empty table with a Close column, and only then writes the price key.
   */
  lemma DownloadBodyWrites(s: Store<CacheKey, Cached>, now: int, lib: Library, symbol: string, fetched: Download, t: int)
    ensures var r := DownloadBody(s, now, lib, symbol, fetched);
      && Fetch(r.store, t, Named(SymbolKey)) == (if t < now + Ttl then Some(Symbol(symbol)) else None)
      && (r.result.Some? <==> fetched.Fetched? && !IsEmpty(fetched.frame) && CloseColumn in fetched.frame.columns)
      && (r.result.None? ==> Fetch(r.store, t, PricesKey(symbol)) == Fetch(s, t, PricesKey(symbol)))
      && (r.result.Some? ==> r.result.value == lib.businessDayFill(fetched.frame))
  {
    PricesKeyIsNotSymbolKey(symbol);
  }

  /** A series the body returns is the one left under the symbol's price key, for an hour. */
  lemma DownloadReturnsStoredSeries(s: Store<CacheKey, Cached>, now: int, lib: Library, symbol: string, fetched: Download, t: int)
    requires DownloadBody(s, now, lib, symbol, fetched).result.Some?
    ensures var r := DownloadBody(s, now, lib, symbol, fetched);
      Retrieved(r.store, t, Key(PricesKey(symbol))) == if t < now + Ttl then One(Prices(r.result.value)) else Many([])
  {
    var r := DownloadBody(s, now, lib, symbol, fetched);
    GetSingleKey(r.store, t, PricesKey(symbol));
  }

  /** A stored result is returned without running the body: the data source is not consulted and nothing is written. */
  lemma MemoHitSkipsBody(s: Store<CacheKey, Cached>, now: int, lib: Library, symbol: string, fetched: Download)
    requires PipelineStore(s) && Present(s, now, MemoOf(symbol))
    ensures DownloadMemoized(s, now, lib, symbol, fetched) == Step(MemoResult(s[MemoOf(symbol)].value), s)
  {
  }

  /**
   * Within the hour after a download that ran its body, a repeat download of
   * the same symbol returns the same result, a failure included, and writes nothing.
   */
  lemma RepeatDownloadIsMemoized(s: Store<CacheKey, Cached>, now: int, t: int, lib: Library, symbol: string, first: Download, again: Download)
    requires PipelineStore(s) && !Present(s, now, MemoOf(symbol))
    requires now <= t < now + Ttl
    ensures var r := DownloadMemoized(s, now, lib, symbol, first);
      DownloadMemoized(r.store, t, lib, symbol, again) == r
  {
    var r := DownloadMemoized(s, now, lib, symbol, first);
    assert r.store[MemoOf(symbol)] == Entry(MemoValue(r.result), Some(now + Ttl));
  }

  /**
   * After a successful download of a non-empty symbol that ran its body,
   * `get_data_on_process` returns that series for the rest of the hour.
   */
  lemma DataOnProcessAfterDownload(s: Store<CacheKey, Cached>, now: int, t: int, lib: Library, symbol: string, fetched: Download)
    requires PipelineStore(s) && !Present(s, now, MemoOf(symbol))
    requires symbol != "" && now <= t < now + Ttl
    requires DownloadBody(s, now, lib, symbol, fetched).result.Some?
    ensures var r := DownloadMemoized(s, now, lib, symbol, fetched);
      DataOnProcess(r.store, t) == Some(One(Prices(r.result.value)))
  {
    var body := DownloadBody(s, now, lib, symbol, fetched);
    var r := DownloadMemoized(s, now, lib, symbol, fetched);
    DownloadBodyWrites(s, now, lib, symbol, fetched, t);
    DownloadReturnsStoredSeries(s, now, lib, symbol, fetched, t);
    GetIgnoresOtherWrites(body.store, map[MemoOf(symbol) := MemoValue(body.result)], Some(now + Ttl), t, Key(PricesKey(symbol)));
  }

  /**
   * A download that runs its body stores its result under its own memo key
   * for an hour, marks its symbol for an hour, and leaves every other
   * symbol's memo entry as it was.
   */
  lemma DownloadMemoizedWrites(s: Store<CacheKey, Cached>, now: int, lib: Library, symbol: string, fetched: Download, other: string, t: int)
    requires PipelineStore(s) && !Present(s, now, MemoOf(symbol))
    ensures var r := DownloadMemoized(s, now, lib, symbol, fetched);
      && r.store[MemoOf(symbol)] == Entry(MemoValue(r.result), Some(now + Ttl))
      && Fetch(r.store, t, Named(SymbolKey)) == (if t < now + Ttl then Some(Symbol(symbol)) else None)
      && (other != symbol ==> (MemoOf(other) in r.store <==> MemoOf(other) in s))
      && (other != symbol && MemoOf(other) in s ==> r.store[MemoOf(other)] == s[MemoOf(other)])
  {
    DownloadBodyWrites(s, now, lib, symbol, fetched, t);
  }

  /**
   * A memoized download does not mark its symbol: after downloading `a`,
   * then `b`, then `a` again within the hour, 'symbol_on_process' still names
   * `b`, so `get_data_on_process` serves `b`'s data.
   */
  lemma MemoHitLeavesSymbolStale(s: Store<CacheKey, Cached>, t0: int, t1: int, t2: int, lib: Library, a: string, b: string, fa: Download, fb: Download, fa2: Download)
    requires PipelineStore(s) && a != b
    requires !Present(s, t0, MemoOf(a))
    requires t0 <= t1 <= t2 < t0 + Ttl
    requires !Present(DownloadMemoized(s, t0, lib, a, fa).store, t1, MemoOf(b))
    ensures var s1 := DownloadMemoized(s, t0, lib, a, fa).store;
      var s2 := DownloadMemoized(s1, t1, lib, b, fb).store;
      DownloadMemoized(s2, t2, lib, a, fa2).store == s2 && SymbolOnProcess(s2, t2) == One(Symbol(b))
  {
    var s1 := DownloadMemoized(s, t0, lib, a, fa).store;
    DownloadMemoizedWrites(s, t0, lib, a, fa, b, t1);
    var s2 := DownloadMemoized(s1, t1, lib, b, fb).store;
    DownloadMemoizedWrites(s1, t1, lib, b, fb, a, t2);
    assert Present(s2, t2, MemoOf(a));
    MemoHitSkipsBody(s2, t2, lib, a, fa2);
  }

  // ---------------------------------------------------------------------
  // Properties of the order lookup

  /** A cached order is returned as it is, without searching and without writing, by both versions. */
  lemma AutofitHitSkipsSearch(s: Store<CacheKey, Cached>, now: int, lib: Library, data: PriceSeries, order: Order)
    requires PipelineStore(s)
    requires Fetch(s, now, PdqKey(s, now)) == Some(Pdq(order))
    ensures Autofit(s, now, lib, data) == Search(Ok(One(Pdq(order))), s, false)
    ensures AutofitIntended(s, now, lib, data) == Search(Ok(One(Pdq(order))), s, false)
  {
    GetSingleKey(s, now, PdqKey(s, now));
  }

  /**
   * As written, a miss runs the order search and then raises, because the
   * order is keyed by the empty list the lookup returned: nothing is stored,
   * so the next call searches again.
   */
  lemma AutofitMissRaises(s: Store<CacheKey, Cached>, now: int, lib: Library, data: PriceSeries)
    requires PipelineStore(s)
    requires Fetch(s, now, PdqKey(s, now)).None?
    ensures Autofit(s, now, lib, data) == Search(Raised(UnhashableKey), s, true)
  {
    GetSingleKey(s, now, PdqKey(s, now));
  }

  /** As written, no call ever changes what the 'pdq_<symbol>' key looks up. */
  lemma AutofitNeverStoresUnderPdqKey(s: Store<CacheKey, Cached>, now: int, lib: Library, data: PriceSeries, t: int)
    requires PipelineStore(s)
    ensures Fetch(Autofit(s, now, lib, data).store, t, PdqKey(s, now)) == Fetch(s, t, PdqKey(s, now))
  {
    var cached := Retrieved(s, now, Key(PdqKey(s, now)));
    if cached.One? && cached.item.Symbol? && cached.item.symbol == "" {
      assert PdqKey(s, now).name[0] == 'p';
    }
  }

  /** The case that shows it: symbol 'AAPL' being processed and no order cached. */
  lemma AutofitMissExample(lib: Library, data: PriceSeries)
    ensures var s := map[Named(SymbolKey) := Entry(Some(Symbol("AAPL")), Some(Ttl))];
      Autofit(s, 0, lib, data) == Search(Raised(UnhashableKey), s, true)
  {
    var s := map[Named(SymbolKey) := Entry(Some(Symbol("AAPL")), Some(Ttl))];
    assert PdqKey(s, 0) == Named("pdq_AAPL");
    assert Named("pdq_AAPL") != Named(SymbolKey);
    AutofitMissRaises(s, 0, lib, data);
  }

  /** A cached order is fitted at once, by both versions, and nothing is written. */
  lemma AutocreateHitFitsCachedOrder(s: Store<CacheKey, Cached>, now: int, lib: Library, data: PriceSeries, order: Order)
    requires PipelineStore(s)
    requires Fetch(s, now, PdqKey(s, now)) == Some(Pdq(order))
    ensures Autocreate(s, now, lib, data) == Step(Ok(Fitted(data, order)), s)
    ensures AutocreateIntended(s, now, lib, data) == Step(Ok(Fitted(data, order)), s)
  {
    AutofitHitSkipsSearch(s, now, lib, data, order);
  }

  /**
   * As written, the first model of a symbol is never created: a miss of the
   * order lookup propagates its TypeError and nothing is written.
   */
  lemma AutocreateMissRaises(s: Store<CacheKey, Cached>, now: int, lib: Library, data: PriceSeries)
    requires PipelineStore(s)
    requires Fetch(s, now, PdqKey(s, now)).None?
    ensures Autocreate(s, now, lib, data) == Step(Raised(UnhashableKey), s)
  {
    AutofitMissRaises(s, now, lib, data);
  }

  /**
   * Over the corrected lookup, a miss fits the series with the searched
   * order and caches that order under 'pdq_<symbol>' for the hour.
   */
  lemma AutocreateIntendedFitsOnMiss(s: Store<CacheKey, Cached>, now: int, lib: Library, data: PriceSeries, t: int)
    requires PipelineStore(s)
    requires Fetch(s, now, PdqKey(s, now)).None?
    requires now <= t < now + Ttl
    ensures AutocreateIntended(s, now, lib, data).result == Ok(Fitted(data, lib.autoArima(data)))
    ensures Fetch(AutocreateIntended(s, now, lib, data).store, t, PdqKey(s, now)) == Some(Pdq(lib.autoArima(data)))
  {
    GetSingleKey(s, now, PdqKey(s, now));
  }

  /**
   * As intended, an order found by a search is reused: a later call within
   * the hour, for the same symbol being processed, returns the same order
   * without searching and without writing, whatever series it is given.
   */
  lemma AutofitIntendedReusesOrder(s: Store<CacheKey, Cached>, now: int, t: int, lib: Library, data: PriceSeries, later: PriceSeries)
    requires PipelineStore(s)
    requires now <= t < now + Ttl
    requires SymbolOnProcess(s, t) == SymbolOnProcess(s, now)
    ensures var first := AutofitIntended(s, now, lib, data);
      first.searched ==> AutofitIntended(first.store, t, lib, later) == Search(first.outcome, first.store, false)
  {
    var first := AutofitIntended(s, now, lib, data);
    if first.searched {
      var key := PdqKey(s, now);
      assert key.name[0] == 'p';
      assert key != Named(SymbolKey);
      assert SymbolOnProcess(first.store, t) == SymbolOnProcess(s, t);
      assert PdqKey(first.store, t) == key;
      GetSingleKey(first.store, t, key);
    }
  }

  // ---------------------------------------------------------------------
  // The predictor object

  /** Predictor of src/models/predictor.py. */
  class Predictor {
    const cache: CacheHandler<CacheKey, Cached>
    const lib: Library
    /** `_arima_model`: the last fitted model. */
    var arimaModel: Option<FittedModel>
    /** How many times the order search has run. */
    ghost var searches: nat

    ghost predicate Valid()
      reads this, cache
    {
      PipelineStore(cache.store)
    }

    /** The predictor over a cache directory that an earlier run of the pipeline may have filled. */
    constructor (disk: Store<CacheKey, Cached>, clock: int, lib: Library)
      requires PipelineStore(disk)
      ensures Valid() && fresh(cache) && cache.store == disk && cache.now == clock
      ensures this.lib == lib && arimaModel == None && searches == 0
    {
      cache := new CacheHandler(disk, clock);
      this.lib := lib;
      arimaModel := None;
      searches := 0;
    }

    /** `_preprocess_data`: reads the symbol being processed (for its error message), then checks for a Close column. */
    method PreprocessData(frame: Frame) returns (r: Option<PriceSeries>)
      ensures r == Preprocessed(lib, frame)
    {
      var _ := cache.Get(Key(Named(SymbolKey)));
      if CloseColumn !in frame.columns {
        return None;
      }
      r := Some(lib.businessDayFill(frame));
    }

    /** The undecorated body of `download_stock_closing_data`. */
    method DownloadUncached(symbol: string, fetched: Download) returns (r: Option<PriceSeries>)
      requires Valid()
      modifies cache
      ensures Valid() && cache.now == old(cache.now)
      ensures Step(r, cache.store) == DownloadBody(old(cache.store), cache.now, lib, symbol, fetched)
    {
      PricesKeyIsNotSymbolKey(symbol);
      cache.InsertTmp(map[Named(SymbolKey) := Some(Symbol(symbol))], Ttl);
      if fetched.FetchFailed? {
        return None;
      }
      var frame := fetched.frame;
      if IsEmpty(frame) {
        return None;
      }
      var prices := PreprocessData(frame);
      if prices.None? {
        return None;
      }
      cache.InsertTmp(map[PricesKey(symbol) := Some(Prices(prices.value))], Ttl);
      r := prices;
    }

    /** `download_stock_closing_data` as memoize wraps it, with `fetched` the data source's answer should it be asked. */
    method DownloadStockClosingData(symbol: string, fetched: Download) returns (r: Option<PriceSeries>)
      requires Valid()
      modifies cache
      ensures Valid() && cache.now == old(cache.now)
      ensures Step(r, cache.store) == DownloadMemoized(old(cache.store), cache.now, lib, symbol, fetched)
    {
      var hit := cache.MemoLookup(MemoOf(symbol));
      if hit.Some? {
        return MemoResult(hit.value);
      }
      r := DownloadUncached(symbol, fetched);
      cache.InsertTmp(map[MemoOf(symbol) := MemoValue(r)], Ttl);
    }

    /** `autofit_ARIMA` as written. */
    method AutofitArima(data: PriceSeries) returns (r: Outcome<Got<Cached>>)
      requires Valid()
      modifies this, cache
      ensures Valid() && cache.now == old(cache.now) && arimaModel == old(arimaModel)
      ensures var search := Autofit(old(cache.store), cache.now, lib, data);
        && r == search.outcome && cache.store == search.store
        && searches == old(searches) + (if search.searched then 1 else 0)
    {
      var symbol := cache.Get(Key(Named(SymbolKey)));
      var cached := cache.Get(Key(Named(PdqPrefix + Text(symbol))));
      var truth := Truth(cached);
      if truth.Raised? {
        return Raised(truth.error);
      }
      if truth.value {
        return Ok(cached);
      }
      var order := lib.autoArima(data);
      searches := searches + 1;
      if cached.One? && cached.item.Symbol? {
        // a falsy string is hashable: the order lands under that string
        cache.InsertTmp(map[Named(cached.item.symbol) := Some(Pdq(order))], Ttl);
        return Ok(One(Pdq(order)));
      }
      // the empty list of a miss is not
      return Raised(UnhashableKey);
    }

    /** `autofit_ARIMA` as evidently intended: a searched order is stored under 'pdq_<symbol>'. */
    method AutofitArimaIntended(data: PriceSeries) returns (r: Outcome<Got<Cached>>)
      requires Valid()
      modifies this, cache
      ensures Valid() && cache.now == old(cache.now) && arimaModel == old(arimaModel)
      ensures var search := AutofitIntended(old(cache.store), cache.now, lib, data);
        && r == search.outcome && cache.store == search.store
        && searches == old(searches) + (if search.searched then 1 else 0)
    {
      var symbol := cache.Get(Key(Named(SymbolKey)));
      var key := Named(PdqPrefix + Text(symbol));
      var cached := cache.Get(Key(key));
      var truth := Truth(cached);
      if truth.Raised? {
        return Raised(truth.error);
      }
      if truth.value {
        return Ok(cached);
      }
      var order := lib.autoArima(data);
      searches := searches + 1;
      assert key.name[0] == 'p';
      cache.InsertTmp(map[key := Some(Pdq(order))], Ttl);
      return Ok(One(Pdq(order)));
    }

    /** `create_ARIMA_model`: fits the series and keeps the model. */
    method CreateArimaModel(data: PriceSeries, order: Got<Cached>) returns (r: Outcome<FittedModel>)
      modifies this
      ensures r == Fit(data, order)
      ensures arimaModel == if r.Ok? then Some(r.value) else old(arimaModel)
      ensures searches == old(searches)
    {
      r := Fit(data, order);
      if r.Ok? {
        arimaModel := Some(r.value);
      }
    }

    /** `autocreate_ARIMA_model`: chooses the order with the as-written lookup, then fits and keeps the model. */
    method AutocreateArimaModel(data: PriceSeries) returns (r: Outcome<FittedModel>)
      requires Valid()
      modifies this, cache
      ensures Valid() && cache.now == old(cache.now)
      ensures var step := Autocreate(old(cache.store), cache.now, lib, data);
        r == step.result && cache.store == step.store
      ensures arimaModel == if r.Ok? then Some(r.value) else old(arimaModel)
      ensures searches == old(searches) + (if Autofit(old(cache.store), cache.now, lib, data).searched then 1 else 0)
    {
      var order := AutofitArima(data);
      if order.Raised? {
        return Raised(order.error);
      }
      r := CreateArimaModel(data, order.value);
    }

    /** `automake_forecast`: `make_forecast` over the model `autocreate_ARIMA_model` fits. */
    method AutomakeForecast(data: PriceSeries, years: int) returns (r: Outcome<PriceSeries>)
      requires Valid()
      modifies this, cache
      ensures Valid() && cache.now == old(cache.now)
      ensures var step := Autocreate(old(cache.store), cache.now, lib, data);
        && cache.store == step.store
        && r == (if step.result.Ok? then Ok(MakeForecast(lib, step.result.value, years)) else Raised(step.result.error))
        && arimaModel == (if step.result.Ok? then Some(step.result.value) else old(arimaModel))
      ensures searches == old(searches) + (if Autofit(old(cache.store), cache.now, lib, data).searched then 1 else 0)
    {
      var model := AutocreateArimaModel(data);
      if model.Raised? {
        return Raised(model.error);
      }
      r := Ok(MakeForecast(lib, model.value, years));
    }

    /** `clear_cache`. */
    method ClearCache()
      requires Valid()
      modifies cache
      ensures Valid() && cache.store == map[] && cache.now == old(cache.now)
    {
      cache.Clear();
    }
  }
}
