/** The `StockVisualizer` component: its state, the data-load cycle the
    effect runs for the selected symbol, the dropdown handler and the guard
    that chooses between the loading text, the error text and the charts. */
module Visualizer {

  import opened Optional
  import opened Decimal
  import opened CacheKeys
  import opened Series
  import opened Cache

  const FetchFailedMessage: string := "Failed to fetch data from Alpha Vantage"
  const NoDataMessage: string := "No valid data returned from the API"
  const UnknownErrorMessage: string := "An unknown error occurred while fetching data."

  /** What the network step of a cycle produced, in place of the request:
      a response that is not ok, a parsed body (with or without its
      `'Time Series (Daily)'` mapping), or an error thrown with a message. */
  datatype FetchOutcome = NotOk | Body(timeSeries: Option<TimeSeries>) | Thrown(message: string)

  /** What the component renders. */
  datatype View<F> = LoadingView | ErrorView(message: string) | ChartsView(symbol: string, series: seq<Point<F>>)

  /** `err.message || 'An unknown error occurred while fetching data.'` */
  function ErrorText(message: string): (text: string)
    ensures text != ""
    ensures message != "" ==> text == message
    ensures message == "" ==> text == UnknownErrorMessage
  {
    if message != "" then message else UnknownErrorMessage
  }

  class StockVisualizer<F> {
    var stockData: seq<Point<F>>
    var loading: bool
    var error: Option<string>
    var symbol: string
    var inputSymbol: string
    /** The browser's `localStorage`, as far as this component reads and writes it. */
    var cache: Store<F>
    /** The host's `parseFloat`. */
    const parseFloat: string -> F

    ghost predicate Valid()
      reads this
    {
      && Coherent(cache)
      && error != Some("")
      && symbol == inputSymbol
    }

    /** The state initialisers; `store` is what earlier sessions left in `localStorage`. */
    constructor (store: Store<F>, parseFloat: string -> F)
      requires Coherent(store)
      ensures Valid()
      ensures stockData == [] && loading && error == None
      ensures symbol == DefaultSymbol && inputSymbol == DefaultSymbol
      ensures cache == store && this.parseFloat == parseFloat
    {
      stockData := [];
      loading := true;
      error := None;
      symbol := DefaultSymbol;
      inputSymbol := DefaultSymbol;
      cache := store;
      this.parseFloat := parseFloat;
    }

    /** `handleSymbolChange`: both symbol fields take the selected value;
        `loading`, `error`, the series and the cache keep theirs. */
    method SelectSymbol(selected: string)
      requires Valid()
      modifies this`symbol, this`inputSymbol
      ensures Valid()
      ensures symbol == selected && inputSymbol == selected
      ensures loading == old(loading) && error == old(error) && stockData == old(stockData)
    {
      inputSymbol := selected;
      symbol := selected;
    }

    /** One run of `fetchStockData` for the current symbol, with the window
        [fromDate, toDate] in Unix seconds. `fetched` tells whether the
        network outcome was used (false when the cache served the series). */
    method LoadCycle(fromDate: nat, toDate: nat, outcome: FetchOutcome) returns (fetched: bool)
      requires Valid()
      modifies this`stockData, this`loading, this`error, this`cache
      ensures Valid()
      ensures !loading
      ensures fetched <==> !CacheHit(old(cache), DataKey(symbol, fromDate, toDate), toDate)
      ensures fetched <==> DataKey(symbol, fromDate, toDate) !in old(cache)
      // served from the cache: the stored series, error and cache untouched
      ensures !fetched ==>
                && old(cache)[DataKey(symbol, fromDate, toDate)].SeriesText?
                && stockData == old(cache)[DataKey(symbol, fromDate, toDate)].points
                && error == old(error) && cache == old(cache)
      // the body has the daily mapping: new series, both entries written, error cleared
      ensures fetched && outcome.Body? && outcome.timeSeries.Some? ==>
                && stockData == Transform(outcome.timeSeries.value, parseFloat)
                && cache == Written(old(cache), DataKey(symbol, fromDate, toDate), stockData, toDate)
                && error == None
      // every failure: an error message, series and cache untouched
      ensures fetched && !(outcome.Body? && outcome.timeSeries.Some?) ==>
                stockData == old(stockData) && cache == old(cache)
      ensures fetched && outcome == NotOk ==> error == Some(FetchFailedMessage)
      ensures fetched && outcome == Body(None) ==> error == Some(NoDataMessage)
      ensures fetched && outcome.Thrown? ==> error == Some(ErrorText(outcome.message))
    {
      var cacheKey := DataKey(symbol, fromDate, toDate);
      var cacheTimestampKey := StampKey(cacheKey);
      HitIffStored(cache, symbol, fromDate, toDate);

      if CacheHit(cache, cacheKey, toDate) {
        match cache[cacheKey] {
          case SeriesText(points) =>
            stockData := points;
          case Text(_) =>
            assert false;
        }
        loading := false;
        return false;
      }

      fetched := true;
      var thrown: Option<string> := None;
      match outcome {
        case NotOk =>
          thrown := Some(FetchFailedMessage);
        case Body(None) =>
          thrown := Some(NoDataMessage);
        case Body(Some(timeSeries)) =>
          var formattedData := Transform(timeSeries, parseFloat);
          stockData := formattedData;
          WrittenKeepsCoherent(cache, symbol, fromDate, toDate, formattedData);
          cache := cache[cacheKey := SeriesText(formattedData)];
          cache := cache[cacheTimestampKey := Text(NatToString(toDate))];
          error := None;
        case Thrown(message) =>
          thrown := Some(message);
      }

      if thrown.Some? {
        error := Some(ErrorText(thrown.value));
      }
      loading := false;
    }

    /** The render guard: the loading text while `loading`, otherwise the
        error text if `error` is truthy, otherwise the charts. */
    function Render(): (view: View<F>)
      reads this
    {
      if loading then LoadingView
      else if error.Some? && error.value != "" then ErrorView(error.value)
      else ChartsView(symbol, stockData)
    }
  }

  /** In a valid state the view shows an error exactly when loading has
      finished and an error is set, and the charts exactly when loading has
      finished without an error. */
  lemma RenderReflectsState<F>(v: StockVisualizer<F>)
    requires v.Valid()
    ensures v.Render() == LoadingView <==> v.loading
    ensures v.Render().ErrorView? <==> !v.loading && v.error.Some?
    ensures v.Render() == ChartsView(v.symbol, v.stockData) <==> !v.loading && v.error == None
    ensures !v.loading && v.error.Some? ==> v.Render() == ErrorView(v.error.value)
  {
  }

  /** Two cycles in the same second for the same symbol: when the first one
      loads a body with the daily mapping, the second is served from the
      cache with the same series and never uses its network outcome. */
  method ReloadServesStoredSeries<F>(v: StockVisualizer<F>, fromDate: nat, toDate: nat,
                                     timeSeries: TimeSeries, later: FetchOutcome)
    returns (first: bool, second: bool)
    requires v.Valid()
    modifies v
    ensures v.Valid() && !second
    ensures first ==> v.stockData == Transform(timeSeries, v.parseFloat) && v.error == None
    ensures v.Render().ChartsView? || v.Render().ErrorView?
  {
    first := v.LoadCycle(fromDate, toDate, Body(Some(timeSeries)));
    second := v.LoadCycle(fromDate, toDate, later);
  }

}
