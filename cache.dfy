/** The component's use of `localStorage`: what a lookup finds, when it
    counts as a usable (fresh) hit, what a successful load writes, and the
    coherence the writes keep between data and timestamp entries. */
module Cache {

  import opened Optional
  import opened Decimal
  import opened JsConversions
  import opened CacheKeys
  import opened Series

  /** Seconds a cached series stays usable (one day). */
  const CacheExpiryTime: int := 86400

  /** A stored string. `SeriesText(points)` stands for the JSON text of a
      series, which parses back to the same points; `Text(s)` is any other
      string, such as the decimal text of a timestamp. */
  datatype Entry<F> = SeriesText(points: seq<Point<F>>) | Text(text: string)

  type Store<F> = map<string, Entry<F>>

  /** Whether the string read from the store is truthy: the JSON text of a
      series is never empty; other text is truthy when it is not empty. */
  predicate Truthy<F>(e: Entry<F>) {
    e.SeriesText? || e.text != ""
  }

  /** The freshness test: strictly less than a day between the stored
      timestamp and the current one. */
  predicate IsFresh(toDate: int, storedAt: int) {
    toDate - storedAt < CacheExpiryTime
  }

  /** `toDate - cachedTimestamp < CACHE_EXPIRY_TIME` with the stored text
      coerced to a number; a text that is not a number makes the comparison false. */
  predicate StampIsFresh<F>(stamp: Entry<F>, toDate: nat) {
    match stamp
    case SeriesText(_) => false
    case Text(s) =>
      match ToNumber(s)
      case None => false
      case Some(storedAt) => IsFresh(toDate, storedAt)
  }

  /** The guard of the early return: both entries present and truthy, and
      the stored timestamp fresh. */
  predicate CacheHit<F>(store: Store<F>, key: string, toDate: nat) {
    && key in store && Truthy(store[key])
    && StampKey(key) in store && Truthy(store[StampKey(key)])
    && StampIsFresh(store[StampKey(key)], toDate)
  }

  /** The two `setItem` calls of a successful load: the serialised series
      under the data key, then the decimal text of `toDate` under the
      timestamp key. */
  function Written<F>(store: Store<F>, key: string, points: seq<Point<F>>, toDate: nat): (w: Store<F>)
    ensures w.Keys == store.Keys + {key, StampKey(key)}
    ensures forall k :: k in store && k != key && k != StampKey(key) ==> w[k] == store[k]
  {
    store[key := SeriesText(points)][StampKey(key) := Text(NatToString(toDate))]
  }

  /** Data and timestamp entries were written together: under every data
      key there is a series, and its timestamp key holds the `toDate`
      embedded in that data key. */
  ghost predicate Coherent<F>(store: Store<F>) {
    forall symbol, fromDate: nat, toDate: nat ::
      DataKey(symbol, fromDate, toDate) in store ==>
        && store[DataKey(symbol, fromDate, toDate)].SeriesText?
        && StampKey(DataKey(symbol, fromDate, toDate)) in store
        && store[StampKey(DataKey(symbol, fromDate, toDate))] == Text(NatToString(toDate))
  }

  /** A successful load keeps the store coherent, whatever else the store holds. */
  lemma WrittenKeepsCoherent<F>(store: Store<F>, symbol: string, fromDate: nat, toDate: nat, points: seq<Point<F>>)
    requires Coherent(store)
    ensures Coherent(Written(store, DataKey(symbol, fromDate, toDate), points, toDate))
  {
    var key := DataKey(symbol, fromDate, toDate);
    var w := Written(store, key, points, toDate);
    forall s, f: nat, t: nat | DataKey(s, f, t) in w
      ensures && w[DataKey(s, f, t)].SeriesText?
              && StampKey(DataKey(s, f, t)) in w
              && w[StampKey(DataKey(s, f, t))] == Text(NatToString(t))
    {
      var k := DataKey(s, f, t);
      DataKeyIsNotStampKey(s, f, t, key);
      if k == key {
        DataKeyInjective(s, f, t, symbol, fromDate, toDate);
      } else {
        DataKeyIsNotStampKey(symbol, fromDate, toDate, k);
        StampKeyInjective(k, key);
      }
    }
  }

  /** In a coherent store the timestamp of every cached series is the
      `toDate` in its key, so its age is 0 and the freshness test passes:
      a lookup hits exactly when the data key is present. */
  lemma HitIffStored<F>(store: Store<F>, symbol: string, fromDate: nat, toDate: nat)
    requires Coherent(store)
    ensures CacheHit(store, DataKey(symbol, fromDate, toDate), toDate) <==>
            DataKey(symbol, fromDate, toDate) in store
    ensures DataKey(symbol, fromDate, toDate) in store ==>
            store[StampKey(DataKey(symbol, fromDate, toDate))] == Text(NatToString(toDate))
  {
    ToNumberOfNatString(toDate);
  }

  /** What a successful load stores is served by a later lookup with the same
      key and the same current time, and it is the same series. */
  lemma WrittenServesSeries<F>(store: Store<F>, key: string, points: seq<Point<F>>, toDate: nat)
    ensures CacheHit(Written(store, key, points, toDate), key, toDate)
    ensures Written(store, key, points, toDate)[key] == SeriesText(points)
  {
    var w := Written(store, key, points, toDate);
    assert key != StampKey(key) by {
      assert |StampKey(key)| > |key|;
    }
    ToNumberOfNatString(toDate);
  }

  /** The stored timestamp is read as fresh exactly when it is less than a
      day older than the current time (a timestamp in the future is fresh too). */
  lemma StampFreshness<F>(storedAt: nat, toDate: nat)
    ensures StampIsFresh<F>(Text(NatToString(storedAt)), toDate) <==> toDate < storedAt + 86400
  {
    ToNumberOfNatString(storedAt);
  }

}
