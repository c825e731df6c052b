# Stock visualizer: the data-load cycle

This project models the `StockVisualizer` React component of the stock
visualizer in Dafny. The component keeps five pieces of state: the series it
charts (`stockData`), `loading`, `error`, and the selected `symbol` and
`inputSymbol`. Each time the symbol changes, it runs `fetchStockData`. That
routine builds a cache key from the symbol and the current one-month window,
then does one of two things:

- it serves a fresh series from `localStorage`; or
- it takes the provider's response, turns the daily records into chart
  points, stores them with a timestamp, and sets the error state on failure.

The render guard shows the loading text, the error text or the charts.

Modules, leaves first:

- `Optional`: the `Option` datatype (JavaScript `null`, an absent entry).
- `Decimal`: the decimal text of a whole number, and the value of a digit
  string.
- `JsConversions`: `parseInt(text, 10)` and the `Number(text)` coercion of the
  stored timestamp.
- `CacheKeys`: the data key `stockData-<symbol>-<from>-<to>`, the timestamp key
  (the data key plus `-timestamp`), the dropdown's symbol list, and a parser
  that recovers the triple from a data key.
- `Series`: the provider's records, the normalised points, and the transform.
- `Cache`: stored entries, the truthiness and freshness guard
  (`CACHE_EXPIRY_TIME = 86400`, strict `<`), the two writes of a successful
  load, and the coherence invariant those writes keep.
- `Visualizer`: the component as a class. It has the state initialisers, the
  load cycle (`LoadCycle`), the dropdown handler (`SelectSymbol`) and the
  render guard (`Render`).

What the proofs establish:

- Data keys are injective in (symbol, from, to) for every symbol, not only
  the fourteen in the dropdown. The two timestamps are digit strings with no
  `-`, so a key can be read from the right.
- No data key is a timestamp key: a data key ends in a digit, a timestamp key
  in `p`.
- Every data key in the store has its timestamp entry, holding the `toDate`
  written in that key. The key embeds the current second and the stored
  timestamp is that same second. So every hit has age 0, the expiry test never
  rejects an entry this component wrote, and a lookup hits exactly when the
  data key is present. A cycle one second later builds a different key and
  misses.
- A cache hit sets the series from the cache and clears `loading`. It leaves
  `error` and the cache as they were and does not use the network outcome.
- Only a body with the `'Time Series (Daily)'` mapping changes the series and
  the cache, and it clears `error`. An empty mapping counts, because `{}` is
  truthy. The cache gains exactly the data and timestamp entries.
- A failed cycle sets `error` and leaves the series and the cache as they were.
  This covers a response that is not ok, a body without the mapping, and a
  thrown error (an empty message becomes the generic text). `error` is never
  the empty string, so the guard shows an error exactly when one is set.
- The transform gives one point per date, in key order. Each point has its
  date, the host's `parseFloat` of each price, and `parseInt` of the volume.
  The mapping's dates are distinct (a `TimeSeries` is a sequence of pairs
  whose dates differ), and so are the dates of the series.

Three behaviours of the code that the model keeps, which a reader might not
expect:

- Selecting a symbol does not set `loading` back to true
  (src/stockvisualizer.js:85-89).
- No request is ever cancelled. The abort function is the return value of the
  async routine, which the effect discards (src/stockvisualizer.js:79, 82).
- A cache hit does not clear an earlier error (src/stockvisualizer.js:40-42).

## Model

| member | source | states |
|---|---|---|
| `Decimal.NatToString` | src/stockvisualizer.js:31 | a timestamp's text in the key is a non-empty digit string with no leading zero except for 0 |
| `Decimal.NatToStringRoundTrip` | src/stockvisualizer.js:67 | the decimal text written for a timestamp denotes that timestamp |
| `Decimal.NatToStringInjective` | src/stockvisualizer.js:31 | distinct timestamps give distinct texts in the key |
| `JsConversions.ParseInt` | src/stockvisualizer.js:60 | definition of `parseInt(text, 10)`; its properties are in `JsConversions.ParseIntOfDigits` and `JsConversions.ParseIntReadsLeadingNumber` |
| `JsConversions.ParseIntOfDigits` | src/stockvisualizer.js:60 | `parseInt` of a non-empty digit string is the number it denotes |
| `JsConversions.ParseIntReadsLeadingNumber` | src/stockvisualizer.js:60 | `parseInt` reads a number's text and stops at the first non-digit after it |
| `JsConversions.ToNumber` | src/stockvisualizer.js:38 | the stored timestamp text is read as a number exactly when it is a non-empty digit string |
| `JsConversions.ToNumberOfNatString` | src/stockvisualizer.js:38 | the stored timestamp text coerces back to the timestamp that was written |
| `CacheKeys.DataKey` | src/stockvisualizer.js:31 | definition of the data key; its properties are in `CacheKeys.ParseDataKeyRoundTrip` and `CacheKeys.DataKeyInjective` |
| `CacheKeys.StampKey` | src/stockvisualizer.js:32 | definition of the timestamp key; its properties are in `CacheKeys.StampKeyInjective` and `CacheKeys.DataKeyIsNotStampKey` |
| `CacheKeys.ParseDataKeyRoundTrip` | src/stockvisualizer.js:31 | every data key parses back into the symbol, from and to it was built from |
| `CacheKeys.DataKeyInjective` | src/stockvisualizer.js:31 | distinct (symbol, from, to) triples give distinct data keys |
| `CacheKeys.DataKeyIsNotStampKey` | src/stockvisualizer.js:31-32 | no data key equals any timestamp key |
| `CacheKeys.StampKeyInjective` | src/stockvisualizer.js:32 | distinct data keys have distinct timestamp keys |
| `Series.ToPoint` | src/stockvisualizer.js:55-60 | definition of one point; its properties are in `Series.TransformAt` and `Series.OneDayExample` |
| `Series.Transform` | src/stockvisualizer.js:54 | one point per date key: the series has exactly as many points as the mapping has keys |
| `Series.TransformAt` | src/stockvisualizer.js:54-61 | the i-th point is built from the i-th date and its record alone: its date is the key, its prices the `parseFloat` of the price texts, its volume `parseInt` of the volume text |
| `Series.TransformKeepsDates` | src/stockvisualizer.js:54-55 | the dates of the series are exactly the keys of the mapping, in order |
| `Series.TransformKeepsDistinctDates` | src/stockvisualizer.js:53-55 | the keys of the daily mapping are distinct, so the series never has two points for one date |
| `Series.TransformConcat` | src/stockvisualizer.js:54-61 | each point depends only on its own date's record: the transform distributes over concatenation |
| `Series.OneDayExample` | src/stockvisualizer.js:54-61 | the record dated 2024-01-01 with volume "1000" becomes one point with that date and volume 1000 |
| `Cache.IsFresh` | src/stockvisualizer.js:38 | definition of the expiry test `toDate - stored < 86400`; its properties are in `Cache.StampFreshness` |
| `Cache.StampIsFresh` | src/stockvisualizer.js:36-38 | definition of the timestamp guard (truthy, read as a number, not expired); its properties are in `Cache.StampFreshness` |
| `Cache.CacheHit` | src/stockvisualizer.js:35-38 | definition of the cache guard; its properties are in `Cache.HitIffStored` and `Cache.WrittenServesSeries` |
| `Cache.Coherent` | src/stockvisualizer.js:66-67 | definition of what the two writes leave in the store; its preservation is `Cache.WrittenKeepsCoherent` |
| `Cache.Written` | src/stockvisualizer.js:66-67 | a successful load adds exactly the data and timestamp keys and changes no other key |
| `Cache.WrittenKeepsCoherent` | src/stockvisualizer.js:66-67 | after the two writes every data key still has its timestamp key holding the key's `toDate` |
| `Cache.HitIffStored` | src/stockvisualizer.js:35-38 | in a coherent store a lookup hits exactly when the data key is present, and its timestamp is the current `toDate` (age 0) |
| `Cache.WrittenServesSeries` | src/stockvisualizer.js:35-40 | what a successful load stores passes the cache guard at the same key and time, and holds the same series |
| `Cache.StampFreshness` | src/stockvisualizer.js:38 | a stored timestamp is fresh exactly when the current time is less than 86400 s after it |
| `Visualizer.ErrorText` | src/stockvisualizer.js:74 | the error shown is the thrown message, or the generic text when the message is empty; never empty |
| `Visualizer.StockVisualizer.constructor` | src/stockvisualizer.js:7-11 | initial state: empty series, loading, no error, both symbols `MSFT` |
| `Visualizer.StockVisualizer.SelectSymbol` | src/stockvisualizer.js:85-89 | both symbol fields take the selected value; loading, error and series unchanged |
| `Visualizer.StockVisualizer.LoadCycle` | src/stockvisualizer.js:23-80 | hit iff the guard holds iff the key is stored; the new state in each of hit, success, not-ok, missing mapping and thrown; loading always false; coherence kept |
| `Visualizer.StockVisualizer.Render` | src/stockvisualizer.js:91-92 | definition of the render guard; its properties are in `Visualizer.RenderReflectsState` |
| `Visualizer.RenderReflectsState` | src/stockvisualizer.js:91-92 | the view is Loading iff loading, an error (showing the error's own text) iff loaded with an error set, the charts iff loaded with no error |
| `Visualizer.ReloadServesStoredSeries` | src/stockvisualizer.js:31-68 | after a successful load, a second cycle at the same key and time is served from the cache and ignores its network outcome |

## Left out

- The request itself is not modelled: `fetch`, `response.json()`, the provider URL and the API key (src/stockvisualizer.js:24, 45-50) are network I/O. A cycle takes a `FetchOutcome` in their place: not ok, a body with or without the mapping, or a thrown message. A `null` body or a non-Error throw is covered by `Thrown` with its message.
- `localStorage` is an in-memory map field, `cache`. The constructor takes what earlier sessions left there. The store is assumed to hold only what this component wrote under its own keys (`Coherent`). So a data entry under one of its keys is always a serialised series, and `JSON.parse` of foreign text never arises.
- A `setItem` that throws (storage quota) is not modelled. Both writes always succeed.
- JSON serialisation is abstract. `Entry.SeriesText(points)` stands for the JSON text of a series and parses back to the same points. Losing a NaN price as `null` is a floating-point artefact.
- `parseFloat` is a parameter of the component (`parseFloat: string -> F`), not a model of float parsing.
- `JsConversions.ParseInt` does not give `-0` for "-0", and it does not round values above 2^53 the way a JavaScript number does.
- `JsConversions.ToNumber` reads only non-empty digit strings; any other text counts as NaN. JavaScript's `Number` also accepts white space, a sign, fractions, exponents and hex. This matters only for entries this component did not write.
- Each record's five fields are assumed present. `parseFloat(undefined)` on a missing field is not modelled. Neither is a `'Time Series (Daily)'` value that is a truthy non-object.
- Timestamps are natural numbers, taken as inputs. The `Date`/`setMonth` arithmetic that derives the window (src/stockvisualizer.js:25-29) is calendar semantics.
- `AbortController` and out-of-order completion of overlapping cycles are not modelled (src/stockvisualizer.js:46, 79). Each cycle runs atomically. The abort is never triggered in the code anyway.
- `console.error` is not modelled (src/stockvisualizer.js:73); it is logging only.
- The JSX and recharts rendering (src/stockvisualizer.js:94-138) and src/App.js are presentation. `Render` stops at the choice between the loading text, the error text and the charts.
