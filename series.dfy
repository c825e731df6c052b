/** The transform from the provider's daily records to the series the
    charts draw: one point per date key, in the order the keys are
    enumerated, each field of the record parsed into a number. */
module Series {

  import opened Decimal
  import opened JsConversions

  /** One day of the provider's `'Time Series (Daily)'` mapping: the string
      fields `"1. open"`, `"2. high"`, `"3. low"`, `"4. close"`, `"5. volume"`. */
  datatype RawRecord = RawRecord(open: string, high: string, low: string, close: string, volume: string)

  /** (date, record) pairs in order; the transform is defined on any run of them. */
  type DatedRecords = seq<(string, RawRecord)>

  /** No date occurs twice: the dates are the keys of a JSON object. */
  predicate DistinctDates(s: DatedRecords) {
    forall i, j :: 0 <= i < j < |s| ==> s[i].0 != s[j].0
  }

  /** The daily mapping, as its (date, record) pairs in key enumeration order. */
  type TimeSeries = s: DatedRecords | DistinctDates(s) witness []

  /** A normalised point. `F` is the type of the numbers the host's
      `parseFloat` returns. */
  datatype Point<F> = Point(date: string, open: F, high: F, low: F, close: F, volume: IntValue)

  /** The point for one date: `{ date, open: parseFloat(...), ..., volume: parseInt(..., 10) }`. */
  function ToPoint<F>(date: string, rec: RawRecord, parseFloat: string -> F): (point: Point<F>) {
    Point(date, parseFloat(rec.open), parseFloat(rec.high), parseFloat(rec.low),
          parseFloat(rec.close), ParseInt(rec.volume))
  }

  /** `Object.keys(timeSeries).map(date => ...)`: one point per date. */
  function Transform<F>(raw: DatedRecords, parseFloat: string -> F): (points: seq<Point<F>>)
    ensures |points| == |raw|
  {
    if raw == [] then [] else [ToPoint(raw[0].0, raw[0].1, parseFloat)] + Transform(raw[1..], parseFloat)
  }

  /** The i-th point is built from the i-th date and its record alone: its
      date is the key, its prices are `parseFloat` of the record's price
      texts and its volume is `parseInt` of the volume text. */
  lemma {:induction false} TransformAt<F>(raw: DatedRecords, parseFloat: string -> F, i: nat)
    requires i < |raw|
    ensures Transform(raw, parseFloat)[i] == ToPoint(raw[i].0, raw[i].1, parseFloat)
    ensures Transform(raw, parseFloat)[i].date == raw[i].0
    ensures Transform(raw, parseFloat)[i].volume == ParseInt(raw[i].1.volume)
  {
    if i > 0 {
      TransformAt(raw[1..], parseFloat, i - 1);
    }
  }

  /** The dates of a series, in order. */
  function Dates<F>(points: seq<Point<F>>): (dates: seq<string>)
    ensures |dates| == |points|
    ensures forall i :: 0 <= i < |points| ==> dates[i] == points[i].date
  {
    if points == [] then [] else [points[0].date] + Dates(points[1..])
  }

  /** The keys of a time-series mapping, in enumeration order. */
  function Keys(raw: DatedRecords): (keys: seq<string>)
    ensures |keys| == |raw|
    ensures forall i :: 0 <= i < |raw| ==> keys[i] == raw[i].0
  {
    if raw == [] then [] else [raw[0].0] + Keys(raw[1..])
  }

  /** The transform never drops, adds or reorders a date: the dates of the
      series are exactly the keys of the mapping. */
  lemma TransformKeepsDates<F>(raw: DatedRecords, parseFloat: string -> F)
    ensures Dates(Transform(raw, parseFloat)) == Keys(raw)
  {
    var dates := Dates(Transform(raw, parseFloat));
    forall i | 0 <= i < |raw| ensures dates[i] == Keys(raw)[i] {
      TransformAt(raw, parseFloat, i);
    }
  }

  /** The series of a daily mapping never has two points for the same date. */
  lemma TransformKeepsDistinctDates<F>(raw: TimeSeries, parseFloat: string -> F)
    ensures forall i, j :: 0 <= i < j < |raw| ==>
              Transform(raw, parseFloat)[i].date != Transform(raw, parseFloat)[j].date
  {
    forall i, j | 0 <= i < j < |raw|
      ensures Transform(raw, parseFloat)[i].date != Transform(raw, parseFloat)[j].date
    {
      TransformAt(raw, parseFloat, i);
      TransformAt(raw, parseFloat, j);
    }
  }

  /** Transforming two consecutive runs of the mapping separately and joining
      the results is transforming the whole mapping: each point depends only
      on its own date's record. */
  lemma {:induction false} TransformConcat<F>(a: DatedRecords, b: DatedRecords, parseFloat: string -> F)
    ensures Transform(a + b, parseFloat) == Transform(a, parseFloat) + Transform(b, parseFloat)
  {
    if a == [] {
      assert a + b == b;
    } else {
      var head := [ToPoint(a[0].0, a[0].1, parseFloat)];
      calc {
        Transform(a + b, parseFloat);
        { assert (a + b)[0] == a[0]; assert (a + b)[1..] == a[1..] + b; }
        head + Transform(a[1..] + b, parseFloat);
        { TransformConcat(a[1..], b, parseFloat); }
        head + (Transform(a[1..], parseFloat) + Transform(b, parseFloat));
        (head + Transform(a[1..], parseFloat)) + Transform(b, parseFloat);
      }
    }
  }

  /** A record whose volume is the decimal text of a count gets that count as
      its volume, and its prices are whatever `parseFloat` makes of the text. */
  lemma OneDayExample<F>(parseFloat: string -> F)
    ensures Transform([("2024-01-01", RawRecord("100.0", "101", "99", "100.5", "1000"))], parseFloat)
            == [Point("2024-01-01", parseFloat("100.0"), parseFloat("101"), parseFloat("99"),
                      parseFloat("100.5"), Num(1000))]
  {
    var volume := "1000";
    assert DigitsValue(volume) == 1000 by {
      assert "1"[..0] == [] && DigitsValue("1") == 1;
      assert "10"[..1] == "1" && DigitsValue("10") == 10;
      assert "100"[..2] == "10" && DigitsValue("100") == 100;
      assert volume[..3] == "100";
    }
    ParseIntOfDigits(volume);
    var raw := [("2024-01-01", RawRecord("100.0", "101", "99", "100.5", volume))];
    assert Transform(raw, parseFloat) == [ToPoint(raw[0].0, raw[0].1, parseFloat)] + Transform([], parseFloat);
  }

}
