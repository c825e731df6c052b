/** The `localStorage` keys under which a load cycle caches a series: the
    data key `stockData-<symbol>-<from>-<to>` and the timestamp key, which is
    the data key followed by `-timestamp`. */
module CacheKeys {

  import opened Optional
  import opened Decimal

  const DataKeyPrefix: string := "stockData-"
  const StampKeySuffix: string := "-timestamp"

  /** The symbols the dropdown offers; the first is the default. It only records
      the list: the key lemmas below hold for every symbol. */
  const StockSymbols: seq<string> :=
    ["MSFT", "AAPL", "GOOGL", "AMZN", "TSLA", "NFLX",
     "META", "NVDA", "IBM", "AMD", "SPY", "DIS", "V", "BA"]

  const DefaultSymbol: string := "MSFT"

  function DataKey(symbol: string, fromDate: nat, toDate: nat): (key: string) {
    DataKeyPrefix + symbol + "-" + NatToString(fromDate) + "-" + NatToString(toDate)
  }

  function StampKey(key: string): (stampKey: string) {
    key + StampKeySuffix
  }

  /** Splits `s` at its last '-'. */
  function SplitLast(s: string): (r: Option<(string, string)>)
    ensures r.Some? ==> s == r.value.0 + "-" + r.value.1 && '-' !in r.value.1
    ensures r.None? ==> '-' !in s
  {
    if s == [] then None
    else if s[|s| - 1] == '-' then
      assert s == s[..|s| - 1] + "-" + "";
      Some((s[..|s| - 1], ""))
    else
      match SplitLast(s[..|s| - 1])
      case None =>
        assert s == s[..|s| - 1] + [s[|s| - 1]];
        None
      case Some((head, tail)) =>
        assert s == s[..|s| - 1] + [s[|s| - 1]];
        Some((head, tail + [s[|s| - 1]]))
  }

  /** Recovers (symbol, from, to) from a data key, reading the key from the
      right: the last two '-'-separated parts are the two timestamps. */
  function ParseDataKey(key: string): (parsed: Option<(string, nat, nat)>) {
    if |key| < |DataKeyPrefix| || key[..|DataKeyPrefix|] != DataKeyPrefix then None
    else
      match SplitLast(key[|DataKeyPrefix|..])
      case None => None
      case Some((head, toText)) =>
        if toText == [] || !AllDigits(toText) then None
        else
          match SplitLast(head)
          case None => None
          case Some((symbol, fromText)) =>
            if fromText == [] || !AllDigits(fromText) then None
            else Some((symbol, DigitsValue(fromText), DigitsValue(toText)))
  }

  lemma DigitsHaveNoDash(s: string)
    requires AllDigits(s)
    ensures '-' !in s
  {
  }

  /** Splitting `a + "-" + b` at its last dash gives back `a` and `b` when `b` has no dash. */
  lemma {:induction false} SplitLastOf(a: string, b: string)
    requires '-' !in b
    ensures SplitLast(a + "-" + b) == Some((a, b))
  {
    var s := a + "-" + b;
    if b == [] {
      assert s[..|s| - 1] == a;
    } else {
      var b' := b[..|b| - 1];
      SplitLastOf(a, b');
      assert s[..|s| - 1] == a + "-" + b';
      assert s[|s| - 1] == b[|b| - 1];
      assert b' + [b[|b| - 1]] == b;
    }
  }

  /** Every data key can be parsed back into the triple it was built from. */
  lemma ParseDataKeyRoundTrip(symbol: string, fromDate: nat, toDate: nat)
    ensures ParseDataKey(DataKey(symbol, fromDate, toDate)) == Some((symbol, fromDate, toDate))
  {
    var f, t := NatToString(fromDate), NatToString(toDate);
    var key := DataKey(symbol, fromDate, toDate);
    assert key[..|DataKeyPrefix|] == DataKeyPrefix;
    assert key[|DataKeyPrefix|..] == (symbol + "-" + f) + "-" + t;
    DigitsHaveNoDash(f);
    DigitsHaveNoDash(t);
    SplitLastOf(symbol + "-" + f, t);
    SplitLastOf(symbol, f);
    NatToStringRoundTrip(fromDate);
    NatToStringRoundTrip(toDate);
  }

  /** Distinct (symbol, from, to) triples give distinct data keys, for every
      symbol, not only those in the dropdown. */
  lemma DataKeyInjective(s1: string, from1: nat, to1: nat, s2: string, from2: nat, to2: nat)
    ensures DataKey(s1, from1, to1) == DataKey(s2, from2, to2) ==>
              s1 == s2 && from1 == from2 && to1 == to2
  {
    ParseDataKeyRoundTrip(s1, from1, to1);
    ParseDataKeyRoundTrip(s2, from2, to2);
  }

  /** A data key ends in a digit and a timestamp key in 'p', so no data key
      is ever a timestamp key. */
  lemma DataKeyIsNotStampKey(symbol: string, fromDate: nat, toDate: nat, key: string)
    ensures DataKey(symbol, fromDate, toDate) != StampKey(key)
  {
    var d, t := DataKey(symbol, fromDate, toDate), NatToString(toDate);
    var s := StampKey(key);
    assert d[|d| - 1] == t[|t| - 1];
    assert s[|s| - 1] == 'p';
  }

  /** Distinct data keys have distinct timestamp keys. */
  lemma StampKeyInjective(k1: string, k2: string)
    ensures StampKey(k1) == StampKey(k2) ==> k1 == k2
  {
    if StampKey(k1) == StampKey(k2) {
      assert k1 == StampKey(k1)[..|k1|];
      assert k2 == StampKey(k2)[..|k2|];
    }
  }

}
