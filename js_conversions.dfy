/** The two JavaScript conversions from text to number that the component
    relies on: `parseInt(text, 10)` for a day's volume and the implicit
    `Number(text)` coercion applied to the stored cache timestamp when it is
    subtracted from the current time. */
module JsConversions {

  import opened Optional
  import opened Decimal

  /** The result of `parseInt`: an integer or NaN. */
  datatype IntValue = Num(value: int) | NaN

  /** The characters JavaScript's string-to-number conversions skip as white
      space: TAB, VT, FF, SP, NBSP, ZWNBSP, the other space separators of
      category Zs, LF, CR, LINE SEPARATOR and PARAGRAPH SEPARATOR. */
  predicate IsJsWhiteSpace(c: char) {
    var n := c as int;
    n == 0x09 || n == 0x0B || n == 0x0C || n == 0x20 || n == 0xA0 || n == 0xFEFF ||
    n == 0x0A || n == 0x0D || n == 0x2028 || n == 0x2029 ||
    n == 0x1680 || (0x2000 <= n <= 0x200A) || n == 0x202F || n == 0x205F || n == 0x3000
  }

  /** `s` without its leading white space. */
  function TrimStart(s: string): (r: string)
    ensures |r| <= |s| && r == s[|s| - |r|..]
    ensures forall i :: 0 <= i < |s| - |r| ==> IsJsWhiteSpace(s[i])
    ensures r == [] || !IsJsWhiteSpace(r[0])
  {
    if s != [] && IsJsWhiteSpace(s[0]) then TrimStart(s[1..]) else s
  }

  /** The longest prefix of `s` made of decimal digits. */
  function DigitPrefix(s: string): (z: string)
    ensures |z| <= |s| && z == s[..|z|]
    ensures AllDigits(z)
    ensures |z| == |s| || !IsDigit(s[|z|])
  {
    if s != [] && IsDigit(s[0]) then [s[0]] + DigitPrefix(s[1..]) else []
  }

  /** `parseInt(s, 10)`: skip leading white space, take an optional sign,
      then the longest run of decimal digits; NaN when that run is empty. */
  function ParseInt(s: string): (r: IntValue) {
    var t := TrimStart(s);
    var negative := t != [] && t[0] == '-';
    var body := if t != [] && (t[0] == '-' || t[0] == '+') then t[1..] else t;
    var z := DigitPrefix(body);
    if z == [] then NaN
    else if negative then Num(-(DigitsValue(z) as int))
    else Num(DigitsValue(z))
  }

  /** The digit prefix of digits followed by a non-digit is those digits. */
  lemma {:induction false} DigitPrefixOf(digits: string, rest: string)
    requires AllDigits(digits)
    requires rest == [] || !IsDigit(rest[0])
    ensures DigitPrefix(digits + rest) == digits
  {
    if digits != [] {
      DigitPrefixOf(digits[1..], rest);
      assert (digits + rest)[1..] == digits[1..] + rest;
    }
  }

  /** A text that starts with a digit has no white space or sign to skip:
      `parseInt` reads its leading run of digits. */
  lemma ParseIntOfDigitStart(s: string)
    requires s != [] && IsDigit(s[0])
    ensures DigitPrefix(s) != [] && ParseInt(s) == Num(DigitsValue(DigitPrefix(s)))
  {
    assert !IsJsWhiteSpace(s[0]);
    assert TrimStart(s) == s;
  }

  /** On a non-empty string of digits, `parseInt` gives the number it denotes. */
  lemma ParseIntOfDigits(s: string)
    requires s != [] && AllDigits(s)
    ensures ParseInt(s) == Num(DigitsValue(s))
  {
    ParseIntOfDigitStart(s);
    DigitPrefixOf(s, []);
    assert s + [] == s;
  }

  /** `parseInt` reads the decimal text of a number and stops at the first
      character that is not a digit ("1000.5" and "1000 shares" give 1000). */
  lemma ParseIntReadsLeadingNumber(n: nat, rest: string)
    requires rest == [] || !IsDigit(rest[0])
    ensures ParseInt(NatToString(n) + rest) == Num(n)
  {
    var digits := NatToString(n);
    var s := digits + rest;
    assert s[0] == digits[0];
    ParseIntOfDigitStart(s);
    DigitPrefixOf(digits, rest);
    NatToStringRoundTrip(n);
  }

  /** `Number(s)` for the text of a stored timestamp. Only non-empty digit
      strings are read as numbers; every other text is taken as NaN. */
  function ToNumber(s: string): (r: Option<nat>)
    ensures r.Some? <==> s != [] && AllDigits(s)
  {
    if s != [] && AllDigits(s) then Some(DigitsValue(s)) else None
  }

  /** A timestamp written as decimal text is read back unchanged. */
  lemma ToNumberOfNatString(n: nat)
    ensures ToNumber(NatToString(n)) == Some(n)
  {
    NatToStringRoundTrip(n);
  }

}
