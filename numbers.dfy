/**
 * JavaScript numbers as far as this application uses them: integers and NaN.
 * `Number(s)` on a cell and `String(n)` when a number is written back to a cell.
 */
module Numbers {

  datatype Number = Int(i: int) | NaN

  predicate IsDigit(c: char) {
    '0' <= c <= '9'
  }

  /** The white space JavaScript's `Number()` skips around a numeral (the ECMAScript StrWhiteSpaceChar set). */
  predicate IsJsSpace(c: char) {
    c in {'\t', '\n', '\U{000B}', '\U{000C}', '\r', ' ', '\U{00A0}', '\U{1680}', '\U{2028}', '\U{2029}', '\U{202F}', '\U{205F}',
          '\U{3000}', '\U{FEFF}'} || '\U{2000}' <= c <= '\U{200A}'
  }

  /**
   * A character a text can start with and still be read by `Number()` as something other than NaN:
   * a digit, a sign, a decimal point, the `I` of `Infinity`, or white space.
   */
  predicate MayStartNumber(c: char) {
    IsDigit(c) || c == '+' || c == '-' || c == '.' || c == 'I' || IsJsSpace(c)
  }

  predicate AllDigits(s: string) {
    forall k :: 0 <= k < |s| ==> IsDigit(s[k])
  }

  function DigitChar(d: int): (c: char)
    requires 0 <= d < 10
    ensures IsDigit(c)
  {
    ('0' as int + d) as char
  }

  /** Decimal rendering without leading zeros. */
  function NatToString(n: nat): (s: string)
    ensures |s| > 0 && AllDigits(s)
    ensures n < 10 <==> |s| == 1
  {
    if n < 10 then [DigitChar(n)] else NatToString(n / 10) + [DigitChar(n % 10)]
  }

  function DigitsValue(s: string): nat
    requires AllDigits(s)
  {
    if s == [] then 0 else DigitsValue(s[..|s| - 1]) * 10 + (s[|s| - 1] as int - '0' as int)
  }

  /** `String(i)` for an integer. */
  function IntToString(i: int): (s: string)
    ensures |s| > 0
  {
    if i < 0 then "-" + NatToString(-i) else NatToString(i)
  }

  /** `Number(s)` for a string: empty gives 0, an optionally signed run of digits gives its value, anything else NaN. */
  function ParseNumber(s: string): Number {
    if s == "" then Int(0)
    else if AllDigits(s) then Int(DigitsValue(s))
    else if s[0] == '-' && |s| > 1 && AllDigits(s[1..]) then Int(-(DigitsValue(s[1..]) as int))
    else NaN
  }

  /** `String(n)`. */
  function NumberToString(n: Number): (s: string)
    ensures s != ""
  {
    match n
    case Int(i) => IntToString(i)
    case NaN => "NaN"
  }

  lemma {:induction false} DigitsRoundTrip(n: nat)
    ensures DigitsValue(NatToString(n)) == n
    decreases n
  {
    if n >= 10 {
      var s := NatToString(n);
      assert s[..|s| - 1] == NatToString(n / 10);
      DigitsRoundTrip(n / 10);
    }
  }

  /** Rendering a number and parsing it back gives the same number. */
  lemma ParseRoundTrip(n: Number)
    ensures ParseNumber(NumberToString(n)) == n
  {
    match n
    case Int(i) =>
      if i < 0 {
        var s := IntToString(i);
        assert s[1..] == NatToString(-i);
        assert !IsDigit(s[0]);
        DigitsRoundTrip(-i);
      } else {
        DigitsRoundTrip(i);
      }
    case NaN =>
      assert !IsDigit("NaN"[0]);
  }
}
