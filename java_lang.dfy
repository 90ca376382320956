/**
 * The few pieces of `java.lang` behaviour the handlers depend on:
 * `String.valueOf` of a possibly-null string (used by `+` concatenation),
 * `Integer.toString` and `Integer.parseInt` / `Integer.valueOf`.
 */
module JavaLang {
  import opened Wrappers

  const MinInt: int := -0x8000_0000
  const MaxInt: int := 0x7fff_ffff

  /** The range of a Java `int`. */
  predicate IsInt(n: int) {
    MinInt <= n <= MaxInt
  }

  /** `"" + s` in Java: a null reference is printed as "null". */
  function ValueOf(s: Option<string>): string {
    match s
    case Some(v) => v
    case None => "null"
  }

  /** `s.startsWith(prefix)`. */
  predicate StartsWith(s: string, prefix: string) {
    |prefix| <= |s| && s[..|prefix|] == prefix
  }

  predicate IsDigit(c: char) {
    '0' <= c <= '9'
  }

  predicate AllDigits(s: string) {
    forall i :: 0 <= i < |s| ==> IsDigit(s[i])
  }

  function DigitChar(d: nat): (c: char)
    requires d < 10
    ensures IsDigit(c) && c as int - '0' as int == d
  {
    ('0' as int + d) as char
  }

  /** The value of a decimal numeral, most significant digit first. */
  function DigitsValue(s: string): nat
    requires AllDigits(s)
  {
    if s == [] then 0 else DigitsValue(s[..|s| - 1]) * 10 + (s[|s| - 1] as int - '0' as int)
  }

  /** The decimal numeral of `n`, without leading zeros. */
  function NatToString(n: nat): (s: string)
    ensures |s| > 0 && AllDigits(s)
    ensures |s| > 1 ==> s[0] != '0'
  {
    if n < 10 then [DigitChar(n)] else NatToString(n / 10) + [DigitChar(n % 10)]
  }

  /** `Integer.toString(n)`: a minus sign for negative numbers, then the numeral. */
  function IntToString(n: int): (s: string)
    ensures |s| > 0
    ensures n < 0 <==> s[0] == '-'
  {
    if n < 0 then "-" + NatToString(-n) else NatToString(n)
  }

  /**
   * `Integer.parseInt(s)` (and `Integer.valueOf(s)`): `None` where Java throws
   * `NumberFormatException` -- a null or empty string, a lone sign, a character
   * that is not a digit, or a value outside the `int` range.
   */
  function ParseInt(s: Option<string>): (r: Option<int>)
    ensures r.Some? ==> IsInt(r.value)
    ensures r.Some? ==> s.Some? && |s.value| > 0
    ensures r.Some? && s.value[0] == '-' ==> r.value <= 0
    ensures r.Some? && IsDigit(s.value[0]) ==> r.value >= 0
  {
    match s
    case None => None
    case Some(t) =>
      if |t| == 0 then None
      else if t[0] == '-' || t[0] == '+' then
        if |t| == 1 || !AllDigits(t[1..]) then None
        else
          var magnitude: int := DigitsValue(t[1..]);
          var v: int := if t[0] == '-' then -magnitude else magnitude;
          if IsInt(v) then Some(v) else None
      else if !AllDigits(t) then None
      else if DigitsValue(t) <= MaxInt then Some(DigitsValue(t))
      else None
  }

  /** Reading back a numeral gives the number it was printed from. */
  lemma {:induction false} DigitsRoundTrip(n: nat)
    ensures DigitsValue(NatToString(n)) == n
  {
    if n >= 10 {
      var s := NatToString(n);
      assert s[..|s| - 1] == NatToString(n / 10);
      DigitsRoundTrip(n / 10);
    }
  }

  /** `Integer.parseInt(Integer.toString(n)) == n` for every Java `int`. */
  lemma ParseIntToString(n: int)
    requires IsInt(n)
    ensures ParseInt(Some(IntToString(n))) == Some(n)
  {
    var s := IntToString(n);
    if n < 0 {
      assert s[1..] == NatToString(-n);
      DigitsRoundTrip(-n);
    } else {
      DigitsRoundTrip(n);
    }
  }
}
