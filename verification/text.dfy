/**
 * The pieces of the .NET string library that the main window relies on:
 * `string.IsNullOrWhiteSpace`, `string.ToLower` and `int.TryParse`.
 */
module Text {
  import opened Wrappers

  /** `char.IsWhiteSpace`: the Unicode space, line and paragraph separators and the
      control characters U+0009 to U+000D and U+0085. */
  predicate IsWhiteSpace(c: char) {
    || c == ' ' || ('\t' <= c <= '\r') || c == '\U{0085}' || c == '\U{00A0}'
    || c == '\U{1680}' || ('\U{2000}' <= c <= '\U{200A}')
    || c == '\U{2028}' || c == '\U{2029}' || c == '\U{202F}' || c == '\U{205F}'
    || c == '\U{3000}'
  }

  /** `string.IsNullOrWhiteSpace` on a text box's text (which is never null). */
  predicate IsNullOrWhiteSpace(s: string): (blank: bool)
    ensures |s| == 0 ==> blank
    ensures blank && |s| > 0 ==> IsWhiteSpace(s[0]) && IsWhiteSpace(s[|s| - 1])
  {
    forall i :: 0 <= i < |s| ==> IsWhiteSpace(s[i])
  }

  /** `char.ToLower` on the ASCII letters; other characters are kept. */
  function LowerChar(c: char): (r: char)
    ensures 'A' <= c <= 'Z' ==> 'a' <= r <= 'z'
    ensures !('A' <= c <= 'Z') ==> r == c
  {
    if 'A' <= c <= 'Z' then (c as int - 'A' as int + 'a' as int) as char else c
  }

  /** `string.ToLower`: lower-cases letter by letter. */
  function ToLower(s: string): (r: string)
    ensures |r| == |s|
    ensures forall i :: 0 <= i < |s| ==> r[i] == LowerChar(s[i])
  {
    if |s| == 0 then "" else [LowerChar(s[0])] + ToLower(s[1..])
  }

  /** Lower-casing is decided letter by letter. */
  lemma ToLowerByLetters(s: string, r: string)
    requires |r| == |s|
    requires forall i :: 0 <= i < |s| ==> r[i] == LowerChar(s[i])
    ensures ToLower(s) == r
  {
  }

  // ---------------------------------------------------------------------------
  // int.TryParse with NumberStyles.Integer: optional leading and trailing white
  // space (U+0009 to U+000D and U+0020), an optional '+' or '-', one or more
  // decimal digits, and a value that fits in a 32-bit signed integer.
  // ---------------------------------------------------------------------------

  const MinInt32: int := -0x8000_0000
  const MaxInt32: int := 0x7FFF_FFFF

  predicate InInt32(n: int) { MinInt32 <= n <= MaxInt32 }

  /** The white space `NumberStyles.AllowLeadingWhite` and `AllowTrailingWhite` accept. */
  predicate IsNumberWhite(c: char) { c == ' ' || '\t' <= c <= '\r' }

  function TrimStartWhite(s: string): (r: string)
    ensures |r| <= |s| && r == s[|s| - |r|..]
    ensures |r| > 0 ==> !IsNumberWhite(r[0])
  {
    if |s| > 0 && IsNumberWhite(s[0]) then TrimStartWhite(s[1..]) else s
  }

  function TrimEndWhite(s: string): (r: string)
    ensures |r| <= |s| && r == s[..|r|]
    ensures |r| > 0 ==> !IsNumberWhite(r[|r| - 1])
  {
    if |s| > 0 && IsNumberWhite(s[|s| - 1]) then TrimEndWhite(s[..|s| - 1]) else s
  }

  predicate IsDigit(c: char) { '0' <= c <= '9' }

  predicate AllDigits(s: string) { forall i :: 0 <= i < |s| ==> IsDigit(s[i]) }

  /** The value of a string of decimal digits, most significant first. */
  function DigitsValue(s: string): nat
    requires AllDigits(s)
  {
    if |s| == 0 then 0 else DigitsValue(s[..|s| - 1]) * 10 + (s[|s| - 1] as int - '0' as int)
  }

  /** The value of trimmed text made of an optional '+' or '-' and one or more
      decimal digits; None for any other text. */
  function SignedDigitsValue(t: string): (r: Option<int>)
    ensures r.Some? ==> exists i :: 0 <= i < |t| && IsDigit(t[i])
  {
    var digits := if |t| > 0 && (t[0] == '-' || t[0] == '+') then t[1..] else t;
    if |digits| == 0 || !AllDigits(digits) then None
    else
      assert IsDigit(t[|t| - 1]);
      var magnitude: int := DigitsValue(digits);
      Some(if t[0] == '-' then -magnitude else magnitude)
  }

  /** `int.TryParse(s, out n)`: `Some(n)` when it returns true, `None` when it returns false. */
  function ParseInt32(s: string): (r: Option<int>)
    ensures r.Some? ==> InInt32(r.value)
    ensures r.Some? ==> exists i :: 0 <= i < |s| && IsDigit(s[i])
  {
    var t := TrimEndWhite(TrimStartWhite(s));
    match SignedDigitsValue(t)
    case None => None
    case Some(v) =>
      if InInt32(v) then
        var i :| 0 <= i < |t| && IsDigit(t[i]);
        assert t[i] == s[|s| - |TrimStartWhite(s)| + i];
        Some(v)
      else None
  }

  // ---------------------------------------------------------------------------
  // The decimal rendering of an integer (`int.ToString()`), the partner that
  // ParseInt32 reads back.
  // ---------------------------------------------------------------------------

  function DigitChar(d: nat): (c: char)
    requires d < 10
    ensures IsDigit(c) && c as int - '0' as int == d
  {
    ('0' as int + d) as char
  }

  function NatToDecimal(n: nat): (s: string)
    ensures |s| > 0 && AllDigits(s)
  {
    if n < 10 then [DigitChar(n)] else NatToDecimal(n / 10) + [DigitChar(n % 10)]
  }

  function IntToDecimal(n: int): (s: string)
    ensures |s| > 0
  {
    if n < 0 then "-" + NatToDecimal(-n) else NatToDecimal(n)
  }

  /** Reading back the digits of `n` gives `n`. */
  lemma {:induction false} DigitsValueOfDecimal(n: nat)
    ensures DigitsValue(NatToDecimal(n)) == n
  {
    var s := NatToDecimal(n);
    if n >= 10 {
      DigitsValueOfDecimal(n / 10);
      assert s[..|s| - 1] == NatToDecimal(n / 10);
    }
  }

  /** The decimal text of an integer has no white space to trim. */
  lemma DecimalIsTrimmed(n: int)
    ensures TrimEndWhite(TrimStartWhite(IntToDecimal(n))) == IntToDecimal(n)
  {
    var s := IntToDecimal(n);
    var d := NatToDecimal(if n < 0 then -n else n);
    assert !IsNumberWhite(s[0]) by {
      if n >= 0 { assert s[0] == d[0] && IsDigit(d[0]); }
    }
    assert TrimStartWhite(s) == s;
    assert s[|s| - 1] == d[|d| - 1] && IsDigit(d[|d| - 1]);
  }

  /** The decimal text of an integer is read back as that integer. */
  lemma SignedDigitsOfDecimal(n: int)
    ensures SignedDigitsValue(IntToDecimal(n)) == Some(n)
  {
    var s := IntToDecimal(n);
    var d := NatToDecimal(if n < 0 then -n else n);
    DigitsValueOfDecimal(if n < 0 then -n else n);
    if n < 0 {
      assert s[1..] == d;
    } else {
      assert IsDigit(d[0]);
    }
  }

  /** Every 32-bit integer survives a round trip through its decimal text:
      `int.TryParse(n.ToString())` gives back `n`. */
  lemma ParseDecimalRoundTrip(n: int)
    requires InInt32(n)
    ensures ParseInt32(IntToDecimal(n)) == Some(n)
  {
    DecimalIsTrimmed(n);
    SignedDigitsOfDecimal(n);
  }

  /** The integer text a port box holds by default is read as that integer. */
  lemma ParseDefaultPorts()
    ensures ParseInt32("3306") == Some(3306)
    ensures ParseInt32("1433") == Some(1433)
  {
    DecimalOf3306();
    DecimalOf1433();
    ParseDecimalRoundTrip(3306);
    ParseDecimalRoundTrip(1433);
  }

  lemma DecimalOf3306()
    ensures IntToDecimal(3306) == "3306"
  {
    assert NatToDecimal(3) == "3";
    assert NatToDecimal(33) == "33";
    assert NatToDecimal(330) == "330";
    assert NatToDecimal(3306) == "3306";
  }

  lemma DecimalOf1433()
    ensures IntToDecimal(1433) == "1433"
  {
    assert NatToDecimal(1) == "1";
    assert NatToDecimal(14) == "14";
    assert NatToDecimal(143) == "143";
    assert NatToDecimal(1433) == "1433";
  }
}
