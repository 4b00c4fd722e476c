/**
 The two pieces of PHP text handling that `DateTimeMock::setMicroseconds`
 relies on: the zero-padded decimal rendering of one date field by
 `DateTime::format` (format characters `H`, `i` and `s` are two digits wide,
 `u` is six digits wide) and the `(int)` cast of a numeric string.
 */
module PhpText {

  function Pow10(n: nat): (r: nat) {
    if n == 0 then 1 else 10 * Pow10(n - 1)
  }

  predicate IsDigit(c: char) {
    '0' <= c <= '9'
  }

  predicate AllDigits(s: string) {
    forall k :: 0 <= k < |s| ==> IsDigit(s[k])
  }

  function DigitChar(d: nat): (c: char)
    requires d < 10
    ensures IsDigit(c) && c as int - '0' as int == d
  {
    ('0' as int + d) as char
  }

  function DigitValue(c: char): (d: nat)
    requires IsDigit(c)
    ensures d < 10
  {
    c as int - '0' as int
  }

  /** The `width` lowest decimal digits of `n`, most significant first,
      padded on the left with zeros: what `format` prints for one field. */
  function ZeroPadded(n: nat, width: nat): (s: string)
    ensures |s| == width && AllDigits(s)
  {
    if width == 0 then "" else ZeroPadded(n / 10, width - 1) + [DigitChar(n % 10)]
  }

  /** The longest prefix of `s` made of decimal digits. */
  function LeadingDigits(s: string): (ds: string)
    ensures ds <= s && AllDigits(ds)
    ensures |ds| < |s| ==> !IsDigit(s[|ds|])
  {
    if s == [] || !IsDigit(s[0]) then "" else [s[0]] + LeadingDigits(s[1..])
  }

  /** The number a string of decimal digits denotes. */
  function DigitsValue(ds: string): (n: nat)
    requires AllDigits(ds)
    ensures ds != [] ==> n % 10 == DigitValue(ds[|ds| - 1])
  {
    if ds == [] then 0 else 10 * DigitsValue(ds[..|ds| - 1]) + DigitValue(ds[|ds| - 1])
  }

  /** PHP's `(int)` cast of a string: an optional sign followed by the
      leading run of digits; a string without leading digits casts to 0. */
  function IntCast(s: string): (r: int)
    ensures AllDigits(s) ==> r == DigitsValue(s)
  {
    if |s| > 0 && s[0] == '-' then -(DigitsValue(LeadingDigits(s[1..])) as int)
    else if |s| > 0 && s[0] == '+' then DigitsValue(LeadingDigits(s[1..]))
    else
      var ds := LeadingDigits(s);
      assert AllDigits(s) ==> |ds| == |s| && ds == s[..|ds|] && ds == s;
      DigitsValue(ds)
  }

  /** Reading back a zero-padded rendering gives the number that was rendered,
      as long as it fits the width. */
  lemma {:induction false} ZeroPaddedValue(n: nat, width: nat)
    requires n < Pow10(width)
    ensures DigitsValue(ZeroPadded(n, width)) == n
  {
    if width > 0 {
      var s := ZeroPadded(n, width);
      assert s[..|s| - 1] == ZeroPadded(n / 10, width - 1);
      ZeroPaddedValue(n / 10, width - 1);
    }
  }

  /** `(int) format(<field>)` is the field's own value: the round trip
      that `setMicroseconds` depends on. */
  lemma {:induction false} CastOfZeroPadded(n: nat, width: nat)
    requires n < Pow10(width)
    ensures IntCast(ZeroPadded(n, width)) == n
  {
    ZeroPaddedValue(n, width);
  }
}
