/** String helpers for the dispatcher: prefixes, the `/https?:/` search and decimal rendering. */
module Text {

  /** `s.startsWith(prefix)` */
  predicate StartsWith(s: string, prefix: string)
  {
    |prefix| <= |s| && s[..|prefix|] == prefix
  }

  /** A mismatch at one position of the prefix rules the prefix out. */
  lemma NotPrefixAt(s: string, prefix: string, i: nat)
    requires i < |prefix| && i < |s| && s[i] != prefix[i]
    ensures !StartsWith(s, prefix)
  {
    if |prefix| <= |s| {
      assert s[..|prefix|][i] == s[i];
    }
  }

  /** The regular expression `/https?:/` matches at index `i` of `s`. */
  predicate SchemeAt(s: string, i: nat)
    requires i <= |s|
  {
    StartsWith(s[i..], "http:") || StartsWith(s[i..], "https:")
  }

  /** `s.match(/https?:/)` is truthy: the pattern matches somewhere in `s`, not only at its start. */
  function HasHttpScheme(s: string): (found: bool)
    ensures found <==> exists i :: 0 <= i <= |s| && SchemeAt(s, i)
  {
    if |s| == 0 then
      assert !SchemeAt(s, 0);
      false
    else if SchemeAt(s, 0) then
      true
    else
      var rest := HasHttpScheme(s[1..]);
      assert forall i :: 1 <= i <= |s| ==> (SchemeAt(s, i) <==> SchemeAt(s[1..], i - 1)) by {
        forall i | 1 <= i <= |s| ensures s[i..] == s[1..][i - 1..] { }
      }
      if rest then
        var j :| 0 <= j <= |s[1..]| && SchemeAt(s[1..], j);
        assert SchemeAt(s, j + 1);
        true
      else
        false
  }

  /** A character of the class `[a-zA-Z0-9_-]`. */
  predicate IsIdChar(c: char)
  {
    ('a' <= c <= 'z') || ('A' <= c <= 'Z') || ('0' <= c <= '9') || c == '_' || c == '-'
  }

  /** Every character of `s` is in `[a-zA-Z0-9_-]`. */
  predicate AllIdChars(s: string)
  {
    forall j :: 0 <= j < |s| ==> IsIdChar(s[j])
  }

  lemma IdCharAt(s: string, n: nat, j: nat)
    requires j < n <= |s| && AllIdChars(s[..n])
    ensures IsIdChar(s[j])
  {
    assert s[..n][j] == s[j];
  }

  /** The length of the longest prefix of `s` made of `[a-zA-Z0-9_-]` characters (what a greedy `+` consumes). */
  function IdRun(s: string): (n: nat)
    ensures n <= |s|
    ensures AllIdChars(s[..n])
    ensures n < |s| ==> !IsIdChar(s[n])
  {
    if |s| > 0 && IsIdChar(s[0]) then
      var k := IdRun(s[1..]);
      assert s[..k + 1] == [s[0]] + s[1..][..k];
      k + 1
    else
      0
  }

  predicate IsDigit(c: char)
  {
    '0' <= c <= '9'
  }

  function Digit(d: nat): (c: char)
    requires d < 10
    ensures IsDigit(c) && DigitValue(c) == d
  {
    "0123456789"[d]
  }

  function DigitValue(c: char): nat
    requires IsDigit(c)
  {
    c as int - '0' as int
  }

  /** The decimal text of a non-negative number, as template-string interpolation writes it. */
  function NatToDecimal(n: nat): (s: string)
    ensures |s| >= 1
    ensures forall i :: 0 <= i < |s| ==> IsDigit(s[i])
    ensures n >= 10 ==> s[0] != '0'
  {
    if n < 10 then [Digit(n)] else NatToDecimal(n / 10) + [Digit(n % 10)]
  }

  /** The decimal text of an integer, with a leading `-` when negative. */
  function IntToDecimal(i: int): (s: string)
    ensures |s| >= 1
    ensures forall k :: 0 <= k < |s| ==> IsDigit(s[k]) || (k == 0 && s[k] == '-')
  {
    if i < 0 then "-" + NatToDecimal(-i) else NatToDecimal(i)
  }

  /** The number a string of decimal digits denotes. */
  function DecimalValue(s: string): nat
    requires forall i :: 0 <= i < |s| ==> IsDigit(s[i])
  {
    if |s| == 0 then 0 else 10 * DecimalValue(s[..|s| - 1]) + DigitValue(s[|s| - 1])
  }

  /** The rendering of a status code can be read back: distinct statuses give distinct texts. */
  lemma {:induction false} DecimalRoundTrip(n: nat)
    ensures DecimalValue(NatToDecimal(n)) == n
  {
    if n >= 10 {
      var s := NatToDecimal(n);
      assert s[..|s| - 1] == NatToDecimal(n / 10);
      DecimalRoundTrip(n / 10);
    }
  }

  /** Distinct integers are rendered as distinct texts. */
  lemma IntToDecimalInjective(a: int, b: int)
    requires IntToDecimal(a) == IntToDecimal(b)
    ensures a == b
  {
    SignOfRendering(a);
    SignOfRendering(b);
    if a < 0 {
      MagnitudeInjective(-a, -b);
    } else {
      MagnitudeInjective(a, b);
    }
  }

  /** Distinct non-negative numbers are rendered as distinct texts. */
  lemma MagnitudeInjective(a: nat, b: nat)
    requires NatToDecimal(a) == NatToDecimal(b)
    ensures a == b
  {
    DecimalRoundTrip(a);
    DecimalRoundTrip(b);
  }

  /** A rendering starts with `-` exactly for a negative number, and the rest is its magnitude. */
  lemma SignOfRendering(i: int)
    ensures IntToDecimal(i)[0] == '-' <==> i < 0
    ensures i < 0 ==> IntToDecimal(i)[1..] == NatToDecimal(-i)
    ensures i >= 0 ==> IntToDecimal(i) == NatToDecimal(i)
  {
    if i >= 0 {
      assert IsDigit(NatToDecimal(i)[0]);
    }
  }
}
