/**
  Decimal text of unsigned integers, as the backend relies on it:
  `strconv.ParseUint(s, 10, bitSize)` when a websocket "user_id" arrives as
  a string, and the text `fmt.Sprintf("%v", id)` prints for the float64 of
  a whole user id in the permission checks.
 */
module Strconv {
  import opened Models

  predicate IsDigit(c: char) { '0' <= c <= '9' }

  predicate AllDigits(s: string) { forall i :: 0 <= i < |s| ==> IsDigit(s[i]) }

  function DigitValue(c: char): (d: nat)
    requires IsDigit(c)
    ensures d < 10
  {
    (c as int) - ('0' as int)
  }

  function DigitChar(d: nat): (c: char)
    requires d < 10
    ensures IsDigit(c) && DigitValue(c) == d
  {
    ('0' as int + d) as char
  }

  /** 2^32: the bound of strconv.ParseUint(s, 10, 32). */
  const Uint32Limit: nat := 0x1_0000_0000

  /** Value of a string of decimal digits, most significant first (leading zeros allowed). */
  function DecimalValue(s: string): nat
    requires AllDigits(s)
    decreases |s|
  {
    if s == [] then 0 else 10 * DecimalValue(s[..|s| - 1]) + DigitValue(s[|s| - 1])
  }

  /** strconv.ParseUint(s, 10, bitSize) with limit = 2^bitSize: a non-empty
      string of ASCII digits (no sign, no underscores, leading zeros allowed)
      whose value is below the limit; anything else is an error (None). */
  function ParseUint(s: string, limit: nat): (r: Option<nat>)
    ensures r.Some? <==> s != [] && AllDigits(s) && DecimalValue(s) < limit
    ensures r.Some? ==> r.value == DecimalValue(s) && r.value < limit
    ensures s == [] ==> r == None
  {
    if s != [] && AllDigits(s) && DecimalValue(s) < limit then Some(DecimalValue(s)) else None
  }

  /** Canonical decimal text of n: no sign, no leading zero. */
  function FormatUint(n: nat): (s: string)
    ensures |s| > 0 && AllDigits(s)
    ensures s[0] == '0' ==> n == 0
    decreases n
  {
    if n < 10 then [DigitChar(n)] else FormatUint(n / 10) + [DigitChar(n % 10)]
  }

  lemma {:induction false} DecimalValueOfFormat(n: nat)
    ensures DecimalValue(FormatUint(n)) == n
    decreases n
  {
    if n >= 10 {
      DecimalValueOfFormat(n / 10);
      var s := FormatUint(n);
      assert s[..|s| - 1] == FormatUint(n / 10);
    }
  }

  /** Parsing the canonical text of a value that fits gives the value back. */
  lemma ParseFormatRoundTrip(n: nat, limit: nat)
    requires n < limit
    ensures ParseUint(FormatUint(n), limit) == Some(n)
  {
    DecimalValueOfFormat(n);
  }

  /** Distinct ids have distinct decimal texts. */
  lemma FormatUintInjective(a: nat, b: nat)
    ensures FormatUint(a) == FormatUint(b) <==> a == b
  {
    DecimalValueOfFormat(a);
    DecimalValueOfFormat(b);
  }

  /** The digits with their trailing zeros removed. */
  function TrimTrailingZeros(s: string): (t: string)
    ensures |t| <= |s| && t == s[..|t|]
    ensures forall i :: |t| <= i < |s| ==> s[i] == '0'
    ensures t != [] ==> t[|t| - 1] != '0'
    decreases |s|
  {
    if s != [] && s[|s| - 1] == '0' then TrimTrailingZeros(s[..|s| - 1]) else s
  }

  /** The exponent part of `%e`: "e+" and at least two digits. */
  function ExponentText(e: nat): (s: string)
    ensures |s| >= 4 && s[0] == 'e' && s[1] == '+'
  {
    "e+" + (if e < 10 then "0" else "") + FormatUint(e)
  }

  /** The smallest whole number `%v` prints in exponent form: the shortest
      `%g` switches to `%e` once the decimal exponent reaches 6. */
  const ExponentFormFrom: nat := 1000000

  /** `fmt.Sprintf("%v", float64(n))` for a whole number n: its digits below
      10^6, otherwise the significant digits as d.ddd followed by the
      exponent, as in "1e+06" and "1.234567e+06". */
  function FormatWholeFloat(n: nat): (s: string)
    ensures s != []
    ensures AllDigits(s) <==> n < ExponentFormFrom
    ensures AllDigits(s) ==> DecimalValue(s) == n
  {
    if n < ExponentFormFrom then
      DecimalValueOfFormat(n);
      FormatUint(n)
    else
      var all := FormatUint(n);
      var digits := TrimTrailingZeros(all);
      assert digits != [];
      var s := [digits[0]] + (if |digits| > 1 then "." + digits[1..] else "") + ExponentText(|all| - 1);
      assert !IsDigit(s[|s| - |ExponentText(|all| - 1)|]);
      s
  }

  lemma FormatAppendDigit(m: nat, d: nat)
    requires m > 0 && d < 10
    ensures FormatUint(10 * m + d) == FormatUint(m) + [DigitChar(d)]
  {
    assert (10 * m + d) / 10 == m && (10 * m + d) % 10 == d;
  }

  lemma TrimAppendZero(s: string)
    ensures TrimTrailingZeros(s + "0") == TrimTrailingZeros(s)
  {
    assert (s + "0")[..|s|] == s;
  }

  lemma MillionDigits()
    ensures FormatUint(1000000) == "1000000"
  {
    FormatAppendDigit(1, 0);
    FormatAppendDigit(10, 0);
    FormatAppendDigit(100, 0);
    FormatAppendDigit(1000, 0);
    FormatAppendDigit(10000, 0);
    FormatAppendDigit(100000, 0);
    assert DigitChar(0) == '0' && DigitChar(1) == '1';
  }

  lemma MillionSignificantDigits()
    ensures TrimTrailingZeros("1000000") == "1"
  {
    var t := "1";
    assert TrimTrailingZeros(t) == "1";
    var k := 0;
    while k < 6
      invariant 0 <= k <= 6 && |t| == k + 1 && t[0] == '1'
      invariant forall i :: 1 <= i < |t| ==> t[i] == '0'
      invariant TrimTrailingZeros(t) == "1"
    {
      TrimAppendZero(t);
      t := t + "0";
      k := k + 1;
    }
    assert t == "1000000";
  }

  /** One million, the smallest whole number `%v` prints with an exponent. */
  lemma OneMillionText()
    ensures FormatWholeFloat(1000000) == "1e+06"
  {
    MillionDigits();
    MillionSignificantDigits();
    assert ExponentText(6) == "e+06";
  }
}
