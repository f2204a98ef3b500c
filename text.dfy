/** Text helpers shared by the model: prefixes and suffixes, locating a
    delimiter, and Python's `str()` of an integer together with a decoder
    that reads such text back. */
module Text {

  datatype Option<T> = None | Some(value: T)

  predicate StartsWith(s: string, prefix: string)
  {
    |prefix| <= |s| && s[..|prefix|] == prefix
  }

  /** Python's `str.endswith`. */
  predicate EndsWith(s: string, suffix: string)
  {
    |suffix| <= |s| && s[|s| - |suffix|..] == suffix
  }

  lemma EndsWithAppended(s: string, suffix: string)
    ensures EndsWith(s + suffix, suffix)
  {
    assert (s + suffix)[|s|..] == suffix;
  }

  /** Position of the first `c` in `s`, or `|s|` when `s` has none. */
  function IndexOf(s: string, c: char): (r: nat)
    ensures r <= |s|
    ensures r < |s| ==> s[r] == c
    ensures forall j :: 0 <= j < r ==> s[j] != c
    ensures c !in s ==> r == |s|
  {
    if s == [] then 0
    else if s[0] == c then 0
    else 1 + IndexOf(s[1..], c)
  }

  /** Splits `s` at the first occurrence of the first character of `delim`,
      provided `delim` itself stands there: the text before it and the text
      after it. */
  function Field(s: string, delim: string): (r: Option<(string, string)>)
    requires delim != []
    ensures r.Some? ==> s == r.value.0 + delim + r.value.1
    ensures r.Some? ==> delim[0] !in r.value.0
  {
    var i := IndexOf(s, delim[0]);
    if StartsWith(s[i..], delim) then
      SplitAround(s, i, delim);
      Some((s[..i], s[i + |delim|..]))
    else None
  }

  /** A delimiter standing at `i`, with no copy of its first character
      before it, cuts `s` into the text before and the text after it. */
  lemma SplitAround(s: string, i: nat, delim: string)
    requires delim != [] && i <= |s| && StartsWith(s[i..], delim)
    requires forall j :: 0 <= j < i ==> s[j] != delim[0]
    ensures s == s[..i] + delim + s[i + |delim|..]
    ensures delim[0] !in s[..i]
  {
    assert s[i..] == delim + s[i + |delim|..];
    assert s == s[..i] + s[i..];
  }

  /** Field undoes concatenation around a delimiter whose first character
      the left part does not contain. */
  lemma FieldOfJoined(a: string, delim: string, b: string)
    requires delim != [] && delim[0] !in a
    ensures Field(a + delim + b, delim) == Some((a, b))
  {
    var s := a + delim + b;
    assert s[|a|] == delim[0];
    assert forall j :: 0 <= j < |a| ==> s[j] == a[j];
    var i := IndexOf(s, delim[0]);
    assert i == |a|;
    assert s[i..] == delim + b;
    assert s[..i] == a;
    assert s[i + |delim|..] == b;
  }

  // ---------------------------------------------------------------------
  // Decimal rendering of integers (Python's str() and "{}".format on int)

  predicate IsDigit(c: char)
  {
    '0' <= c <= '9'
  }

  function Digit(d: nat): (c: char)
    requires d < 10
    ensures IsDigit(c)
  {
    "0123456789"[d]
  }

  function DigitValue(c: char): (d: nat)
    requires IsDigit(c)
    ensures d < 10
  {
    (c - '0') as nat
  }

  lemma DigitValueOfDigit(d: nat)
    requires d < 10
    ensures DigitValue(Digit(d)) == d
  {
  }

  /** Decimal digits of `n`, most significant first, no leading zeros. */
  function NatToString(n: nat): (s: string)
    ensures s != []
    ensures forall i :: 0 <= i < |s| ==> IsDigit(s[i])
    decreases n
  {
    if n < 10 then [Digit(n)] else NatToString(n / 10) + [Digit(n % 10)]
  }

  /** Python's `str(i)` for an integer `i`: a minus sign before the digits of
      a negative number. */
  function IntToString(i: int): (s: string)
    ensures s != []
    ensures forall k :: 0 <= k < |s| ==> IsDigit(s[k]) || s[k] == '-'
  {
    if i < 0 then "-" + NatToString(-i) else NatToString(i)
  }

  predicate AllDigits(s: string)
  {
    forall i :: 0 <= i < |s| ==> IsDigit(s[i])
  }

  /** Value of a string of decimal digits, read left to right. */
  function DigitsValue(s: string): nat
    requires AllDigits(s)
  {
    if s == [] then 0 else DigitsValue(s[..|s| - 1]) * 10 + DigitValue(s[|s| - 1])
  }

  /** Reads back what IntToString writes: an optional minus sign and at
      least one digit. */
  function ParseInt(s: string): Option<int>
  {
    if s != [] && s[0] == '-' then
      if |s| > 1 && AllDigits(s[1..]) then Some(0 - DigitsValue(s[1..]) as int) else None
    else if s != [] && AllDigits(s) then Some(DigitsValue(s))
    else None
  }

  lemma {:induction false} NatToStringRoundTrip(n: nat)
    ensures DigitsValue(NatToString(n)) == n
    decreases n
  {
    if n < 10 {
      DigitValueOfDigit(n);
    } else {
      var prefix := NatToString(n / 10);
      var s := prefix + [Digit(n % 10)];
      assert s[..|s| - 1] == prefix;
      NatToStringRoundTrip(n / 10);
      DigitValueOfDigit(n % 10);
    }
  }

  /** ParseInt reads a digit string as its value. */
  lemma ParseDigits(digits: string)
    requires digits != [] && AllDigits(digits)
    ensures ParseInt(digits) == Some(DigitsValue(digits) as int)
  {
    assert IsDigit(digits[0]);
  }

  /** ParseInt reads a minus sign and a digit string as the negated value. */
  lemma ParseNegated(digits: string)
    requires digits != [] && AllDigits(digits)
    ensures ParseInt("-" + digits) == Some(0 - DigitsValue(digits) as int)
  {
    assert ("-" + digits)[1..] == digits;
  }

  /** The decimal text of an integer determines it. */
  lemma IntToStringRoundTrip(i: int)
    ensures ParseInt(IntToString(i)) == Some(i)
  {
    var n: nat := if i < 0 then -i else i;
    var digits := NatToString(n);
    assert AllDigits(digits);
    assert DigitsValue(digits) == n by {
      NatToStringRoundTrip(n);
    }
    if i < 0 {
      assert IntToString(i) == "-" + digits;
      ParseNegated(digits);
    } else {
      assert IntToString(i) == digits;
      ParseDigits(digits);
    }
  }

  lemma IntToStringInjective(i: int, j: int)
    requires IntToString(i) == IntToString(j)
    ensures i == j
  {
    IntToStringRoundTrip(i);
    IntToStringRoundTrip(j);
  }
}
