/**
 * The few JavaScript string built-ins the application relies on: `Number.prototype.toString`
 * on integers, `parseInt` with the default radix on decimal text, ASCII `toLowerCase`
 * and `String.prototype.includes`.
 */
module JsText {
  import opened Options

  predicate IsDigit(c: char) {
    '0' <= c <= '9'
  }

  predicate AllDigits(s: string) {
    forall i :: 0 <= i < |s| ==> IsDigit(s[i])
  }

  function DigitChar(d: nat): (c: char)
    requires d < 10
    ensures IsDigit(c)
  {
    (48 + d) as char
  }

  function DigitValue(c: char): (d: nat)
    requires IsDigit(c)
    ensures d < 10
  {
    (c as int) - 48
  }

  /** Decimal rendering of a natural number, most significant digit first, no leading zeros. */
  function NatToString(n: nat): (s: string)
    ensures 1 <= |s| && AllDigits(s)
    decreases n
  {
    if n < 10 then [DigitChar(n)] else NatToString(n / 10) + [DigitChar(n % 10)]
  }

  /** `n.toString()` for an integer-valued number. */
  function IntToString(i: int): (s: string)
    ensures |s| >= 1
    ensures i >= 0 ==> AllDigits(s)
    ensures i < 0 ==> s[0] == '-' && AllDigits(s[1..])
  {
    if i < 0 then "-" + NatToString(-i) else NatToString(i)
  }

  /** The number written by a string of decimal digits. */
  function DigitsValue(s: string): (v: nat)
    requires AllDigits(s)
    decreases |s|
  {
    if s == [] then 0 else DigitsValue(s[..|s| - 1]) * 10 + DigitValue(s[|s| - 1])
  }

  /** How many decimal digits `s` starts with. */
  function LeadingDigits(s: string): (n: nat)
    ensures n <= |s| && AllDigits(s[..n])
    ensures n < |s| ==> !IsDigit(s[n])
    decreases |s|
  {
    if s == [] || !IsDigit(s[0]) then 0
    else
      var m := LeadingDigits(s[1..]);
      assert s[1..][..m] == s[1..m + 1];
      m + 1
  }

  /**
   * `parseInt(s)` on decimal text: an optional sign followed by the longest run of digits;
   * anything after the digits is ignored, and no digit at all gives NaN (`None`).
   */
  function ParseInt(s: string): (r: Option<int>)
    ensures r.Some? ==> exists k :: 0 <= k < |s| && IsDigit(s[k])
  {
    var neg := |s| > 0 && s[0] == '-';
    var body := if |s| > 0 && (s[0] == '-' || s[0] == '+') then s[1..] else s;
    var n := LeadingDigits(body);
    if n == 0 then None
    else
      assert IsDigit(body[..n][0]);
      var v: int := DigitsValue(body[..n]);
      Some(if neg then -v else v)
  }

  lemma {:induction false} DigitsValueOfNatToString(n: nat)
    ensures DigitsValue(NatToString(n)) == n
    decreases n
  {
    if n >= 10 {
      var s := NatToString(n);
      assert s[..|s| - 1] == NatToString(n / 10);
      DigitsValueOfNatToString(n / 10);
    }
  }

  lemma LeadingDigitsOfAllDigits(s: string)
    requires AllDigits(s)
    ensures LeadingDigits(s) == |s|
    decreases |s|
  {
    if s != [] {
      LeadingDigitsOfAllDigits(s[1..]);
    }
  }

  /** `parseInt(String(i)) === i`: what `toString` writes, `parseInt` reads back. */
  lemma ParseIntOfIntToString(i: int)
    ensures ParseInt(IntToString(i)) == Some(i)
  {
    var n: nat := if i < 0 then -i else i;
    var digits := NatToString(n);
    LeadingDigitsOfAllDigits(digits);
    DigitsValueOfNatToString(n);
    assert digits[..|digits|] == digits;
    assert DigitsValue(digits[..LeadingDigits(digits)]) == n;
    if i < 0 {
      var s := "-" + digits;
      assert s[0] == '-' && s[1..] == digits;
      assert IntToString(i) == s;
    } else {
      assert IsDigit(digits[0]);
      assert IntToString(i) == digits;
    }
  }

  /** A run of digits followed by a non-digit: the digits are exactly the leading digits. */
  lemma {:induction false} LeadingDigitsThenStop(digits: string, rest: string)
    requires AllDigits(digits) && (rest == [] || !IsDigit(rest[0]))
    ensures LeadingDigits(digits + rest) == |digits|
    decreases |digits|
  {
    if digits != [] {
      assert (digits + rest)[1..] == digits[1..] + rest;
      LeadingDigitsThenStop(digits[1..], rest);
    }
  }

  /**
   * `parseInt` stops at the first non-digit: the number `toString` writes is read back also
   * when other text follows it.
   */
  lemma ParseIntOfIntToStringThen(i: int, rest: string)
    requires rest == [] || !IsDigit(rest[0])
    ensures ParseInt(IntToString(i) + rest) == Some(i)
  {
    var n: nat := if i < 0 then -i else i;
    var digits := NatToString(n);
    LeadingDigitsThenStop(digits, rest);
    DigitsValueOfNatToString(n);
    assert (digits + rest)[..|digits|] == digits;
    if i < 0 {
      var s := "-" + digits + rest;
      assert s[0] == '-' && s[1..] == digits + rest;
      assert IntToString(i) + rest == s;
    } else {
      assert IsDigit((digits + rest)[0]);
      assert IntToString(i) + rest == digits + rest;
    }
  }

  /** Dropping a prefix from a text written in three parts leaves the other two. */
  lemma DropPrefix(prefix: string, middle: string, rest: string)
    ensures (prefix + middle + rest)[|prefix|..] == middle + rest
  {
    assert (prefix + middle + rest) == prefix + (middle + rest);
  }

  /** Distinct integers have distinct decimal renderings. */
  lemma IntToStringInjective(i: int, j: int)
    requires IntToString(i) == IntToString(j)
    ensures i == j
  {
    ParseIntOfIntToString(i);
    ParseIntOfIntToString(j);
  }

  /** ASCII `toLowerCase` on one character. */
  function LowerChar(c: char): (l: char)
    ensures !('A' <= l <= 'Z')
    ensures !('A' <= c <= 'Z') ==> l == c
  {
    if 'A' <= c <= 'Z' then (c as int + 32) as char else c
  }

  /** ASCII `toLowerCase` on a string: same length, every letter lower-cased in place. */
  function Lower(s: string): (r: string)
    ensures |r| == |s|
    ensures forall i :: 0 <= i < |s| ==> r[i] == LowerChar(s[i])
  {
    seq(|s|, i requires 0 <= i < |s| => LowerChar(s[i]))
  }

  /** `haystack.includes(needle)`: `needle` occurs at some position of `haystack`. */
  predicate Includes(haystack: string, needle: string)
    ensures Includes(haystack, needle) ==> |needle| <= |haystack|
    ensures needle == [] ==> Includes(haystack, needle)
  {
    assert [] <= haystack[0..];
    exists i | 0 <= i <= |haystack| :: needle <= haystack[i..]
  }

  /** Lower-casing keeps an occurrence: a verbatim match is also a match ignoring case. */
  lemma IncludesLower(haystack: string, needle: string)
    requires Includes(haystack, needle)
    ensures Includes(Lower(haystack), Lower(needle))
  {
    var i :| 0 <= i <= |haystack| && needle <= haystack[i..];
    var lh := Lower(haystack);
    assert Lower(needle) == lh[i..][..|needle|] by {
      forall k | 0 <= k < |needle|
        ensures Lower(needle)[k] == lh[i..][..|needle|][k]
      {
        assert needle[k] == haystack[i + k];
      }
    }
    assert Lower(needle) <= lh[i..];
  }
}
