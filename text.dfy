/**
 * The pieces of JavaScript's string library the core relies on:
 * `String.prototype.trim`, `Array.prototype.join` and the decimal
 * rendering of a non-negative integer.
 */
module Text {

  /**
   * The characters `trim` removes: the WhiteSpace and LineTerminator code
   * points of ECMAScript (sections 12.2 and 12.3 of ECMA-262).
   */
  predicate IsTrimmable(c: char)
  {
    c == '\t' || c == '\n' || c == '\U{B}' || c == '\U{C}' || c == '\r' || c == ' '
    || c == '\U{A0}' || c == '\U{1680}' || ('\U{2000}' <= c <= '\U{200A}')
    || c == '\U{2028}' || c == '\U{2029}' || c == '\U{202F}' || c == '\U{205F}'
    || c == '\U{3000}' || c == '\U{FEFF}'
  }

  /** Drops the leading trimmable characters: the result is the longest suffix that starts with a kept character. */
  function TrimStart(s: string): (r: string)
    ensures |r| <= |s| && r == s[|s| - |r|..]
    ensures r == [] || !IsTrimmable(r[0])
    ensures forall k :: 0 <= k < |s| - |r| ==> IsTrimmable(s[k])
  {
    if s != [] && IsTrimmable(s[0]) then TrimStart(s[1..]) else s
  }

  /** Drops the trailing trimmable characters: the result is the longest prefix that ends with a kept character. */
  function TrimEnd(s: string): (r: string)
    ensures |r| <= |s| && r == s[..|r|]
    ensures r == [] || !IsTrimmable(r[|r| - 1])
    ensures forall k :: |r| <= k < |s| ==> IsTrimmable(s[k])
  {
    if s != [] && IsTrimmable(s[|s| - 1]) then TrimEnd(s[..|s| - 1]) else s
  }

  /** `s.trim()`: removes whitespace and line terminators from both ends. */
  function Trim(s: string): (r: string)
    ensures |r| <= |s|
    ensures r == [] || (!IsTrimmable(r[0]) && !IsTrimmable(r[|r| - 1]))
    ensures r == [] <==> forall k :: 0 <= k < |s| ==> IsTrimmable(s[k])
    ensures exists i, j :: MiddleSlice(s, r, i, j)
  {
    var e := TrimEnd(s);
    var r := TrimStart(e);
    TrimParts(s, e, r);
    TrimSlice(s, e, r);
    assert MiddleSlice(s, r, |e| - |r|, |e|);
    r
  }

  /** `r` is `s[i..j]`, and everything of `s` outside that slice is trimmable. */
  predicate MiddleSlice(s: string, r: string, i: int, j: int)
  {
    0 <= i <= j <= |s| && r == s[i..j]
    && (forall k :: 0 <= k < i ==> IsTrimmable(s[k]))
    && (forall k :: j <= k < |s| ==> IsTrimmable(s[k]))
  }

  /** Cutting a prefix of trimmable characters off a prefix of `s` leaves a middle slice of `s`. */
  lemma TrimSlice(s: string, e: string, r: string)
    requires |e| <= |s| && e == s[..|e|]
    requires |r| <= |e| && r == e[|e| - |r|..]
    requires forall k :: 0 <= k < |e| - |r| ==> IsTrimmable(e[k])
    ensures r == s[|e| - |r|..|e|]
    ensures forall k :: 0 <= k < |e| - |r| ==> IsTrimmable(s[k])
  {
    forall k | 0 <= k < |e| - |r| ensures IsTrimmable(s[k]) {
      assert s[k] == e[k];
    }
  }

  lemma TrimParts(s: string, e: string, r: string)
    requires e == TrimEnd(s) && r == TrimStart(e)
    ensures r == [] <==> forall k :: 0 <= k < |s| ==> IsTrimmable(s[k])
  {
    if r == [] {
      forall k | 0 <= k < |s| ensures IsTrimmable(s[k]) {
        if k < |e| { assert e[k] == s[k]; }
      }
    } else {
      assert !IsTrimmable(r[0]);
    }
  }

  /** Trimming a string that already has no whitespace at either end changes nothing. */
  lemma TrimOfTrimmed(s: string)
    requires s == [] || (!IsTrimmable(s[0]) && !IsTrimmable(s[|s| - 1]))
    ensures Trim(s) == s
  {
    assert TrimEnd(s) == s;
    assert TrimStart(s) == s;
  }

  /** `trim` is idempotent. */
  lemma TrimIdempotent(s: string)
    ensures Trim(Trim(s)) == Trim(s)
  {
    TrimOfTrimmed(Trim(s));
  }

  /** `segments.join(sep)`. */
  function Join(segments: seq<string>, sep: string): (r: string)
    ensures |segments| == 1 ==> r == segments[0]
    ensures segments == [] ==> r == ""
  {
    if segments == [] then ""
    else if |segments| == 1 then segments[0]
    else segments[0] + sep + Join(segments[1..], sep)
  }

  predicate IsDigit(c: char) { '0' <= c <= '9' }

  /** The decimal rendering of `n` with no leading zeros, as `String(n)` gives it. */
  function DecimalString(n: nat): (r: string)
    ensures r != [] && forall k :: 0 <= k < |r| ==> IsDigit(r[k])
    ensures |r| > 1 ==> r[0] != '0'
  {
    if n < 10 then [('0' as int + n) as char]
    else DecimalString(n / 10) + [('0' as int + n % 10) as char]
  }

  /** Reads a string of decimal digits back as a number. */
  function DecimalValue(s: string): nat
    requires forall k :: 0 <= k < |s| ==> IsDigit(s[k])
  {
    if s == [] then 0
    else DecimalValue(s[..|s| - 1]) * 10 + DigitValue(s[|s| - 1])
  }

  function DigitValue(c: char): nat
    requires IsDigit(c)
  {
    c as int - '0' as int
  }

  /** The decimal rendering loses nothing: reading it back gives the number. */
  lemma {:induction false} DecimalRoundTrip(n: nat)
    ensures DecimalValue(DecimalString(n)) == n
  {
    if n >= 10 {
      var r := DecimalString(n);
      assert r[..|r| - 1] == DecimalString(n / 10);
      DecimalRoundTrip(n / 10);
    }
  }
}
