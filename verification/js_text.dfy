/**
 * The two pieces of JavaScript string semantics the clients depend on:
 * `String.prototype.trim` (whose result is tested for truthiness to reject
 * blank input) and `Number.prototype.toString` on a non-negative integer
 * on a non-negative integer below 2^53 (used to turn a numeric room code,
 * below 10^6, into text).
 */
module JsText {

  /** The characters `trim` removes: ECMAScript WhiteSpace and LineTerminator. */
  predicate IsWhiteSpace(c: char) {
    var n := c as int;
    n == 0x09 || n == 0x0A || n == 0x0B || n == 0x0C || n == 0x0D || n == 0x20
    || n == 0xA0 || n == 0x1680 || (0x2000 <= n <= 0x200A) || n == 0x2028
    || n == 0x2029 || n == 0x202F || n == 0x205F || n == 0x3000 || n == 0xFEFF
  }

  /** Every character of `s` is white space. */
  predicate AllWhite(s: string) {
    forall i | 0 <= i < |s| :: IsWhiteSpace(s[i])
  }

  /** The first index at or after `i` that holds a non-white character, or `|s|`. */
  function SkipWhite(s: string, i: nat): (k: nat)
    requires i <= |s|
    ensures i <= k <= |s|
    ensures forall j | i <= j < k :: IsWhiteSpace(s[j])
    ensures k < |s| ==> !IsWhiteSpace(s[k])
    decreases |s| - i
  {
    if i < |s| && IsWhiteSpace(s[i]) then SkipWhite(s, i + 1) else i
  }

  /** The end of the last non-white character before index `j`, or 0 when there is none. */
  function SkipWhiteBack(s: string, j: nat): (k: nat)
    requires j <= |s|
    ensures k <= j
    ensures forall m | k <= m < j :: IsWhiteSpace(s[m])
    ensures k > 0 ==> !IsWhiteSpace(s[k - 1])
  {
    if j > 0 && IsWhiteSpace(s[j - 1]) then SkipWhiteBack(s, j - 1) else j
  }

  /**
   * `s.trim()`: `s` without its leading and trailing white space. The result
   * is falsy (the empty string) exactly when every character of `s` is white
   * space; otherwise it begins and ends with a non-white character.
   * `TrimBounds` locates it inside `s`.
   */
  function Trim(s: string): (r: string)
    ensures |r| <= |s|
    ensures r == [] <==> AllWhite(s)
    ensures r != [] ==> !IsWhiteSpace(r[0]) && !IsWhiteSpace(r[|r| - 1])
  {
    var a := SkipWhite(s, 0);
    var b := SkipWhiteBack(s, |s|);
    if b <= a then
      assert a == |s| by {
        if a < |s| { assert false; }
      }
      []
    else
      s[a..b]
  }

  /** `s.trim()` is the piece `s[a..b]` of `s`, and everything of `s` around it is white space. */
  lemma TrimBounds(s: string) returns (a: nat, b: nat)
    ensures a <= b <= |s| && Trim(s) == s[a..b]
    ensures forall i | 0 <= i < a :: IsWhiteSpace(s[i])
    ensures forall i | b <= i < |s| :: IsWhiteSpace(s[i])
  {
    a := SkipWhite(s, 0);
    b := SkipWhiteBack(s, |s|);
    if b <= a {
      a, b := |s|, |s|;
    }
  }

  /** The JavaScript test `!s.trim()`. */
  predicate IsBlank(s: string): (blank: bool)
    ensures blank <==> AllWhite(s)
  {
    Trim(s) == []
  }

  predicate IsDigit(c: char) {
    '0' <= c <= '9'
  }

  predicate AllDigits(s: string) {
    forall i | 0 <= i < |s| :: IsDigit(s[i])
  }

  function DigitChar(d: nat): (c: char)
    requires d < 10
    ensures IsDigit(c) && c as int - '0' as int == d
  {
    ('0' as int + d) as char
  }

  /** The numeric value of a string of decimal digits, most significant first. */
  function ParseDecimal(s: string): nat
    requires AllDigits(s)
  {
    if s == [] then 0
    else 10 * ParseDecimal(s[..|s| - 1]) + (s[|s| - 1] as int - '0' as int)
  }

  /**
   * `n.toString()` for a non-negative integer below 2^53: decimal digits
   * with no leading zero, which read back as `n`. Larger numbers print
   * rounded digits, and from 10^21 on in exponent form; neither is modelled.
   */
  function DecimalString(n: nat): (s: string)
    ensures |s| >= 1 && AllDigits(s)
    ensures ParseDecimal(s) == n
    ensures n > 0 ==> s[0] != '0'
    decreases n
  {
    if n < 10 then [DigitChar(n)]
    else
      var prefix := DecimalString(n / 10);
      var s := prefix + [DigitChar(n % 10)];
      assert s[..|s| - 1] == prefix;
      s
  }

  function Pow10(k: nat): (p: nat)
    ensures p >= 1
  {
    if k == 0 then 1 else 10 * Pow10(k - 1)
  }

  /** A number with exactly k digits (10^(k-1) <= n < 10^k) prints as k characters. */
  lemma {:induction false} DecimalStringLength(n: nat, k: nat)
    requires k >= 1 && Pow10(k - 1) <= n < Pow10(k)
    ensures |DecimalString(n)| == k
  {
    if k > 1 {
      assert Pow10(k - 1) == 10 * Pow10(k - 2);
      assert n >= 10;
      DecimalStringLength(n / 10, k - 1);
    }
  }
}
