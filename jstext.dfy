/**
 * The pieces of the JavaScript runtime's string behaviour that the component
 * relies on: `String.prototype.trim`, the ASCII case folding a regular
 * expression with the `i` flag applies to ASCII patterns, and the decimal
 * rendering of a non-negative integer inside a template literal.
 *
 * Strings are sequences of Unicode scalar values; every character the
 * component inspects is in the Basic Multilingual Plane, so this agrees with
 * JavaScript's UTF-16 strings for everything modelled here.
 */
module JsText {

  /** The characters `trim()` removes: the WhiteSpace and LineTerminator
      productions of ECMA-262 (tab, vertical tab, form feed, the
      byte-order mark, every space separator of Unicode category Zs,
      line feed, carriage return, line and paragraph separators). */
  predicate IsWhitespace(c: char) {
    || c == '\t' || c == '\U{000B}' || c == '\U{000C}' || c == '\U{FEFF}'
    || c == ' ' || c == '\U{00A0}' || c == '\U{1680}'
    || ('\U{2000}' <= c <= '\U{200A}')
    || c == '\U{202F}' || c == '\U{205F}' || c == '\U{3000}'
    || c == '\n' || c == '\r' || c == '\U{2028}' || c == '\U{2029}'
  }

  predicate AllWhitespace(s: string) {
    forall i :: 0 <= i < |s| ==> IsWhitespace(s[i])
  }

  /** Neither the first nor the last character is whitespace. */
  predicate IsTrimmed(s: string) {
    s == [] || (!IsWhitespace(s[0]) && !IsWhitespace(s[|s| - 1]))
  }

  /** The position of the first non-whitespace character at or after `i`,
      or `|s|` when there is none. */
  function SkipForward(s: string, i: nat): (k: nat)
    requires i <= |s|
    ensures i <= k <= |s|
    ensures k < |s| ==> !IsWhitespace(s[k])
    decreases |s| - i
  {
    if i < |s| && IsWhitespace(s[i]) then SkipForward(s, i + 1) else i
  }

  /** The position just after the last non-whitespace character before `j`
      and not before `lo`, or `lo` when there is none. */
  function SkipBackward(s: string, lo: nat, j: nat): (k: nat)
    requires lo <= j <= |s|
    ensures lo <= k <= j
    ensures k > lo ==> !IsWhitespace(s[k - 1])
    decreases j
  {
    if j > lo && IsWhitespace(s[j - 1]) then SkipBackward(s, lo, j - 1) else j
  }

  /** Everything SkipForward passes over is whitespace. */
  lemma {:induction false} SkipForwardPassesWhitespace(s: string, i: nat)
    requires i <= |s|
    ensures forall m :: i <= m < SkipForward(s, i) ==> IsWhitespace(s[m])
    decreases |s| - i
  {
    if i < |s| && IsWhitespace(s[i]) {
      SkipForwardPassesWhitespace(s, i + 1);
    }
  }

  /** Everything SkipBackward passes over is whitespace. */
  lemma {:induction false} SkipBackwardPassesWhitespace(s: string, lo: nat, j: nat)
    requires lo <= j <= |s|
    ensures forall m :: SkipBackward(s, lo, j) <= m < j ==> IsWhitespace(s[m])
    decreases j
  {
    if j > lo && IsWhitespace(s[j - 1]) {
      SkipBackwardPassesWhitespace(s, lo, j - 1);
    }
  }

  /** SkipForward stops at the first non-whitespace position `k`. */
  lemma {:induction false} SkipForwardStopsAt(s: string, i: nat, k: nat)
    requires i <= k <= |s|
    requires forall m :: i <= m < k ==> IsWhitespace(s[m])
    requires k < |s| ==> !IsWhitespace(s[k])
    ensures SkipForward(s, i) == k
    decreases k - i
  {
    if i < k {
      SkipForwardStopsAt(s, i + 1, k);
    }
  }

  /** SkipBackward stops just after the last non-whitespace position. */
  lemma {:induction false} SkipBackwardStopsAt(s: string, lo: nat, j: nat, k: nat)
    requires lo <= k <= j <= |s|
    requires forall m :: k <= m < j ==> IsWhitespace(s[m])
    requires k > lo ==> !IsWhitespace(s[k - 1])
    ensures SkipBackward(s, lo, j) == k
    decreases j - k
  {
    if k < j {
      SkipBackwardStopsAt(s, lo, j - 1, k);
    }
  }

  /** `String.prototype.trim`: the text between the leading and the
      trailing whitespace. */
  function Trim(s: string): (r: string)
    ensures IsTrimmed(r)
    ensures |r| <= |s|
  {
    var lo := SkipForward(s, 0);
    s[lo..SkipBackward(s, lo, |s|)]
  }

  /** What trim removes is whitespace, and what it keeps is a contiguous
      piece of the input. */
  lemma TrimIsMiddle(s: string)
    ensures exists lo, hi :: 0 <= lo <= hi <= |s| && Trim(s) == s[lo..hi]
                             && AllWhitespace(s[..lo]) && AllWhitespace(s[hi..])
  {
    var lo := SkipForward(s, 0);
    var hi := SkipBackward(s, lo, |s|);
    SkipForwardPassesWhitespace(s, 0);
    SkipBackwardPassesWhitespace(s, lo, |s|);
    assert AllWhitespace(s[..lo]) && AllWhitespace(s[hi..]);
  }

  /** Trim's result is determined by the input: whatever trimmed text `m`
      is surrounded by whitespace, trimming recovers exactly `m`. With
      TrimIsMiddle this characterises `Trim` completely. */
  lemma TrimSplit(a: string, m: string, b: string)
    requires AllWhitespace(a) && AllWhitespace(b) && IsTrimmed(m)
    ensures Trim(a + m + b) == m
  {
    var s := a + m + b;
    var lo, hi := |a|, |a| + |m|;
    assert forall i :: 0 <= i < |a| ==> s[i] == a[i];
    assert forall i :: hi <= i < |s| ==> s[i] == b[i - hi];
    if m == [] {
      SkipForwardStopsAt(s, 0, |s|);
    } else {
      assert s[lo] == m[0] && s[hi - 1] == m[|m| - 1];
      SkipForwardStopsAt(s, 0, lo);
      SkipBackwardStopsAt(s, lo, |s|, hi);
      assert s[lo..hi] == m;
    }
  }

  /** Trimming text that has no surrounding whitespace returns it unchanged. */
  lemma TrimOfTrimmed(s: string)
    requires IsTrimmed(s)
    ensures Trim(s) == s
  {
    assert [] + s + [] == s;
    TrimSplit([], s, []);
  }

  /** Trimming twice is trimming once. */
  lemma TrimIdempotent(s: string)
    ensures Trim(Trim(s)) == Trim(s)
  {
    TrimOfTrimmed(Trim(s));
  }

  /** Trim yields the empty string exactly when the input is all whitespace. */
  lemma TrimEmptyIff(s: string)
    ensures Trim(s) == [] <==> AllWhitespace(s)
  {
    if AllWhitespace(s) {
      assert s + [] + [] == s;
      TrimSplit(s, [], []);
    } else {
      var lo := SkipForward(s, 0);
      SkipForwardPassesWhitespace(s, 0);
      SkipBackwardPassesWhitespace(s, lo, |s|);
    }
  }

  /** Lower-cases ASCII letters and leaves every other character alone. For
      an ASCII lower-case pattern this is the comparison a non-Unicode
      regular expression with the `i` flag makes: its canonicalisation
      never maps a non-ASCII character onto an ASCII one. */
  function AsciiLower(c: char): (d: char)
    ensures 'A' <= c <= 'Z' ==> d as int == c as int + 32
    ensures 'a' <= d <= 'z' ==> c == d || c == (d as int - 32) as char
    ensures !('a' <= d <= 'z') ==> c == d
  {
    if 'A' <= c <= 'Z' then (c as int + 32) as char else c
  }

  /** `s` begins with `p`, ignoring the case of ASCII letters (`p` is
      written in lower case). */
  predicate StartsWithIgnoringCase(s: string, p: string) {
    |p| <= |s| && forall i :: 0 <= i < |p| ==> AsciiLower(s[i]) == p[i]
  }

  function DigitChar(d: nat): (c: char)
    requires d < 10
    ensures '0' <= c <= '9' && c as int - '0' as int == d
  {
    ('0' as int + d) as char
  }

  predicate IsDigits(s: string) {
    forall i :: 0 <= i < |s| ==> '0' <= s[i] <= '9'
  }

  /** The decimal text JavaScript produces for a non-negative integer
      below 10^21: no sign, no leading zero except for zero itself. */
  function NatToDecimal(n: nat): (s: string)
    ensures |s| >= 1 && IsDigits(s)
    ensures s[0] == '0' <==> n == 0
    decreases n
  {
    if n < 10 then [DigitChar(n)] else NatToDecimal(n / 10) + [DigitChar(n % 10)]
  }

  /** The value of a string of decimal digits; the inverse of NatToDecimal. */
  function DecimalValue(s: string): nat
    requires IsDigits(s)
  {
    if s == [] then 0 else DecimalValue(s[..|s| - 1]) * 10 + (s[|s| - 1] as int - '0' as int)
  }

  /** Reading back the rendered decimal gives the number. */
  lemma {:induction false} DecimalRoundTrip(n: nat)
    ensures DecimalValue(NatToDecimal(n)) == n
    decreases n
  {
    var s := NatToDecimal(n);
    if n < 10 {
      assert s[..0] == [];
    } else {
      DecimalRoundTrip(n / 10);
      assert s[..|s| - 1] == NatToDecimal(n / 10);
    }
  }

  /** Distinct numbers render as distinct text. */
  lemma DecimalInjective(a: nat, b: nat)
    requires NatToDecimal(a) == NatToDecimal(b)
    ensures a == b
  {
    DecimalRoundTrip(a);
    DecimalRoundTrip(b);
  }
}
