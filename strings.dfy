/**
 * The few pieces of JavaScript string behaviour the chat client relies on:
 * `String.prototype.trim`, the truthiness of an optional string, and
 * `String.prototype.startsWith`. A JavaScript string is modelled as a
 * sequence of characters, so `length` is the sequence length.
 */
module Strings {
  import opened Wrappers

  /**
   * The characters `trim` removes: WhiteSpace and LineTerminator as listed in
   * section 12.2 and 12.3 of ECMA-262 (tab, vertical tab, form feed, space,
   * no-break space, byte order mark, the other Unicode space separators, line
   * feed, carriage return, line and paragraph separators).
   */
  predicate IsWhitespace(c: char) {
    || c == '\t' || c == '\n' || c == '\U{000B}' || c == '\U{000C}' || c == '\r'
    || c == ' ' || c == '\U{00A0}' || c == '\U{1680}'
    || ('\U{2000}' <= c <= '\U{200A}')
    || c == '\U{2028}' || c == '\U{2029}' || c == '\U{202F}' || c == '\U{205F}'
    || c == '\U{3000}' || c == '\U{FEFF}'
  }

  /** Every character of `s` is whitespace (vacuously true of ""). */
  predicate AllWhitespace(s: string) {
    forall k :: 0 <= k < |s| ==> IsWhitespace(s[k])
  }

  /** The first index at or after `i` that holds no whitespace (`|s|` if none). */
  function SkipSpace(s: string, i: nat): (r: nat)
    requires i <= |s|
    ensures i <= r <= |s|
    ensures forall k :: i <= k < r ==> IsWhitespace(s[k])
    ensures r < |s| ==> !IsWhitespace(s[r])
    decreases |s| - i
  {
    if i < |s| && IsWhitespace(s[i]) then SkipSpace(s, i + 1) else i
  }

  /** The end of `s[lo..j]` once its trailing whitespace is dropped. */
  function BackSpace(s: string, lo: nat, j: nat): (r: nat)
    requires lo <= j <= |s|
    ensures lo <= r <= j
    ensures forall k :: r <= k < j ==> IsWhitespace(s[k])
    ensures r > lo ==> !IsWhitespace(s[r - 1])
    decreases j
  {
    if j > lo && IsWhitespace(s[j - 1]) then BackSpace(s, lo, j - 1) else j
  }

  /** Where the trimmed text of `s` starts. */
  function TrimStart(s: string): nat { SkipSpace(s, 0) }

  /** Where the trimmed text of `s` ends. */
  function TrimEnd(s: string): nat { BackSpace(s, TrimStart(s), |s|) }

  /**
   * `s.trim()`: the infix of `s` between its leading and its trailing
   * whitespace. Everything cut off is whitespace, what is kept neither starts
   * nor ends with whitespace, and it is empty exactly when `s` is all
   * whitespace.
   */
  function Trim(s: string): (r: string)
    ensures TrimStart(s) <= TrimEnd(s) <= |s| && r == s[TrimStart(s)..TrimEnd(s)]
    ensures forall k :: 0 <= k < TrimStart(s) || TrimEnd(s) <= k < |s| ==> IsWhitespace(s[k])
    ensures r != [] ==> !IsWhitespace(r[0]) && !IsWhitespace(r[|r| - 1])
    ensures r == [] <==> AllWhitespace(s)
  {
    var i := TrimStart(s);
    var j := TrimEnd(s);
    assert j > i ==> s[i..j][0] == s[i] && s[i..j][j - i - 1] == s[j - 1];
    s[i..j]
  }

  /** Trimming an already trimmed string changes nothing. */
  lemma TrimIdempotent(s: string)
    ensures Trim(Trim(s)) == Trim(s)
  {
    var t := Trim(s);
    if t != [] {
      assert TrimStart(t) == 0;
      assert TrimEnd(t) == |t|;
    }
  }

  /** JavaScript truthiness of a `string | null`: present and not "". */
  function Truthy(o: Option<string>): (b: bool)
    ensures b <==> o.Some? && |o.value| > 0
  {
    o.Some? && o.value != ""
  }

  /** `s.startsWith(prefix)`. */
  function StartsWith(s: string, prefix: string): (b: bool)
    ensures b <==> |prefix| <= |s| && forall k :: 0 <= k < |prefix| ==> s[k] == prefix[k]
  {
    |prefix| <= |s| && s[..|prefix|] == prefix
  }
}
