/**
 * `String.prototype.trim` as the send guard uses it: the entry is sent only when
 * `message.trim()` is a non-empty (truthy) string. The whitespace set is the union of the
 * WhiteSpace and LineTerminator code points of the ECMAScript language specification
 * (ECMAScript 2023, sections 12.2 and 12.3).
 */
module JsText {

  /** A code point that `trim` removes. */
  predicate IsJsWhitespace(c: char)
  {
    // TAB, VT, FF, SP, NBSP, ZWNBSP
    c == '\t' || c == '\U{B}' || c == '\U{C}' || c == ' ' || c == '\U{A0}' || c == '\U{FEFF}' ||
    // the other space separators of Unicode category Zs
    c == '\U{1680}' || ('\U{2000}' <= c <= '\U{200A}') || c == '\U{202F}' || c == '\U{205F}' || c == '\U{3000}' ||
    // LF, CR, LINE SEPARATOR, PARAGRAPH SEPARATOR
    c == '\n' || c == '\r' || c == '\U{2028}' || c == '\U{2029}'
  }

  /** Every character of `s` is whitespace (this includes the empty string). */
  predicate IsBlank(s: string)
  {
    forall i :: 0 <= i < |s| ==> IsJsWhitespace(s[i])
  }

  /** How many whitespace characters `s` begins with. */
  function LeadingBlanks(s: string): (n: nat)
    ensures n <= |s|
    ensures forall k :: 0 <= k < n ==> IsJsWhitespace(s[k])
    ensures n < |s| ==> !IsJsWhitespace(s[n])
  {
    if s != [] && IsJsWhitespace(s[0]) then 1 + LeadingBlanks(s[1..]) else 0
  }

  /** How many whitespace characters `s` ends with. */
  function TrailingBlanks(s: string): (n: nat)
    ensures n <= |s|
    ensures forall k :: |s| - n <= k < |s| ==> IsJsWhitespace(s[k])
    ensures n < |s| ==> !IsJsWhitespace(s[|s| - n - 1])
  {
    if s != [] && IsJsWhitespace(s[|s| - 1]) then 1 + TrailingBlanks(s[..|s| - 1]) else 0
  }

  /** Drops the leading whitespace: the result is the suffix of `s` that starts at its first non-whitespace character. */
  function TrimStart(s: string): (r: string)
    ensures |r| <= |s| && r == s[|s| - |r|..]
    ensures forall i :: 0 <= i < |s| - |r| ==> IsJsWhitespace(s[i])
    ensures r != [] ==> !IsJsWhitespace(r[0])
  {
    s[LeadingBlanks(s)..]
  }

  /** Drops the trailing whitespace: the result is the prefix of `s` that ends at its last non-whitespace character. */
  function TrimEnd(s: string): (r: string)
    ensures |r| <= |s| && r == s[..|r|]
    ensures forall i :: |r| <= i < |s| ==> IsJsWhitespace(s[i])
    ensures r != [] ==> !IsJsWhitespace(r[|r| - 1])
  {
    s[..|s| - TrailingBlanks(s)]
  }

  /**
   * `s.trim()`: it is empty exactly when `s` is blank, and otherwise neither begins nor ends
   * with whitespace; `TrimIsInfix` shows that it is the slice of `s` between blank ends.
   */
  function Trim(s: string): (r: string)
    ensures |r| <= |s|
    ensures r == [] <==> IsBlank(s)
    ensures r != [] ==> !IsJsWhitespace(r[0]) && !IsJsWhitespace(r[|r| - 1])
  {
    var t := TrimStart(s);
    var r := TrimEnd(t);
    assert r == [] ==> IsBlank(t);
    assert r != [] ==> r[0] == t[0];
    r
  }

  /** `r` is `s[i..j]`, and everything of `s` outside that slice is whitespace. */
  predicate InfixBetweenBlanks(s: string, r: string, i: int, j: int)
  {
    0 <= i <= j <= |s| && r == s[i..j] &&
    (forall k :: 0 <= k < i ==> IsJsWhitespace(s[k])) &&
    (forall k :: j <= k < |s| ==> IsJsWhitespace(s[k]))
  }

  /** `s.trim()` is the slice of `s` between a whitespace-only prefix and a whitespace-only suffix. */
  lemma TrimIsInfix(s: string)
    ensures exists i, j :: InfixBetweenBlanks(s, Trim(s), i, j)
  {
    var i := LeadingBlanks(s);
    var t := s[i..];
    var m := |t| - TrailingBlanks(t);
    SliceOfSuffix(s, i, m);
    assert InfixBetweenBlanks(s, Trim(s), i, i + m);
  }

  /** A prefix of a suffix of `s` is a slice of `s`, and the rest of the suffix is the rest of `s`. */
  lemma SliceOfSuffix(s: string, i: nat, m: nat)
    requires i + m <= |s|
    ensures s[i..][..m] == s[i..i + m]
    ensures forall k :: i + m <= k < |s| ==> s[k] == s[i..][k - i]
  {
  }

  /** `trim` removes only whitespace: a string whose ends are not whitespace is its own trim. */
  lemma TrimKeepsNonBlankEnds(s: string)
    requires s != [] && !IsJsWhitespace(s[0]) && !IsJsWhitespace(s[|s| - 1])
    ensures Trim(s) == s
  {
  }

  /** Trimming a trimmed string changes nothing. */
  lemma TrimIdempotent(s: string)
    ensures Trim(Trim(s)) == Trim(s)
  {
  }
}
