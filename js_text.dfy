/** The part of JavaScript's string semantics the front end relies on: `String.prototype.trim`. */
module JsText {

  /** A character that `trim` removes: the ECMAScript WhiteSpace and LineTerminator code points
      (tab, vertical tab, form feed, space, no-break space, byte order mark, the Zs space
      separators, line feed, carriage return, line and paragraph separators). */
  predicate IsWhiteSpace(c: char)
  {
    c == '\t' || c == '\n' || c == '\U{B}' || c == '\U{C}' || c == '\r' || c == ' ' ||
    c == '\U{A0}' || c == '\U{1680}' || ('\U{2000}' <= c <= '\U{200A}') ||
    c == '\U{2028}' || c == '\U{2029}' || c == '\U{202F}' || c == '\U{205F}' ||
    c == '\U{3000}' || c == '\U{FEFF}'
  }

  /** Every character of `s` is white space (the empty string included). */
  predicate IsBlank(s: string)
  {
    forall i :: 0 <= i < |s| ==> IsWhiteSpace(s[i])
  }

  /** The first position at or after `i` that does not hold white space, or `|s|`: where the
      scan that strips leading white space stops. */
  function ContentStart(s: string, i: nat): (k: nat)
    requires i <= |s|
    ensures i <= k <= |s|
    ensures forall m :: i <= m < k ==> IsWhiteSpace(s[m])
    ensures k == |s| || !IsWhiteSpace(s[k])
    decreases |s| - i
  {
    if i < |s| && IsWhiteSpace(s[i]) then ContentStart(s, i + 1) else i
  }

  /** Scanning back from `j`, but not past `lo`, the end of the text once trailing white space
      is stripped. */
  function ContentEnd(s: string, lo: nat, j: nat): (e: nat)
    requires lo <= j <= |s|
    ensures lo <= e <= j
    ensures forall m :: e <= m < j ==> IsWhiteSpace(s[m])
    ensures e == lo || !IsWhiteSpace(s[e - 1])
  {
    if lo < j && IsWhiteSpace(s[j - 1]) then ContentEnd(s, lo, j - 1) else j
  }

  /** `r` stands in `s` at position `k` with only white space before and after it. */
  ghost predicate PaddedAt(s: string, r: string, k: int)
  {
    0 <= k <= |s| - |r| && s[k..k + |r|] == r &&
    (forall i :: 0 <= i < k ==> IsWhiteSpace(s[i])) &&
    (forall i :: k + |r| <= i < |s| ==> IsWhiteSpace(s[i]))
  }

  /** `s.trim()`: `s` without its leading and trailing white space. The result is empty exactly
      when `s` consists of white space only; otherwise it starts and ends with a character that
      is not white space, and everything cut off on either side is white space. */
  function Trim(s: string): (r: string)
    ensures r == "" <==> IsBlank(s)
    ensures r != "" ==> !IsWhiteSpace(r[0]) && !IsWhiteSpace(r[|r| - 1])
    ensures exists k :: PaddedAt(s, r, k)
  {
    var b := ContentStart(s, 0);
    var e := ContentEnd(s, b, |s|);
    assert b < |s| ==> b < e;
    assert PaddedAt(s, s[b..e], b);
    s[b..e]
  }
}
