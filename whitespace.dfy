/**
 * JavaScript's `String.prototype.trim` and the blank-input test the chat page
 * builds from it (`!inputValue.trim()`: the trimmed string is empty, and the
 * empty string is falsy).
 */
module Whitespace {

  /** The characters `trim` removes: the ECMAScript WhiteSpace code points
      (tab, vertical tab, form feed, space, no-break space, the byte-order
      mark and every Unicode "space separator") and the LineTerminator code
      points (line feed, carriage return, line and paragraph separators). */
  predicate IsWhitespace(c: char)
  {
    c == '\t' || c == '\n' || c == '\U{000B}' || c == '\U{000C}' || c == '\r' ||
    c == ' ' || c == '\U{00A0}' || c == '\U{1680}' ||
    ('\U{2000}' <= c <= '\U{200A}') ||
    c == '\U{2028}' || c == '\U{2029}' || c == '\U{202F}' || c == '\U{205F}' ||
    c == '\U{3000}' || c == '\U{FEFF}'
  }

  ghost predicate AllWhitespace(s: string)
  {
    forall i :: 0 <= i < |s| ==> IsWhitespace(s[i])
  }

  /** Drops the leading whitespace: the result is a suffix of `s`, everything
      dropped is whitespace, and the result does not start with whitespace. */
  function TrimStart(s: string): (r: string)
    ensures |r| <= |s| && r == s[|s| - |r|..]
    ensures forall i :: 0 <= i < |s| - |r| ==> IsWhitespace(s[i])
    ensures r == [] || !IsWhitespace(r[0])
  {
    if |s| > 0 && IsWhitespace(s[0]) then TrimStart(s[1..]) else s
  }

  /** Drops the trailing whitespace: the result is a prefix of `s`, everything
      dropped is whitespace, and the result does not end with whitespace. */
  function TrimEnd(s: string): (r: string)
    ensures |r| <= |s| && r == s[..|r|]
    ensures forall i :: |r| <= i < |s| ==> IsWhitespace(s[i])
    ensures r == [] || !IsWhitespace(r[|r| - 1])
  {
    if |s| > 0 && IsWhitespace(s[|s| - 1]) then TrimEnd(s[..|s| - 1]) else s
  }

  /** `r` is `s[a..b]` and everything cut off on either side is whitespace. */
  ghost predicate StripsTo(s: string, a: int, b: int, r: string)
  {
    0 <= a <= b <= |s| && r == s[a..b] && AllWhitespace(s[..a]) && AllWhitespace(s[b..])
  }

  /** `s.trim()`: `s` without its leading and trailing whitespace. The result
      is a slice of `s` with only whitespace cut off on either side, and
      neither end of the result is whitespace. */
  function Trim(s: string): (r: string)
    ensures exists a, b :: StripsTo(s, a, b, r)
    ensures r == [] || (!IsWhitespace(r[0]) && !IsWhitespace(r[|r| - 1]))
  {
    var t := TrimStart(s);
    var r := TrimEnd(t);
    StripBothEnds(s, |s| - |t|, t, r);
    r
  }

  /** Cutting a whitespace prefix off `s` and then a whitespace suffix off
      what is left cuts both off `s`. */
  lemma StripBothEnds(s: string, a: nat, t: string, r: string)
    requires a <= |s| && t == s[a..] && forall i :: 0 <= i < a ==> IsWhitespace(s[i])
    requires |r| <= |t| && r == t[..|r|] && forall i :: |r| <= i < |t| ==> IsWhitespace(t[i])
    ensures StripsTo(s, a, a + |r|, r)
  {
    var head, tail := s[..a], s[a + |r|..];
    forall j | 0 <= j < |head| ensures IsWhitespace(head[j]) {
      assert head[j] == s[j];
    }
    forall j | 0 <= j < |tail| ensures IsWhitespace(tail[j]) {
      assert tail[j] == t[|r| + j];
    }
  }

  /** Trimming yields the empty string exactly when every character is
      whitespace (the empty string included). */
  lemma TrimEmptyIffAllWhitespace(s: string)
    ensures Trim(s) == [] <==> AllWhitespace(s)
  {
  }

  /** `!s.trim()`: the input is blank, i.e. empty or whitespace only. */
  function IsBlank(s: string): (b: bool)
    ensures b <==> AllWhitespace(s)
  {
    TrimEmptyIffAllWhitespace(s);
    Trim(s) == []
  }
}
