/**
 * The two JavaScript string primitives the core relies on:
 * `String.prototype.trim` and `String.prototype.toUpperCase`.
 */
module Strings {

  /**
   * ECMAScript WhiteSpace and LineTerminator code points, exactly the set that
   * `trim` removes: TAB, LF, VT, FF, CR, SPACE, NBSP, the Unicode space
   * separators, LINE SEPARATOR, PARAGRAPH SEPARATOR and ZWNBSP.
   */
  predicate IsWhiteSpace(c: char) {
    c == '\t' || c == '\n' || c == '\U{000B}' || c == '\U{000C}' || c == '\r' ||
    c == ' ' || c == '\U{00A0}' || c == '\U{1680}' ||
    ('\U{2000}' <= c <= '\U{200A}') ||
    c == '\U{2028}' || c == '\U{2029}' || c == '\U{202F}' || c == '\U{205F}' ||
    c == '\U{3000}' || c == '\U{FEFF}'
  }

  /** Some character of `s` is not white space. */
  ghost predicate HasContent(s: string) {
    exists i :: 0 <= i < |s| && !IsWhiteSpace(s[i])
  }

  /** Drops the leading white space. */
  function TrimStart(s: string): string
  {
    if |s| > 0 && IsWhiteSpace(s[0]) then TrimStart(s[1..]) else s
  }

  /** Drops the trailing white space. */
  function TrimEnd(s: string): string
  {
    if |s| > 0 && IsWhiteSpace(s[|s| - 1]) then TrimEnd(s[..|s| - 1]) else s
  }

  /** `s.trim()`. */
  function Trim(s: string): string
  {
    TrimEnd(TrimStart(s))
  }

  /** Trimming the start leaves nothing exactly when `s` is all white space, and otherwise stops at a character that is not. */
  lemma {:induction false} TrimStartStops(s: string)
    ensures TrimStart(s) == [] <==> forall i :: 0 <= i < |s| ==> IsWhiteSpace(s[i])
    ensures TrimStart(s) != [] ==> !IsWhiteSpace(TrimStart(s)[0])
  {
    if |s| > 0 && IsWhiteSpace(s[0]) {
      TrimStartStops(s[1..]);
      assert forall i :: 1 <= i < |s| ==> s[i] == s[1..][i - 1];
    }
  }

  /** Trimming the end never removes a first character that is not white space. */
  lemma {:induction false} TrimEndKeepsFirst(s: string)
    requires s != [] && !IsWhiteSpace(s[0])
    ensures TrimEnd(s) != []
  {
    if |s| > 1 && IsWhiteSpace(s[|s| - 1]) {
      TrimEndKeepsFirst(s[..|s| - 1]);
    }
  }

  /**
   * `!s.trim()`: the trimmed string is empty (the only falsy string), which
   * happens exactly when every character of `s` is white space.
   */
  predicate IsBlank(s: string)
    ensures IsBlank(s) <==> !HasContent(s)
  {
    BlankIffAllWhiteSpace(s);
    Trim(s) == []
  }

  lemma BlankIffAllWhiteSpace(s: string)
    ensures Trim(s) == [] <==> forall i :: 0 <= i < |s| ==> IsWhiteSpace(s[i])
  {
    TrimStartStops(s);
    if TrimStart(s) != [] {
      TrimEndKeepsFirst(TrimStart(s));
    }
  }

  /** U+0131, the dotless small i, whose capital is the ASCII 'I'. */
  const DotlessI: char := '\U{0131}'
  /** U+017F, the long s, whose capital is the ASCII 'S'. */
  const LongS: char := '\U{017F}'

  /**
   * The characters whose upper case is a single ASCII letter other than
   * themselves: a-z, the dotless i and the long s.
   */
  predicate FoldsToAscii(c: char) {
    'a' <= c <= 'z' || c == DotlessI || c == LongS
  }

  /** Case folding of one character: each of `FoldsToAscii` becomes its capital, every other character is kept. */
  function UpperChar(c: char): (u: char)
  {
    if 'a' <= c <= 'z' then (c as int - 32) as char
    else if c == DotlessI then 'I'
    else if c == LongS then 'S'
    else c
  }

  /**
   * `s.toUpperCase()`, restricted to the characters whose capital is one ASCII
   * letter: none of them is left, no other character changes, and each
   * becomes its capital.
   */
  function Upper(s: string): (u: string)
    ensures |u| == |s|
    ensures forall i :: 0 <= i < |u| ==> !FoldsToAscii(u[i])
    ensures forall i :: 0 <= i < |s| && !FoldsToAscii(s[i]) ==> u[i] == s[i]
    ensures forall i :: 0 <= i < |s| && 'a' <= s[i] <= 'z' ==> u[i] as int + 32 == s[i] as int
    ensures forall i :: 0 <= i < |s| && s[i] == DotlessI ==> u[i] == 'I'
    ensures forall i :: 0 <= i < |s| && s[i] == LongS ==> u[i] == 'S'
  {
    seq(|s|, i requires 0 <= i < |s| => UpperChar(s[i]))
  }

  /** `d` is the capital of the lower-case `c`. */
  predicate CapitalOf(c: char, d: char) {
    ('a' <= c <= 'z' && d as int + 32 == c as int) || (c == DotlessI && d == 'I') || (c == LongS && d == 'S')
  }

  /**
   * Two characters are the same letter regardless of case when they are
   * equal, one is the other's capital, or both are small forms of 'I' or of 'S'.
   */
  predicate SameIgnoringCase(c: char, d: char) {
    c == d || CapitalOf(c, d) || CapitalOf(d, c) ||
    (c == 'i' && d == DotlessI) || (c == DotlessI && d == 'i') ||
    (c == 's' && d == LongS) || (c == LongS && d == 's')
  }

  /** Upper-casing is idempotent. */
  lemma UpperIdempotent(s: string)
    ensures Upper(Upper(s)) == Upper(s)
  {
  }

  /** Comparing upper-cased strings is comparing letter by letter regardless of case. */
  lemma UpperEqualIff(s: string, t: string)
    ensures Upper(s) == Upper(t) <==>
      (|s| == |t| && forall i :: 0 <= i < |s| ==> SameIgnoringCase(s[i], t[i]))
  {
    if Upper(s) == Upper(t) {
      forall i | 0 <= i < |s|
        ensures SameIgnoringCase(s[i], t[i])
      {
        assert Upper(s)[i] == Upper(t)[i];
      }
    }
    if |s| == |t| && forall i :: 0 <= i < |s| ==> SameIgnoringCase(s[i], t[i]) {
      forall i | 0 <= i < |s|
        ensures Upper(s)[i] == Upper(t)[i]
      {
        assert SameIgnoringCase(s[i], t[i]);
      }
    }
  }
}
