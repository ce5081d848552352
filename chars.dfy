/**
 * Character classes used by the scanner, and the end of a maximal run of
 * characters of one class, which every accumulating loop of the scanner
 * computes.
 */
module Chars {

  /** The characters `skip_char` accepts: they separate tokens and produce nothing. */
  predicate IsWhitespace(c: char) {
    c == ' ' || c == '\n' || c == '\r' || c == '\t'
  }

  /** `char::is_ascii_digit`. */
  predicate IsDigit(c: char) {
    '0' <= c <= '9'
  }

  /** `char::is_alphabetic`, restricted to ASCII letters. */
  predicate IsAlpha(c: char) {
    'a' <= c <= 'z' || 'A' <= c <= 'Z'
  }

  /** A character that may begin an identifier. */
  predicate IsIdentStart(c: char) {
    IsAlpha(c) || c == '_'
  }

  /** `is_alphanumeric() || c == '_'`, restricted to ASCII: a character that may continue an identifier. */
  predicate IsIdentChar(c: char) {
    IsAlpha(c) || IsDigit(c) || c == '_'
  }

  /** Any character but the double quote: the body of a string literal. */
  predicate NotQuote(c: char) {
    c != '"'
  }

  /**
   * The index just past the longest run of `inRun` characters of `s` that
   * starts at `j`.
   */
  function RunEnd(s: string, j: nat, inRun: char -> bool): (e: nat)
    requires j <= |s|
    ensures j <= e <= |s|
    ensures forall k :: j <= k < e ==> inRun(s[k])
    ensures e == |s| || !inRun(s[e])
    decreases |s| - j
  {
    if j < |s| && inRun(s[j]) then RunEnd(s, j + 1, inRun) else j
  }

  /** The three facts RunEnd promises determine it. */
  lemma RunEndIs(s: string, j: nat, inRun: char -> bool, e: nat)
    requires j <= e <= |s|
    requires forall k :: j <= k < e ==> inRun(s[k])
    requires e == |s| || !inRun(s[e])
    ensures RunEnd(s, j, inRun) == e
  {
  }
}
