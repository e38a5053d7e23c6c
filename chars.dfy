/** The character classifier of the lexer, the current-character slot with
    its end-of-input sentinel, and the maximal-munch run that every
    sub-scanner consumes. */
module Chars {

  /** The current character: a real character or the end sentinel 0. */
  datatype Ch = Char(c: char) | End

  /** The character at index `i`, or the sentinel past the end of input. */
  function CharAt(input: string, i: nat): (ch: Ch)
    ensures ch.End? <==> i >= |input|
    ensures ch.Char? ==> ch.c == input[i]
  {
    if i >= |input| then End else Char(input[i])
  }

  /** `[A-Za-z_]`. */
  predicate IsLetter(ch: Ch)
  {
    ch.Char? && ('a' <= ch.c <= 'z' || 'A' <= ch.c <= 'Z' || ch.c == '_')
  }

  /** `\d`, which in this regex dialect is `[0-9]`; the sentinel is
      rejected explicitly. */
  predicate IsDigit(ch: Ch)
  {
    ch.Char? && '0' <= ch.c <= '9'
  }

  /** `\s`: the white space and line terminator characters of ECMAScript. */
  predicate IsWhitespace(ch: Ch)
  {
    ch.Char? &&
    ('\t' <= ch.c <= '\r' || ch.c == ' ' || ch.c == '\U{00A0}' || ch.c == '\U{1680}' ||
     '\U{2000}' <= ch.c <= '\U{200A}' || ch.c == '\U{2028}' || ch.c == '\U{2029}' ||
     ch.c == '\U{202F}' || ch.c == '\U{205F}' || ch.c == '\U{3000}' || ch.c == '\U{FEFF}')
  }

  /** Inside a string literal: any real character but the double quote. */
  predicate InString(ch: Ch)
  {
    ch.Char? && ch.c != '"'
  }

  /** The three classes are pairwise disjoint and none holds the sentinel. */
  lemma ClassesDisjoint(ch: Ch)
    ensures !(IsLetter(ch) && IsDigit(ch))
    ensures !(IsLetter(ch) && IsWhitespace(ch))
    ensures !(IsDigit(ch) && IsWhitespace(ch))
    ensures !IsLetter(End) && !IsDigit(End) && !IsWhitespace(End) && !InString(End)
  {
  }

  /** The character classes a sub-scanner consumes: identifier letters,
      digits, whitespace, and the body of a string literal. */
  datatype Class = Letters | Digits | Spaces | Unquoted

  predicate InClass(ch: Ch, k: Class)
  {
    match k
    case Letters => IsLetter(ch)
    case Digits => IsDigit(ch)
    case Spaces => IsWhitespace(ch)
    case Unquoted => InString(ch)
  }

  /** The end of the longest run of characters in class `k` that starts at
      index `i`: every index in between is in class, and the character at
      the end (possibly the sentinel) is not. */
  function RunEnd(input: string, i: nat, k: Class): (j: nat)
    ensures i <= j
    ensures i < j ==> j <= |input|
    ensures forall m :: i <= m < j ==> InClass(CharAt(input, m), k)
    ensures !InClass(CharAt(input, j), k)
    decreases |input| - i
  {
    if InClass(CharAt(input, i), k) then RunEnd(input, i + 1, k) else i
  }

  /** The run is determined by its two defining properties. */
  lemma {:induction false} RunEndUnique(input: string, i: nat, k: Class, j: nat)
    requires i <= j
    requires forall m :: i <= m < j ==> InClass(CharAt(input, m), k)
    requires !InClass(CharAt(input, j), k)
    ensures RunEnd(input, i, k) == j
    decreases j - i
  {
    if i < j {
      RunEndUnique(input, i + 1, k, j);
    }
  }

  /** A run that starts on a character in class is not empty. */
  lemma RunEndProgress(input: string, i: nat, k: Class)
    requires InClass(CharAt(input, i), k)
    ensures i < RunEnd(input, i, k) <= |input|
  {
  }

  /** `String.prototype.substring`: both bounds clamped to the length, and
      swapped when the start lies beyond the end. */
  function Substring(s: string, start: nat, end: nat): (r: string)
    ensures start <= end <= |s| ==> r == s[start..end]
    ensures |s| <= start && |s| <= end ==> r == []
  {
    var a := if start < |s| then start else |s|;
    var b := if end < |s| then end else |s|;
    if a <= b then s[a..b] else s[b..a]
  }
}
