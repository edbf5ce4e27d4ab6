/**
 * The few string operations of plexus-utils `StringUtils` and `java.lang.String`
 * that the widget makers rely on. Letters are lower-cased on ASCII only.
 */
module Text {

  /** `s.startsWith(prefix)` */
  predicate StartsWith(s: string, prefix: string) {
    |prefix| <= |s| && s[..|prefix|] == prefix
  }

  /**
   * `StringUtils.isEmpty` of plexus-utils: null, or nothing left after
   * `String.trim`, which strips every character up to U+0020. It is NOT the
   * negation of `IsNotEmpty`, which does not trim.
   */
  predicate IsEmptyTrimmed(s: string) {
    forall i :: 0 <= i < |s| ==> s[i] as int <= 32
  }

  /** `StringUtils.isNotEmpty`; a `null` annotation value behaves exactly as "". */
  predicate IsNotEmpty(s: string) {
    |s| > 0
  }

  /** `Character.isWhitespace` restricted to ASCII. */
  predicate IsWhitespace(c: char) {
    c == ' ' || (9 <= c as int <= 13) || (28 <= c as int <= 31)
  }

  /** `StringUtils.isNotBlank`: some character is not whitespace. */
  predicate IsNotBlank(s: string) {
    exists i :: 0 <= i < |s| && !IsWhitespace(s[i])
  }

  /** `Character.toLowerCase` restricted to ASCII letters. */
  function ToLower(c: char): (r: char)
    ensures 'A' <= c <= 'Z' ==> 'a' <= r <= 'z' && r as int == c as int + 32
    ensures !('A' <= c <= 'Z') ==> r == c
  {
    if 'A' <= c <= 'Z' then (c as int + 32) as char else c
  }

  /** `StringUtils.uncapitalise`: lower-cases the first character, nothing else. */
  function Uncapitalise(s: string): (r: string)
    ensures |r| == |s|
    ensures |s| > 0 ==> r[0] == ToLower(s[0]) && r[1..] == s[1..]
    ensures forall i :: 0 < i < |s| ==> r[i] == s[i]
  {
    if s == [] then [] else [ToLower(s[0])] + s[1..]
  }
}
