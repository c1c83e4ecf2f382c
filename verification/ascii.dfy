/** The few ASCII character facts the feature names are stated in. */
module Ascii {

  /** Lower-case ASCII letter. */
  predicate IsLowerLetter(c: char) {
    'a' <= c <= 'z'
  }

  /** A canonical feature name: non-empty, made only of lower-case ASCII
      letters and underscores. */
  predicate IsSnakeName(s: string) {
    |s| > 0 && forall c :: c in s ==> IsLowerLetter(c) || c == '_'
  }

  /** Lower-casing restricted to ASCII: an upper-case letter moves down by
      32 code points, every other character is kept. */
  function LowerChar(c: char): char {
    if 'A' <= c <= 'Z' then (c as int + 32) as char else c
  }

  /** Lower-cases every character of `s`, position by position. */
  function ToLower(s: string): string {
    seq(|s|, i requires 0 <= i < |s| => LowerChar(s[i]))
  }

}
