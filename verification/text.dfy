/** Small text predicates over `string` (a `seq<char>`). */
module Text {

  /** Rust's `str::starts_with`: `prefix` is an initial segment of `s`. */
  predicate StartsWith(s: string, prefix: string) {
    prefix <= s
  }

  predicate IsIdentChar(c: char) {
    || ('a' <= c <= 'z')
    || ('A' <= c <= 'Z')
    || ('0' <= c <= '9')
    || c == '_'
  }

  /** A bare identifier: non-empty, letters, digits and underscores only
      (so in particular no `<` and no `:`). */
  predicate IsIdentifier(s: string) {
    |s| > 0 && forall i :: 0 <= i < |s| ==> IsIdentChar(s[i])
  }
}
