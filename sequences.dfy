/** Sequence helpers shared by the byte-level and string-level code. */
module Sequences {

  /** Python's `s.startswith(prefix)`, for bytes and for strings alike. */
  predicate StartsWith<T(==)>(s: seq<T>, prefix: seq<T>)
  {
    |prefix| <= |s| && s[..|prefix|] == prefix
  }
}
