/** Strings as JavaScript indexes them. */
module Utf16 {
  /** A UTF-16 code unit. */
  type Unit = x: int | 0 <= x < 0x10000

  type Text = seq<Unit>

  predicate StartsWith(s: Text, prefix: Text) { prefix <= s }
}
