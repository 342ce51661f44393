/** Small value types shared by the MPD client model. */
module Basics {

  /** An optional value, as Rust's `Option`. */
  datatype Option<T> = None | Some(value: T)

  /** A success value or an error, as Rust's `Result`. */
  datatype Result<T, E> = Ok(value: T) | Err(error: E)

  /** One octet read from the TCP stream. */
  type byte = b: int | 0 <= b < 0x100

  /** `s` begins with `prefix`: Rust's `starts_with` on byte slices and on strings. */
  predicate StartsWith<T(==)>(s: seq<T>, prefix: seq<T>) {
    |prefix| <= |s| && s[..|prefix|] == prefix
  }
}
