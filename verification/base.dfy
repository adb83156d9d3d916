/** Values shared by every part of the model: Python's optional values, the
    outcome of a call that may raise, bytes, and `str.startswith`. */
module Base {

  /** A value that may be Python's `None`. */
  datatype Option<+T> = None | Some(value: T)

  /** The outcome of a Python call: the value it returned, or the exception it
      raised, represented by the exception's `str()`. */
  datatype Result<+T> = Ok(value: T) | Raised(cause: string)

  newtype byte = x: int | 0 <= x < 256

  /** `s.startswith(prefix)`: an exact, case-sensitive comparison of the first
      `|prefix|` characters. */
  predicate StartsWith(s: string, prefix: string)
  {
    |prefix| <= |s| && s[..|prefix|] == prefix
  }
}
