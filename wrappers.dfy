/** Small value types shared by every module of the model. */
module Wrappers {

  datatype Option<T> = None | Some(value: T)

  /** What a Python call does: it returns a value or raises an exception.
      Which exception is raised never matters to the code modelled here. */
  datatype Outcome<T> = Returns(value: T) | Raises

  /** Python's `s.startswith(p)`. */
  predicate StartsWith(s: string, p: string) {
    |p| <= |s| && s[..|p|] == p
  }

  /** Python's `s.endswith(p)`. */
  predicate EndsWith(s: string, p: string) {
    |p| <= |s| && s[|s| - |p|..] == p
  }

  /** Python's `sub in s` on strings. */
  predicate Contains(s: string, sub: string)
    decreases |s|
  {
    StartsWith(s, sub) || (|s| > 0 && Contains(s[1..], sub))
  }
}
