/** Small value wrappers and sequence predicates shared by every module of
    the model. */
module Common {

  /** An optional value: `null`/`undefined` in the application. */
  datatype Option<+T> = None | Some(value: T) {
    function GetOr(default: T): T {
      match this
      case Some(v) => v
      case None => default
    }
  }

  /** What a key of the browser's key-value store holds: nothing (or an empty
      string, which the application treats the same way), a value that parses,
      or text that the JSON parser rejects. */
  datatype Stored<+T> = Missing | Parsed(value: T) | Corrupt

  /** `r` is `s` with some elements left out, the rest kept in order. */
  predicate IsSubsequence<T(==)>(r: seq<T>, s: seq<T>)
    decreases |s|
  {
    r == [] || (s != [] && ((r[0] == s[0] && IsSubsequence(r[1..], s[1..])) || IsSubsequence(r, s[1..])))
  }
}
