/** Values of the JavaScript world that the three core files share. */
module Js {

  /** A value that may be `undefined`. */
  datatype Option<T> = None | Some(value: T) {
    /** `x ?? fallback`. */
    function GetOr(fallback: T): T {
      if Some? then value else fallback
    }
  }

  /** What awaiting a call into code outside this repository yields: a value, or a thrown exception. */
  datatype Outcome<T> = Returns(value: T) | Throws

  /** The `ok(...)` / `err(...)` result of the neverthrow library. */
  datatype Result<T, E> = Ok(value: T) | Err(error: E)

  /** `s || fallback` for an optional string: `undefined` and `''` are both falsy. */
  function OrElse(s: Option<string>, fallback: string): (r: string)
    ensures r == fallback || (s == Some(r) && r != "")
    ensures r != fallback ==> s == Some(r)
    ensures s.Some? && s.value != "" ==> r == s.value
  {
    if s.Some? && s.value != "" then s.value else fallback
  }
}
