/** Values shared by every part of the model: optional values, results, and the
    JavaScript notion of a "truthy" string used by the `||` fallbacks. */
module Base {

  /** An optional value; `None` stands for JavaScript's `undefined`/`null`,
      Python's `None`, or an argument that was left out. */
  datatype Option<+T> = None | Some(value: T)

  /** The outcome of an operation that may fail (a resolved or rejected promise,
      a returned value or a raised exception). */
  datatype Result<+T, +E> = Ok(value: T) | Err(error: E)

  /** A string-valued field read with optional chaining is truthy iff it is
      present and not the empty string. */
  predicate Truthy(s: Option<string>)
  {
    s.Some? && s.value != ""
  }

  /** JavaScript's `s || fallback` for an optional string. */
  function OrElse(s: Option<string>, fallback: string): (r: string)
    ensures Truthy(s) ==> r == s.value
    ensures !Truthy(s) ==> r == fallback
    ensures fallback != "" ==> r != ""
  {
    if Truthy(s) then s.value else fallback
  }

  /** JavaScript's `n || fallback` for a number: zero is falsy. */
  function OrElseNumber(n: int, fallback: int): (r: int)
    ensures n != 0 ==> r == n
    ensures n == 0 ==> r == fallback
  {
    if n != 0 then n else fallback
  }
}
