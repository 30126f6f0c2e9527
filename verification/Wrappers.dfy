/** Stand-ins for the source's optional values, raised errors and text helpers. */
module Wrappers {
  datatype Option<+T> = None | Some(value: T)

  datatype Result<+T, +E> = Ok(value: T) | Err(error: E)

  /** Python's `a or b` on optional strings: an empty string counts as absent. */
  function OrElse(a: Option<string>, b: Option<string>): Option<string> {
    if Present(a) then a else b
  }

  predicate Present(a: Option<string>) {
    a.Some? && a.value != ""
  }
}
