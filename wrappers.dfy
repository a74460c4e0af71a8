/** Option stands in for a C# reference that may be null; Result stands in for
    a call that may throw and otherwise returns a value, Outcome for one that
    may throw and returns nothing. */
module Wrappers {

  datatype Option<+T> = None | Some(value: T)

  datatype Result<+T, +E> = Ok(value: T) | Err(error: E)

  datatype Outcome<+E> = Pass | Fail(error: E)
}
