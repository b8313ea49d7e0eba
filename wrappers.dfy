/** Option, Result and Outcome: the values a wrapper call produces in place of a raised exception. */
module Wrappers {

  datatype Option<+T> = None | Some(value: T)

  /** The result of a call that returns a value or raises. */
  datatype Result<+T, +E> = Ok(value: T) | Err(error: E)

  /** The result of a call that returns nothing or raises. */
  datatype Outcome<+E> = Pass | Fail(error: E)
}
