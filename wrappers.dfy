/** Option and Result, used for optional arguments and for the errors the
    library raises. */
module Wrappers {

  datatype Option<+T> = None | Some(value: T)

  datatype Result<+T, +E> = Ok(value: T) | Err(error: E)

  /** A result that carries no value: the outcome of a call that only changes state. */
  datatype Outcome<+E> = Pass | Fail(error: E)
}
