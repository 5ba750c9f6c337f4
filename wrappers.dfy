/** Option and Result, the two failure-carrying datatypes the model uses. */
module Wrappers {

  datatype Option<+T> = None | Some(value: T)

  /** The outcome of a step that can raise: the value, or the fault it raised. */
  datatype Result<+T, +E> = Ok(value: T) | Err(error: E)
}
