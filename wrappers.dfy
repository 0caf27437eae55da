/** An optional value and a value-or-error, shared by the modules of the model. */
module Wrappers {

  /** Python's `None` next to a present value. */
  datatype Option<+T> = None | Some(value: T)

  /** A value or the error that stood in its place. */
  datatype Result<+T, +E> = Ok(value: T) | Err(error: E)
}
