/** Failure-carrying result types shared by the other modules. */
module Wrappers {

  datatype Option<+T> = None | Some(value: T)

  /** A value, or the error the Python code would have raised instead. */
  datatype Result<+T, +E> = Ok(value: T) | Err(error: E)
}
