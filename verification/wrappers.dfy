/** Option and Result datatypes shared by the other modules. */
module Wrappers {

  /** A value that may be missing, as Python's `None` default arguments are. */
  datatype Option<+T> = None | Some(value: T)

  /** Either a value or the error that prevented computing it. */
  datatype Result<+T, +E> = Ok(value: T) | Err(error: E)
}
