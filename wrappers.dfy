/** The two tagged results every module uses in place of Python's None and exceptions. */
module Wrappers {

  /** A value that may be absent (Python's `None` or a failed lookup). */
  datatype Option<+T> = None | Some(value: T)

  /** Either a value or the error the source would have raised. */
  datatype Result<+T, +E> = Ok(value: T) | Err(error: E)
}
