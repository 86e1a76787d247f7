/** Failure-carrying datatypes shared by the other modules. */
module Wrappers {

  /** A value that may be absent: a dictionary key that may be missing. */
  datatype Option<+T> = None | Some(value: T)

  /** Either a value or the reason there is none. */
  datatype Result<+T, +E> = Ok(value: T) | Err(error: E)
}
