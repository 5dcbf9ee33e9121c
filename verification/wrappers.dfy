/** Failure-carrying datatypes shared by the whole model. */
module Wrappers {

  /** A value that may be absent; `None` plays the role of JavaScript `null`. */
  datatype Option<+T> = None | Some(value: T)

  /** The outcome of an operation that either returns a value or throws. */
  datatype Result<+R, +E> = Ok(value: R) | Err(error: E)
}
