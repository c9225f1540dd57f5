/** Optional values and results with an error, shared by the modules of this model. */
module Wrappers {

  /** A value that may be absent: JavaScript's `undefined`/`null`, or an optional argument. */
  datatype Option<+T> = None | Some(value: T)

  /** The outcome of an operation that can throw: the value it returns or the error it raises. */
  datatype Result<+T, +E> = Ok(value: T) | Err(error: E)
}
