/** Values that stand for JavaScript's `undefined` and for thrown errors. */
module Wrappers {

  /** An optional value: `None` is an omitted argument or `undefined`. */
  datatype Option<+T> = None | Some(value: T)

  /** The outcome of an operation that either returns a value or throws. */
  datatype Result<+T, +E> = Ok(value: T) | Err(error: E)
}
