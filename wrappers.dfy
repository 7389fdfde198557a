/** Option and Result: the absent value (`null`/`undefined`) and the thrown error of the source. */
module Wrappers {

  /** `None` stands for JavaScript's `null` or `undefined`. */
  datatype Option<+T> = None | Some(value: T)

  /** `Err` stands for an exception thrown (or a promise rejected) with the given error. */
  datatype Result<+T, +E> = Ok(value: T) | Err(error: E)
}
