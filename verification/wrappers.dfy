/** Optional values and results carrying an error description. */
module Wrappers {

  /** Python's `Optional[T]`: `None` or a present value. */
  datatype Option<+T> = None | Some(value: T)

  /** The outcome of a step that may raise: a value, or the raised error. */
  datatype Result<+R, +E> = Success(value: R) | Failure(error: E)
}
