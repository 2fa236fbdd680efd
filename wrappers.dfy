/** Option and Result, used for Python's `None` and for raised exceptions. */
module Wrappers {

  datatype Option<+T> = None | Some(value: T)

  /** `Failure(e)` stands for an exception whose `str()` is `e`. */
  datatype Result<+R, +E> = Success(value: R) | Failure(error: E)
}
