/** Optional values and the (value, error) pair a Go call returns. */
module Wrappers {

  datatype Option<+T> = None | Some(value: T)

  /** `Failure(e)` stands for a non-nil Go `error` whose `Error()` text is `e`. */
  datatype Result<+T> = Success(value: T) | Failure(error: string)
}
