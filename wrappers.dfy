/** Failure-carrying values shared by every module: Swift's optionals and `throws` become these. */
module Wrappers {

  datatype Option<+T> = None | Some(value: T)

  /** The outcome of a Swift call that `throws`: the returned value or the thrown error. */
  datatype Result<+T, +E> = Success(value: T) | Failure(error: E)
}
