/** Failure-compatible wrappers shared by every module: `Option` stands for a
    JavaScript value that may be `null`/`undefined`, `Result` for a call that
    may throw. */
module Wrappers {

  datatype Option<+T> = None | Some(value: T)

  datatype Result<+T, +E> = Success(value: T) | Failure(error: E) {
    predicate IsFailure() { Failure? }
  }
}
