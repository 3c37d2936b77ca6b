/** Failure-carrying result types shared by every module of the model.
    `Result` stands for Go's `(value, error)` pairs: the error is the text
    that `err.Error()` would give. */
module Wrappers {

  datatype Option<+T> = None | Some(value: T)

  datatype Result<+T> = Success(value: T) | Failure(error: string) {
    predicate IsFailure() { Failure? }
  }
}
