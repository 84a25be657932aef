/** Failure-carrying datatypes used throughout the model: an optional value and
    a value-or-error result. A Python exception raised inside a handler's `try`
    block becomes the `Failure` arm of a `Result`. */
module Wrappers {

  datatype Option<+T> = None | Some(value: T)

  datatype Result<+T, +E> = Success(value: T) | Failure(error: E)
}
