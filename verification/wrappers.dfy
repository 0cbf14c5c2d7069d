/** Failure-carrying wrappers shared by the whole model.
    `Option` stands for Go's nilable values (a nil `error` is `None`),
    `Result` for Go's `(value, error)` pairs where exactly one side matters. */
module Wrappers {

  datatype Option<+T> = None | Some(value: T)

  datatype Result<+R, +E> = Success(value: R) | Failure(error: E)
}
