// The optional value and the success-or-error result used across the model:
// a JavaScript value that may be null, and an outcome that may be an error.

module Wrappers {

  datatype Option<T> = None | Some(value: T)

  datatype Result<T, E> = Ok(value: T) | Err(error: E)
}
