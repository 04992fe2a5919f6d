/**
 * `Option` and `failure::Fallible`: the source returns errors with `?`, and the
 * model carries them as values. An error is represented by its display text.
 */
module Errors {

  datatype Option<T> = None | Some(value: T)

  type Error = string

  datatype Fallible<T> = Ok(value: T) | Err(error: Error)

  /** `Fallible<()>`: a step that either succeeds or fails with an error. */
  datatype Outcome = Pass | Fail(error: Error)
}
