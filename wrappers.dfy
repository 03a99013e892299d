/** Failure-carrying values shared by every part of the model. */
module Wrappers {

  /** Python's `None` or a present value. */
  datatype Option<+T> = None | Some(value: T)

  /** A generated artefact or the human-readable message of the error path
      (`handle_error_message` / `handle_validate_message` and KeyError). */
  datatype Result<+T> = Ok(value: T) | Err(message: string)
}
