/** Option and Result types shared by the registry commands, and the ways a
    command can fail. */
module Wrappers {

  datatype Option<T> = None | Some(value: T) {
    /** The wrapped value, or `default` when there is none (Rust's `unwrap_or`). */
    function GetOr(default: T): T {
      match this
      case Some(v) => v
      case None => default
    }
  }

  /** Why a command failed.
      - Transport: the HTTP request itself failed (`send().await?`).
      - Parse: the response body was not JSON (`response.json().await?`).
      - Io: a filesystem operation failed.
      - Failure: the command's own error, carrying its message. */
  datatype Error = Transport | Parse | Io | Failure(message: string)

  datatype Result<T> = Ok(value: T) | Err(error: Error)
}
