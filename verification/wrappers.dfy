/** Failure-compatible wrappers shared by every module of the model.
    `Option` stands for a JavaScript value that may be `null` or `undefined`;
    `Result` stands for a promise that either resolves or rejects with a message. */
module Wrappers {

  datatype Option<+T> = None | Some(value: T) {

    /** The wrapped value, or `default` when there is none. */
    function GetOr(default: T): T {
      match this
      case Some(v) => v
      case None => default
    }
  }

  datatype Result<+R, +E> = Success(value: R) | Failure(error: E)
}
