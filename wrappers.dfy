/** Failure-compatible datatypes shared by every module of the model. */
module Wrappers {

  /** A value that may be absent: an optional property or `undefined` in the source. */
  datatype Option<+T> = None | Some(value: T) {
    function GetOr(default: T): T {
      match this
      case Some(v) => v
      case None => default
    }
  }

  /** The outcome of an operation that may fail with an error of type E. */
  datatype Result<+T, +E> = Success(value: T) | Failure(error: E)

  /**
   * What a `catch` clause receives: an `Error` object carrying a message, or
   * some other thrown value, for which the source substitutes a fixed message.
   */
  datatype Thrown = ErrorObject(message: string) | NonError {
    /** `error instanceof Error ? error.message : default` */
    function MessageOr(default: string): string {
      match this
      case ErrorObject(m) => m
      case NonError => default
    }
  }
}
