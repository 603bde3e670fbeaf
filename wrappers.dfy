/** Optional values and the values a JavaScript `throw` carries. */
module Wrappers {

  /** A value that may be absent (`undefined` or `null` in the source). */
  datatype Option<+T> = None | Some(value: T) {
    function GetOr(default: T): T {
      match this
      case Some(v) => v
      case None => default
    }
  }

  /** A computation that either returns a value or throws. */
  datatype Result<+T, +E> = Ok(value: T) | Err(error: E)

  /**
   * What a `catch (err)` clause receives: an `Error` object with its
   * `message`, or some other thrown value.
   */
  datatype Exception = Error(message: string) | NonError {
    /** `err instanceof Error ? err.message : fallback` */
    function MessageOr(fallback: string): string {
      match this
      case Error(m) => m
      case NonError => fallback
    }
  }

  /** How an awaited call ends: it completes, or it throws. */
  datatype Outcome = Completed | Threw(ex: Exception)
}
