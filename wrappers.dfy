/** Optional values (Java's nullable references) and pass/fail outcomes (Java's exceptions). */
module Wrappers {

  /** `None` stands for a Java `null` or an absent binding. */
  datatype Option<+T> = None | Some(value: T) {
    /** The value, or `default` when absent: `Optional.orElse`. */
    function GetOr(default: T): T {
      match this
      case Some(v) => v
      case None => default
    }
  }

  /** A value returned normally, or the `error` thrown instead. */
  datatype Result<+T, +E> = Success(value: T) | Failure(error: E)

  /** A call that returned normally, or one that threw `error`. */
  datatype Outcome<+E> = Pass | Fail(error: E)
}
