/** Optional values and results with an error message, used for the
    dispatcher's optional request fields and for everything that can throw. */
module Wrappers {

  /** A value that may be absent (a TypeScript `?:` property). */
  datatype Option<T> = None | Some(value: T) {
    /** The value, or `default` when absent. */
    function GetOr(default: T): T {
      match this
      case Some(v) => v
      case None => default
    }
  }

  /** A computation that either returns a value or throws with an error. */
  datatype Result<T, E> = Success(value: T) | Failure(error: E)
}
