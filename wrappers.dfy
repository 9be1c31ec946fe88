/** Optional values and outcomes shared by the DevTools and todo-app models. */
module Wrappers {

  /** A value that may be absent: TypeScript's `T | undefined`. */
  datatype Option<+T> = None | Some(value: T) {

    /** The value when present, otherwise `fallback`: TypeScript's `value ?? fallback`. */
    function GetOr(fallback: T): (r: T)
      ensures Some? ==> r == value
      ensures None? ==> r == fallback
    {
      match this
      case Some(v) => v
      case None => fallback
    }
  }

  /** The outcome of an awaited call: the resolved value or the rejection reason. */
  datatype Result<+R, +E> = Success(value: R) | Failure(error: E)
}
