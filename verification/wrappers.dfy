/** Optional values: Kotlin's nullable types (`T?`) and its elvis operator `?:`. */
module Wrappers {

  datatype Option<+T> = None | Some(value: T) {

    /** `x ?: fallback`: the value if there is one, otherwise the fallback. */
    function OrElse(fallback: T): T {
      match this
      case Some(v) => v
      case None => fallback
    }
  }
}
