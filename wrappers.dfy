/** Kotlin's nullable values: `T?` becomes `Option<T>` and the elvis operator `?:` becomes `GetOr`. */
module Wrappers {

  datatype Option<+T> = None | Some(value: T) {

    /** `this ?: default` */
    function GetOr(default: T): (r: T)
      ensures Some? ==> r == value
      ensures None? ==> r == default
    {
      match this
      case Some(v) => v
      case None => default
    }
  }
}
