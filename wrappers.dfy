/** An optional value: JavaScript's `undefined` (a missing key, a `find`
    that matched nothing, an omitted field of a `Partial<...>`). */
module Wrappers {

  datatype Option<+T> = None | Some(value: T) {

    /** The value, or `default` when there is none (the `...` spread of an
        object whose key may be missing). */
    function GetOr(default: T): T {
      match this
      case Some(v) => v
      case None => default
    }
  }
}
