/** Optional values. In this model `None` stands for JavaScript's `null`,
    `undefined` or, for numbers, `NaN`; each use says which. */
module Wrappers {

  datatype Option<+T> = None | Some(value: T) {

    /** The value, or `default` when absent (JavaScript's `x || default` on a
        value that is falsy only when absent). */
    function GetOr(default: T): T
    {
      match this
      case Some(v) => v
      case None => default
    }
  }
}
