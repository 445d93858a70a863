/** Optional values: a field or argument that is `undefined` in the library is `None` here. */
module Nullish {

  datatype Option<T> = None | Some(value: T) {

    /** `x ?? default` when the default is always present. */
    function GetOr(default: T): T
    {
      match this
      case Some(v) => v
      case None => default
    }
  }

  /** `a ?? b` on two values that may both be absent. */
  function Coalesce<T>(a: Option<T>, b: Option<T>): Option<T>
  {
    if a.Some? then a else b
  }
}
