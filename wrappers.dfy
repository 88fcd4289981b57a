/** Optional values: a JavaScript property that may be unset. */
module Wrappers {
  datatype Option<+T> = None | Some(value: T)
  {
    /** `o || d` for an option holding a JavaScript value whose only falsy form is unset. */
    function GetOr(default: T): T
    {
      match this
      case Some(v) => v
      case None => default
    }
  }
}
