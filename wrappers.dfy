/** Optional values: Python's `None` versus a present value. */
module Wrappers {
  datatype Option<+T> = None | Some(value: T) {
    /** The value if present, else `default` (Python's `dict.get(key, default)`). */
    function GetOr(default: T): T
    {
      match this
      case Some(v) => v
      case None => default
    }
  }
}
