/** Small result wrappers shared by every module of the model. */
module Wrappers {
  /** A value that may be absent (Python's `None`). */
  datatype Option<T> = None | Some(value: T)
  {
    /** The value, or `default` when absent (Python's `x if x is not None else default`). */
    function GetOr(default: T): T
    {
      if Some? then value else default
    }
  }
}
