/** An optional value, standing for Python's `None` and for lookups that can miss. */
module Wrappers {
  datatype Option<T> = None | Some(value: T)
  {
    function GetOr(default: T): T
    {
      if Some? then value else default
    }
  }
}
