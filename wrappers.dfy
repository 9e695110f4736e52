/** The optional value used for Python arguments that may be None. */
module Wrappers {

  datatype Option<+T> = None | Some(value: T)
  {
    /** The value, or the given default when there is none. */
    function GetOr(default: T): T
    {
      match this
      case Some(v) => v
      case None => default
    }
  }
}
