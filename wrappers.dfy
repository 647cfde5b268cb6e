/** Small value wrappers shared by the model. */
module Wrappers {

  /** A value that may be absent: C#'s `null`, and `bool?` as `Option<bool>`. */
  datatype Option<+T> = None | Some(value: T)
  {
    /** C#'s `x ?? fallback`. */
    function GetOr(fallback: T): T
    {
      match this
      case Some(v) => v
      case None => fallback
    }
  }
}
