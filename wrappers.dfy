/** The one optional-value type the model needs. */
module Wrappers {

  datatype Option<+T> = None | Some(value: T) {

    /** The value held, or a default when there is none. */
    function GetOr(default: T): T
    {
      match this
      case Some(v) => v
      case None => default
    }
  }
}
