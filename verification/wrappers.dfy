/** An optional value: a request field that may be missing, a pin write that may not happen. */
module Wrappers {

  /** `None` when there is nothing (no field in a request, no write to the pin). */
  datatype Option<+T> = None | Some(value: T) {

    /** The wrapped value, or `default` when there is none. */
    function GetOr(default: T): (r: T)
      ensures Some? ==> r == value
      ensures None? ==> r == default
    {
      match this
      case Some(v) => v
      case None => default
    }
  }
}
