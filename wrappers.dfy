/** Option and JavaScript-style outcome wrappers shared by every module. */
module Wrappers {

  datatype Option<+T> = None | Some(value: T) {
    /** `value ?? fallback` */
    function GetOr(fallback: T): (r: T)
      ensures Some? ==> r == value
      ensures None? ==> r == fallback
    {
      match this
      case Some(v) => v
      case None => fallback
    }
  }

  /** The outcome of a JavaScript/Python call: a value, or an exception with its message. */
  datatype Outcome<+T> = Returns(value: T) | Throws(message: string)
}
