/** The optional-value datatype used throughout the model. */
module Wrappers {

  /** Some value, or nothing (Python's `None` where the source returns it). */
  datatype Option<+T> = None | Some(value: T) {

    /** The carried value, or `default` when there is none. */
    function GetOr(default: T): (r: T)
      ensures Some? ==> r == value
      ensures None? ==> r == default
    {
      match this
      case Some(v) => v
      case None => default
    }
  }
}
