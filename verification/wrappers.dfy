/** Swift's `Optional`, as used by the modelled code (`nil` is `None`). */
module Wrappers {

  datatype Option<T> = None | Some(value: T) {

    /** The nil-coalescing operator `self ?? default`. */
    function GetOr(default: T): (r: T)
      ensures Some? ==> r == value
      ensures None? ==> r == default
    {
      match this
      case Some(v) => v
      case None => default
    }
  }
}
