/** A value that may be missing: JavaScript's `null`/`undefined`, or `NaN`
    where a number could not be read. */
module Opt {

  datatype Option<T> = None | Some(value: T) {

    function GetOr(default: T): (r: T)
      ensures Some? ==> r == value
      ensures None? ==> r == default
    {
      match this
      case Some(v) => v
      case None => default
    }
  }
}
