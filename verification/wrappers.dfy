/** A value that may be absent: the model's stand-in for a .NET reference that may be null. */
module Wrappers {
  datatype Option<T> = None | Some(value: T) {
    /** The value, or `default` when it is absent (the source's null check with a fallback). */
    function GetOr(default: T): (r: T)
      ensures Some? ==> r == value
      ensures None? ==> r == default
    {
      if Some? then value else default
    }
  }
}
