/** Optional values, for the places where the source uses null, undefined or a missing key. */
module Wrappers {
  datatype Option<T> = None | Some(value: T)
  {
    function GetOr(default: T): (r: T)
      ensures Some? ==> r == value
      ensures None? ==> r == default
    {
      match this
      case None => default
      case Some(v) => v
    }
  }

  /** A browser storage entry: absent, holding text that does not parse, or holding a value. */
  datatype Stored<T> = Absent | Corrupt | Present(value: T)
}
