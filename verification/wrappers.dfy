/** Optional values, standing in for the NULL pointers the host passes around. */
module Wrappers {

  datatype Option<+T> = None | Some(value: T) {

    /** What a NULL-or-value gives a caller that wants a plain value: the value if present, else the fallback `default`. */
    function GetOr(default: T): T {
      match this
      case Some(v) => v
      case None => default
    }
  }
}
