/** The absent-or-present value that stands in for a Java reference that may be null
    and for java.util.Optional. */
module Wrappers {

  datatype Option<+T> = None | Some(value: T) {

    /** Optional.orElse: the value when present, the fallback otherwise. */
    function GetOr(default: T): T {
      match this
      case Some(v) => v
      case None => default
    }
  }
}
