/** The optional value used for fields that a partial update may leave out and for
    the service's socket slot, which is either empty or holds the live socket. */
module Wrappers {

  datatype Option<+T> = None | Some(value: T) {

    /** The wrapped value, or `default` when there is none. */
    function GetOr(default: T): T {
      match this
      case Some(v) => v
      case None => default
    }
  }
}
