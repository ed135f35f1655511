/** The optional value used for lookups that may find nothing
    (`localStorage.getItem`, `User.findOne`, a state slot holding `null`). */
module Wrappers {

  datatype Option<+T> = None | Some(value: T) {

    /** The value, or `default` when there is none. */
    function GetOr(default: T): T {
      match this
      case Some(v) => v
      case None => default
    }
  }
}
