/** Option, for values that JavaScript leaves `undefined` or `null`, and for
    operations whose promise rejects. */
module Wrappers {

  datatype Option<+T> = None | Some(value: T) {

    /** The value, or `default` when there is none. */
    function GetOr(default: T): T {
      match this
      case Some(v) => v
      case None => default
    }
  }
}
