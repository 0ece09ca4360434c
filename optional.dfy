/** The JavaScript "value or nothing" (null / undefined) as a datatype. */
module Optional {

  datatype Option<+T> = None | Some(value: T) {

    /** The value, or `default` when there is none (JavaScript's `x || default` for a present x). */
    function GetOr(default: T): T {
      match this
      case Some(v) => v
      case None => default
    }
  }
}
