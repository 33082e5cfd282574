/** Python's `None`-or-value, used for absent readings, NULL columns and unset ids. */
module Optional {

  datatype Option<+T> = None | Some(value: T) {

    /** Returns the value, or `default` when absent (JavaScript's `x || 0` for numbers). */
    function GetOr(default: T): T {
      match this
      case Some(v) => v
      case None => default
    }
  }
}
