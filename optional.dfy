/** An explicit stand-in for a dictionary key that may be missing. */
module Optional {

  datatype Option<T> = None | Some(value: T) {

    /** The value if present, otherwise `default` (the `dict.get(key, default)` idiom). */
    function GetOr(default: T): T
    {
      match this
      case Some(v) => v
      case None => default
    }
  }
}
