/** The `Option` type used wherever the source returns `None`/`null` for "absent". */
module Optional {

  datatype Option<+T> = None | Some(value: T) {

    /** `value` when present, otherwise `default`. */
    function GetOr(default: T): T {
      match this
      case Some(v) => v
      case None => default
    }
  }
}
