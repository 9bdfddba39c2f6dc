/** The optional value used for JavaScript's `undefined` / `null` fields and
    for lookups that may find nothing. */
module Options {

  datatype Option<T> = None | Some(value: T) {

    /** `x ?? d` / `x || d` for a present-or-absent value. */
    function GetOr(default: T): T {
      match this
      case Some(v) => v
      case None => default
    }
  }
}
