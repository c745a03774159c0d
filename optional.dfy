/** The absent-or-present value used wherever the source returns `undefined`
    or `null`, or reads a property that may be missing. */
module Optional {

  datatype Option<+T> = None | Some(value: T) {

    /** The value if present, otherwise `default`. */
    function GetOr(default: T): T {
      match this
      case Some(v) => v
      case None => default
    }

    /** This value if present, otherwise `other` (the later of two spreads
        wins, so `other` here is the earlier one). */
    function Or(other: Option<T>): Option<T> {
      match this
      case Some(_) => this
      case None => other
    }
  }
}
