/** Small shared datatypes: an optional value and the outcome of a Python call that may raise. */
module Common {

  datatype Option<+T> = None | Some(value: T) {
    function GetOr(default: T): T {
      match this
      case Some(v) => v
      case None => default
    }
  }

  /** A Python call either returns a value or lets an exception escape to its caller. */
  datatype Outcome<+T> = Returned(value: T) | Raised(exception: string)
}
