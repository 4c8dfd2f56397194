/** The optional value used throughout the model for JavaScript's `null` / `undefined`. */
module Options {

  datatype Option<+T> = None | Some(value: T) {

    /** The `??` operator: the value when present, the default otherwise. */
    function GetOr(default: T): T {
      match this
      case Some(v) => v
      case None => default
    }
  }
}
