/** The optional values of the model: a TypeScript `T | null`, an optional
    interface member, or a Python `None`. */
module Optional {

  datatype Option<+T> = None | Some(value: T) {

    /** The value, or `default` for None (the `??` and `or` idioms). */
    function GetOr(default: T): T {
      match this
      case Some(v) => v
      case None => default
    }
  }
}
