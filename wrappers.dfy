/** The one optional-value datatype the model needs: a TypeScript value of type
    `T | null` becomes an `Option<T>`. */
module Wrappers {

  datatype Option<+T> = None | Some(value: T) {

    /** The value if present, otherwise the given default. */
    function GetOr(default: T): T {
      match this
      case Some(v) => v
      case None => default
    }
  }
}
