/** The optional value used throughout the model for JSON fields, JavaScript
    `undefined`/`null`, Kotlin nullable types and failed fetches. */
module Wrappers {

  datatype Option<+T> = None | Some(value: T) {

    /** The value, or `default` when there is none (Kotlin `?:`, `orEmpty`). */
    function GetOr(default: T): T
    {
      match this
      case Some(v) => v
      case None => default
    }
  }
}
