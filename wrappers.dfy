/** The optional values of the source: a TypeScript `x?: T` field or an `undefined` result. */
module Wrappers {

  datatype Option<+T> = None | Some(value: T) {

    /** `this ?? default`: the value when present, otherwise the default. */
    function GetOr(default: T): T {
      match this
      case Some(v) => v
      case None => default
    }
  }
}
