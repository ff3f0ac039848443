/** Option and Result values shared by the modules of this model. */
module Wrappers {

  /** A value that may be missing (`null` / `undefined` on the TypeScript side). */
  datatype Option<+T> = None | Some(value: T) {
    function GetOr(default: T): T {
      match this
      case Some(v) => v
      case None => default
    }
  }

  /** The outcome of an operation that may throw: `Err` carries the error text. */
  datatype Result<+T> = Ok(value: T) | Err(error: string)
}
