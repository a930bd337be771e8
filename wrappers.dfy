/** Option and Result types shared by the modules of the model. */
module Wrappers {

  /** An optional value: a JavaScript `undefined` field is `None`. */
  datatype Option<+T> = None | Some(value: T) {
    function GetOr(default: T): T {
      match this
      case Some(v) => v
      case None => default
    }
  }

  /** The outcome of an operation that the source lets throw or reject. */
  datatype Result<+R, +E> = Ok(value: R) | Err(error: E)
}
