/** Null-like and exception-like outcomes shared by the whole model. */
module Wrappers {

  /** A reference or nullable value of the source: `None` stands for `null`. */
  datatype Option<+T> = None | Some(value: T) {
    function GetOr(default: T): T {
      match this
      case Some(v) => v
      case None => default
    }
  }

  /** The exceptions the modelled code can raise. */
  datatype Exception =
    | ArgumentNull(paramName: string)
    | ArgumentDuplicateKey(key: string)
    | InvalidOperation(message: string)
    | NullReference
    | InvalidCast(targetType: string)
    | ObjectDisposed

  /** Normal completion of a `void` operation, or the exception it throws. */
  datatype Outcome = Done | Threw(error: Exception)
}
