/** Outcomes of optional values and of calls into code the model does not see. */
module Wrappers {

  /** A value that may be absent, as an optional key of a JavaScript object. */
  datatype Option<+T> = None | Some(value: T) {
    function GetOr(default: T): T {
      match this
      case Some(v) => v
      case None => default
    }
  }

  /** The outcome of an external call: a value, or a thrown error carrying its message. */
  datatype Attempt<+T> = Ok(value: T) | Err(msg: string)
}
