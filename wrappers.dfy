/** Absent-or-present values and error results shared by the other modules. */
module Wrappers {

  /** A value that may be missing: Go's nil interface or a missing map entry. */
  datatype Option<+T> = None | Some(value: T)

  /** A value or the message of the error that prevented it. */
  datatype Result<+T> = Ok(value: T) | Err(msg: string)
}
