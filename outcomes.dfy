/** Failure-carrying values shared by every page of the model. */
module Outcomes {

  /** A value that may be absent: a nullable column, a missing row, a backend error. */
  datatype Option<+T> = None | Some(value: T)

  /** What a handler reports: success, or the message it shows or logs. */
  datatype Outcome = Ok | Err(message: string)
}
