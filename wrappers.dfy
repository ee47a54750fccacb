/** Small value wrappers shared by the whole model. */
module Wrappers {

  /** A value that may be absent: JavaScript's `null` for a state field. */
  datatype Option<+T> = None | Some(value: T)

  /** The settled result of an awaited client call: it resolved with a value or it threw. */
  datatype Outcome<+T> = Ok(value: T) | Fail
}
