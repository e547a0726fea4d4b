/** Small value wrappers shared by the other modules. */
module Wrappers {

  /** A value that may be absent: JavaScript's `undefined` or `null` for an optional field. */
  datatype Option<+T> = None | Some(value: T)

  /** What an awaited HTTP call produced: the unwrapped response, or a rejection with its message. */
  datatype Outcome<+T> = Success(value: T) | Failure(message: string)
}
