/** Small value wrappers shared by the resolver and the tags table. */
module Wrappers {

  /** An optional value: `None` stands for JavaScript's `undefined`. */
  datatype Option<+T> = None | Some(value: T)

  /** The result of an operation that may throw: the value it returned, or
      the message of the error it threw. */
  datatype Result<+T> = Ok(value: T) | Err(message: string)
}
