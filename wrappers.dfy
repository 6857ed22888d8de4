/** Small failure-carrying datatypes shared by every module of the model. */
module Wrappers {

  /** A value that may be absent: a JavaScript `null`/`undefined` or a missing field. */
  datatype Option<+T> = None | Some(value: T)

  /**
   * The answer of one call to the hosted database: either it went through, or
   * it failed with the message the store reported.
   */
  datatype StoreReply = Ok | Err(message: string)
}
