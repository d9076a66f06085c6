/** Small result types shared by the whole model. */
module Wrappers {

  /** A value that may be absent: Python's `None` versus a present object. */
  datatype Option<+T> = None | Some(value: T)

  /**
   * The outcome of one call into the remote agent service: it either
   * returns a value or raises an exception whose text is `error`.
   */
  datatype Attempt<+T> = Done(value: T) | Raised(error: string)

  /** The outcome of a remote call whose return value is not used. */
  datatype Outcome = Ok | Failed(error: string)
}
