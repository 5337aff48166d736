/** Small value wrappers shared by the webhook model. */
module Wrappers {

  /** A value that may be absent: Python's `None` versus a present value. */
  datatype Option<+T> = None | Some(value: T)

  /** The outcome of a call into a collaborator whose body is not modelled:
      either it returns a value normally or it raises an exception. */
  datatype Call<+T> = Returns(value: T) | Throws
}
