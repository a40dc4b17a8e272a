/** The exceptions the metering core raises or lets through, and the
    failure-carrying wrappers its operations return instead of raising. */
module Failures {

  datatype Error =
    | NotImplemented(model: string)  // token counting has no rule for this model id
    | KeyError(key: string)          // a dictionary lookup (price table, encoding table) missed
    | IndexError                     // an index or a pop(0) on a list that is too short
    | Interrupted                    // the model client raised before the stream completed

  datatype Result<+T> = Ok(value: T) | Err(error: Error)

  /** The outcome of a call that returns nothing but may raise. */
  datatype Outcome = Pass | Fail(error: Error)

  datatype Option<+T> = None | Some(value: T)
}
