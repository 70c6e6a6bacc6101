/** Optional values and the failures the model operations report. */
module Outcomes {

  datatype Option<+T> = None | Some(value: T)

  /** The failure kinds a caller can tell apart. */
  datatype Error =
    | NotFound               // no row with the given id or key
    | DuplicateClientId      // a user with that client id already exists
    | InsufficientGoldPool   // fewer unanswered gold locations than requested
    | InsufficientTotalPool  // not enough unanswered locations to fill the batch

  datatype Result<+T> = Ok(value: T) | Err(error: Error)
}
