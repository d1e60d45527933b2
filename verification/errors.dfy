/** Failure values of the acquisition pipeline.
    A thrown exception of the original becomes an `Err` carrying one of the
    `Error` variants below; `OfferNotAvailable` is the dedicated error class
    that callers single out. */
module Errors {

  datatype Option<+T> = None | Some(value: T)

  datatype Error =
      /** An HTTP client error; `status` is that of the response, `None` when no response arrived. */
    | HttpError(status: Option<int>)
      /** Any other exception thrown by a collaborator (challenge resolver, transport). */
    | OtherError(message: string)
      /** Every allowed attempt failed with a transient status. */
    | MaxRetriesReached
      /** No coupon of the target promotion was found. */
    | OfferNotAvailable
      /** A confirmation answered with a status other than 200. */
    | ActivationFailed
      /** A code was read past the end of the extracted codes (a type error at run time). */
    | UndefinedCode

  datatype Result<+T> = Ok(value: T) | Err(error: Error)

  /** Errors that only collaborators outside the core can raise. */
  predicate IsForeign(e: Error) {
    e.HttpError? || e.OtherError?
  }
}
