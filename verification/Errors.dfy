/**
 Errors as the handlers see them: the set of sentinels an error wraps (errors.Is is membership,
 errors.Join and %w are union), and the transport code it maps to.
 */
module Errors {
  datatype Sentinel =
    | ErrInvalidRequest | ErrJobNotFound | ErrJobConflict | ErrJobNotClaimed
    | DaoSettleNotClaimed | DaoRequeueNotClaimed | DaoGetByIDNotFound | SqlFailure

  type Error = set<Sentinel>

  datatype Result<+T> = Ok(value: T) | Err(error: Error)

  datatype Code = InvalidArgument | NotFound | AlreadyExists | FailedPrecondition | Internal

  function MapJobError(err: Error): Code {
    if ErrInvalidRequest in err then InvalidArgument
    else if ErrJobNotFound in err then NotFound
    else if ErrJobConflict in err then AlreadyExists
    else if ErrJobNotClaimed in err then FailedPrecondition
    else Internal
  }
}
