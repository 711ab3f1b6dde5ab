/**
 * Error outcomes of the API: the application errors of internal/errx/errors.go
 * (and their twins in internal/api/errors.go), the raw errors the services
 * pass on unwrapped, and the runtime panic of an unchecked type assertion.
 */
module Errx {

  /** The five HTTP statuses an application error can carry. */
  datatype Status = BadRequest | Unauthorized | Forbidden | NotFound | InternalServerError

  function Code(s: Status): int
  {
    match s
    case BadRequest => 400
    case Unauthorized => 401
    case Forbidden => 403
    case NotFound => 404
    case InternalServerError => 500
  }

  /**
   * A plain Go error, not an AppError: what the database driver reports (no
   * matching row, a unique-key clash, any other failure) or a token signing error.
   */
  datatype RawError = NoRows | UniqueViolation | Unavailable | SigningFailed

  /**
   * What a service or handler fails with: an AppError with its status, a raw
   * repository error, or a panic raised by a failed type assertion (which the
   * router's Recoverer middleware answers with 500).
   */
  datatype Error = App(status: Status) | Raw(cause: RawError) | Panic

  /** The status `handleError` writes: an AppError keeps its own, anything else is 500. */
  function ResponseCode(e: Error): (code: int)
    ensures code == 500 <==> !e.App? || e.status == InternalServerError
    ensures e.App? ==> code == Code(e.status)
  {
    match e
    case App(s) => Code(s)
    case Raw(_) => 500
    case Panic => 500
  }
}
