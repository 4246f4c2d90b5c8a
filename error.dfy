/** The service's error kinds (`src/enums/error.rs`), their HTTP status codes, and the
    result types every service returns. */
module Errors {

  /** An HTTP status code. */
  type StatusCode = c: nat | 100 <= c < 600 witness 200

  const OkStatus: StatusCode := 200
  const NoContentStatus: StatusCode := 204
  const BadRequestStatus: StatusCode := 400
  const UnauthorizedStatus: StatusCode := 401
  const ForbiddenStatus: StatusCode := 403
  const NotFoundStatus: StatusCode := 404
  const InternalServerErrorStatus: StatusCode := 500

  /** `enum Error`: each kind carries a message. */
  datatype Error =
    | BadRequest(msg: string)
    | Unauthorized(msg: string)
    | Forbidden(msg: string)
    | NotFound(msg: string)
    | InternalServerError(msg: string)

  /** `Result<T, Error>`. */
  datatype Result<+T> = Ok(value: T) | Err(error: Error)

  /** `Option<T>`. */
  datatype Option<+T> = None | Some(value: T)

  /** How a call ends: it returns a `Result`, or an `unwrap`/`expect` on an error panics
      and the call never returns. */
  datatype Outcome<+T> = Returned(result: Result<T>) | Panicked

  /** Two errors are of the same kind. */
  predicate SameKind(a: Error, b: Error)
  {
    (a.BadRequest? && b.BadRequest?) || (a.Unauthorized? && b.Unauthorized?) ||
    (a.Forbidden? && b.Forbidden?) || (a.NotFound? && b.NotFound?) ||
    (a.InternalServerError? && b.InternalServerError?)
  }

  /** `Error::code`: the HTTP status of each kind. */
  function Code(e: Error): (c: StatusCode)
    ensures c in {400, 401, 403, 404, 500}
    ensures e.BadRequest? <==> c == 400
    ensures e.Unauthorized? <==> c == 401
    ensures e.Forbidden? <==> c == 403
    ensures e.NotFound? <==> c == 404
    ensures e.InternalServerError? <==> c == 500
  {
    match e
    case BadRequest(_) => BadRequestStatus
    case Unauthorized(_) => UnauthorizedStatus
    case Forbidden(_) => ForbiddenStatus
    case NotFound(_) => NotFoundStatus
    case InternalServerError(_) => InternalServerErrorStatus
  }

  /** `Error::message`: the carried string, whatever the kind. */
  function Message(e: Error): (m: string)
    ensures e in {BadRequest(m), Unauthorized(m), Forbidden(m), NotFound(m), InternalServerError(m)}
  {
    match e
    case BadRequest(v) => v
    case Unauthorized(v) => v
    case Forbidden(v) => v
    case NotFound(v) => v
    case InternalServerError(v) => v
  }

  /** The status code tells the kind: `code` is injective across the five kinds. */
  lemma CodeDeterminesKind(a: Error, b: Error)
    ensures Code(a) == Code(b) <==> SameKind(a, b)
  {
  }

  /** No error is reported as a success status. */
  lemma CodeIsNeverSuccess(e: Error)
    ensures Code(e) != OkStatus && Code(e) != NoContentStatus
    ensures Code(e) >= 400
  {
  }
}
