/** `src/traits/from_result_to_response.rs`: turning a service result into an HTTP reply. */
module FromResultToResponse {
  import opened Errors
  import opened Dtos

  /** What the handlers return: `Ok((status, Json(body)))` or `Err((status, Json(error)))`. */
  datatype Reply<+U> = Success(status: StatusCode, body: U) | Failure(status: StatusCode, error: ErrorResponseDto)

  /** `to_response`: a value becomes 200 with `op` applied to it; an error becomes its own
      status code with `{error: message}`. `op` may be partial: it is applied only on `Ok`. */
  function ToResponse<T, U>(r: Result<T>, op: T --> U): (reply: Reply<U>)
    requires r.Ok? ==> op.requires(r.value)
    ensures reply.Success? <==> r.Ok?
    ensures r.Ok? ==> reply.status == OkStatus && reply.body == op(r.value)
    ensures r.Err? ==> reply.status == Code(r.error) && reply.error.error == Message(r.error)
    ensures reply.Failure? ==> reply.status != OkStatus
  {
    match r
    case Ok(value) => Success(OkStatus, op(value))
    case Err(error) => Failure(Code(error), ErrorResponseDto(Message(error)))
  }
}

/** `src/traits/from_result_to_response_with_no_content.rs`: the same for results that carry no value. */
module FromResultToResponseWithNoContent {
  import opened Errors
  import opened Dtos
  import opened FromResultToResponse

  /** `to_response_with_no_content`: success is 204 with an empty body. */
  function ToResponseWithNoContent(r: Result<()>): (reply: Reply<()>)
    ensures reply.Success? <==> r.Ok?
    ensures r.Ok? ==> reply == Success(NoContentStatus, ())
    ensures r.Err? ==> reply == Failure(Code(r.error), ErrorResponseDto(Message(r.error)))
    ensures reply.Failure? ==> reply.status != NoContentStatus
  {
    match r
    case Ok(()) => Success(NoContentStatus, ())
    case Err(error) => Failure(Code(error), ErrorResponseDto(Message(error)))
  }

  /** Only the variant matters for success: every `Ok` gives the same reply, and errors of
      the same kind and message give the same reply. */
  lemma NoContentDependsOnlyOnVariant(a: Result<()>, b: Result<()>)
    requires a.Ok? == b.Ok?
    requires a.Err? ==> Code(a.error) == Code(b.error) && Message(a.error) == Message(b.error)
    ensures ToResponseWithNoContent(a) == ToResponseWithNoContent(b)
  {
  }
}
