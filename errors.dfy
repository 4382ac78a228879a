/** `web_server::error::CustomError`: the error type of every handler, its HTTP status
    and the response built from it. The payloads of the wrapped foreign errors
    (sqlx, anyhow, io, reqwest, query parsing) are represented by their display text. */
module Errors {

  datatype CustomError =
    | ParseInputDataError(detail: string)
    | InternalError
    | Sqlx(detail: string)
    | Anyhow(detail: string)
    | StdIoError(detail: string)
    | ReqwestError(detail: string)
    | InvalidCredentials(detail: string)
    | Duplicate(message: string)
    | Forbidden(message: string)
    | NotFound(message: string)

  const BAD_REQUEST := 400
  const UNAUTHORIZED := 401
  const FORBIDDEN := 403
  const NOT_FOUND := 404
  const CONFLICT := 409
  const INTERNAL_SERVER_ERROR := 500

  /** `ResponseError::status_code` */
  function StatusCode(e: CustomError): int {
    match e
    case InternalError => INTERNAL_SERVER_ERROR
    case ParseInputDataError(_) => BAD_REQUEST
    case Anyhow(_) => INTERNAL_SERVER_ERROR
    case Sqlx(_) => INTERNAL_SERVER_ERROR
    case StdIoError(_) => INTERNAL_SERVER_ERROR
    case ReqwestError(_) => INTERNAL_SERVER_ERROR
    case Duplicate(_) => CONFLICT
    case Forbidden(_) => FORBIDDEN
    case NotFound(_) => NOT_FOUND
    case InvalidCredentials(_) => UNAUTHORIZED
  }

  /** The variants that stand for a failure on the server's side rather than a bad request. */
  predicate IsServerFault(e: CustomError) {
    e.InternalError? || e.Sqlx? || e.Anyhow? || e.StdIoError? || e.ReqwestError?
  }

  /** Every variant has a status; server faults are exactly the 500s, and every other
      variant has its own 4xx code. */
  lemma StatusCodeClassifies(e: CustomError)
    ensures StatusCode(e) == INTERNAL_SERVER_ERROR <==> IsServerFault(e)
    ensures !IsServerFault(e) ==> 400 <= StatusCode(e) < 500
    ensures StatusCode(e) == FORBIDDEN <==> e.Forbidden?
    ensures StatusCode(e) == NOT_FOUND <==> e.NotFound?
    ensures StatusCode(e) == CONFLICT <==> e.Duplicate?
    ensures StatusCode(e) == UNAUTHORIZED <==> e.InvalidCredentials?
    ensures StatusCode(e) == BAD_REQUEST <==> e.ParseInputDataError?
  {
  }

  /** `Display`, from the `#[error(..)]` attributes. */
  function Display(e: CustomError): string {
    match e
    case ParseInputDataError(d) => "There was an error parsing the input: " + d
    case InternalError => "An internal error occurred. Please try again later."
    case Sqlx(d) => "An internal database error occurred: " + d
    case Anyhow(d) => "An internal server error occurred: " + d
    case StdIoError(d) => "An internal server error occurred: " + d
    case ReqwestError(d) => "An internal server error occurred: " + d
    case InvalidCredentials(_) => "Invalid credentials."
    case Duplicate(m) => m
    case Forbidden(m) => m
    case NotFound(m) => m
  }

  datatype ErrorPage = ErrorPage(status: int, contentType: string, body: string)

  const HTML_CONTENT_TYPE := "text/html; charset=utf-8"

  /** `ResponseError::error_response` */
  function ErrorResponse(e: CustomError): ErrorPage {
    ErrorPage(StatusCode(e), HTML_CONTENT_TYPE, Display(e))
  }

  /** The three business errors show their message and nothing else, with their own status. */
  lemma BusinessErrorsShowTheirMessage(e: CustomError)
    requires e.Forbidden? || e.NotFound? || e.Duplicate?
    ensures ErrorResponse(e).body == e.message
    ensures ErrorResponse(e).status == StatusCode(e) != INTERNAL_SERVER_ERROR
  {
  }

  /** How a handler ends: with a response, with an error turned into an error page,
      or in a panic (an `unwrap` or `expect` that failed), with its message. */
  datatype Reply<+T> = Done(value: T) | Failed(error: CustomError) | Panicked(reason: string)

  const UNWRAP_NONE := "called `Option::unwrap()` on a `None` value"
  const UNWRAP_ERR := "called `Result::unwrap()` on an `Err` value"
}
