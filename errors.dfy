/// The API-friendly error type and the HTTP response it renders to
/// (car_api/src/errors.rs).
module Errors {
  import opened Common

  // Status codes used across the service.
  const OK: int := 200
  const CREATED: int := 201
  const UNAUTHORIZED: int := 401
  const NOT_FOUND: int := 404
  const METHOD_NOT_ALLOWED: int := 405
  const CONFLICT: int := 409
  const UNPROCESSABLE_ENTITY: int := 422
  const INTERNAL_SERVER_ERROR: int := 500

  /// How sqlx classifies a failure: an error reported by the database server,
  /// possibly naming the constraint it violated, or any other failure
  /// (pool, I/O, decoding, ...).
  datatype DbErrorKind = Database(constraint: Option<string>) | Driver

  /// A `sqlx::Error`; `debug` is the text its `{:?}` formatting prints.
  datatype DbError = DbError(kind: DbErrorKind, debug: string)

  /// The field errors of a rejected request body (`validator::ValidationErrors`).
  datatype ValidationErrors = ValidationErrors(fields: seq<string>)

  /// `crate::errors::Error`.
  datatype Error =
    | Sqlx(db: DbError)
    | Openssl(stack: string)
    | InvalidEntity(errors: ValidationErrors)
    | Conflict(text: string)

  datatype Result<T> = Ok(value: T) | Err(error: Error)

  /// A handler's answer: a status code and a body (plain text, or a value
  /// the handler serialises).
  datatype Reply<B> = Reply(status: int, body: B)

  const SQLX_MESSAGE := "an internal database error occurred"
  const OPENSSL_MESSAGE := "OpenSSL error occurred"
  const INVALID_ENTITY_MESSAGE := "validation error in request body"

  /// The `Display` text of an error: fixed for three variants, the carried
  /// text itself for `Conflict`.
  function Message(e: Error): (m: string)
    ensures e.Conflict? ==> m == e.text
    ensures !e.Conflict? ==> m in {SQLX_MESSAGE, OPENSSL_MESSAGE, INVALID_ENTITY_MESSAGE}
    ensures e.Sqlx? ==> m == SQLX_MESSAGE
    ensures e.Openssl? ==> m == OPENSSL_MESSAGE
    ensures e.InvalidEntity? ==> m == INVALID_ENTITY_MESSAGE
  {
    match e
    case Sqlx(_) => SQLX_MESSAGE
    case Openssl(_) => OPENSSL_MESSAGE
    case InvalidEntity(_) => INVALID_ENTITY_MESSAGE
    case Conflict(text) => text
  }

  /// `Error::status_code`: internal failures are 500, a rejected body 422,
  /// a conflict 409.
  function StatusCode(e: Error): (s: int)
    ensures 400 <= s < 600
    ensures s == INTERNAL_SERVER_ERROR <==> e.Sqlx? || e.Openssl?
    ensures s == UNPROCESSABLE_ENTITY <==> e.InvalidEntity?
    ensures s == CONFLICT <==> e.Conflict?
  {
    match e
    case Openssl(_) => INTERNAL_SERVER_ERROR
    case Sqlx(_) => INTERNAL_SERVER_ERROR
    case InvalidEntity(_) => UNPROCESSABLE_ENTITY
    case Conflict(_) => CONFLICT
  }

  /// The JSON body `{ "message": ..., "errors": ... }`; a `None` field is
  /// omitted from the serialised object.
  datatype ErrorBody = ErrorBody(message: string, errors: Option<ValidationErrors>)

  datatype ErrorResponse = ErrorResponse(status: int, body: ErrorBody)

  /// `IntoResponse for Error`.
  function IntoResponse(e: Error): (r: ErrorResponse)
    ensures r.status == StatusCode(e)
    ensures r.body.message == Message(e)
    ensures r.body.errors.Some? <==> e.InvalidEntity?
    ensures e.InvalidEntity? ==> r.body.errors.value == e.errors
  {
    var errors := match e
      case InvalidEntity(errors) => Some(errors)
      case _ => None;
    ErrorResponse(StatusCode(e), ErrorBody(Message(e), errors))
  }

  /// The response identifies the variant: equal responses come from errors
  /// of the same variant, and for `Conflict` and `InvalidEntity` from equal
  /// errors.
  lemma ResponseIdentifiesVariant(a: Error, b: Error)
    requires IntoResponse(a) == IntoResponse(b)
    ensures a.Sqlx? == b.Sqlx? && a.Openssl? == b.Openssl?
    ensures a.InvalidEntity? == b.InvalidEntity? && a.Conflict? == b.Conflict?
    ensures (a.Conflict? || a.InvalidEntity?) ==> a == b
  {
  }

  /// The response never shows what a database or OpenSSL failure carried.
  lemma InternalDetailsHidden(a: Error, b: Error)
    requires (a.Sqlx? && b.Sqlx?) || (a.Openssl? && b.Openssl?)
    ensures IntoResponse(a) == IntoResponse(b)
  {
  }
}
