/** `errors.py`: the application's exception classes, each with a fixed HTTP
    status and error code, the shape of the error body they are turned into,
    and the `handle_errors` decorator that maps exceptions to replies. */
module Errors {
  import opened Basics
  import opened Json

  /** An exception raised inside a handler: one of the classes of `errors.py`
      (`Base` is `PredictionError` itself, with whatever status and code it was
      given), or any other exception. */
  datatype AppError =
    | Base(baseMessage: string, baseStatus: int, baseCode: string)
    | ValidationError(validationMessage: string, field: Option<string>)
    | ModelError(modelMessage: string)
    | DatabaseError(databaseMessage: string)
    | NotFoundError(resource: string)
    | RateLimitError
    | Other(description: string)

  /** `PredictionError(message)` with its default status and code. */
  function DefaultPredictionError(message: string): (e: AppError)
    ensures IsPredictionError(e) && Status(e) == 400 && Code(e) == "PREDICTION_ERROR" && Message(e) == message
  {
    Base(message, 400, "PREDICTION_ERROR")
  }

  const DefaultResource: string := "Resource"

  /** `NotFoundError()` with the default resource name. */
  function DefaultNotFound(): (e: AppError)
    ensures IsPredictionError(e) && Message(e) == "Resource not found" && Status(e) == 404
  {
    NotFoundError(DefaultResource)
  }

  /** The classes of `errors.py`, as opposed to any other exception. */
  predicate IsPredictionError(e: AppError)
  {
    !e.Other?
  }

  /** The `message` attribute. */
  function Message(e: AppError): string
    requires IsPredictionError(e)
  {
    match e
    case Base(m, _, _) => m
    case ValidationError(m, _) => m
    case ModelError(m) => m
    case DatabaseError(m) => m
    case NotFoundError(resource) => resource + " not found"
    case RateLimitError => "Rate limit exceeded. Please try again later."
  }

  /** The `status_code` attribute. */
  function Status(e: AppError): int
    requires IsPredictionError(e)
  {
    match e
    case Base(_, s, _) => s
    case ValidationError(_, _) => 400
    case ModelError(_) => 503
    case DatabaseError(_) => 503
    case NotFoundError(_) => 404
    case RateLimitError => 429
  }

  /** The `error_code` attribute. */
  function Code(e: AppError): string
    requires IsPredictionError(e)
  {
    match e
    case Base(_, _, c) => c
    case ValidationError(_, _) => "VALIDATION_ERROR"
    case ModelError(_) => "MODEL_ERROR"
    case DatabaseError(_) => "DATABASE_ERROR"
    case NotFoundError(_) => "NOT_FOUND"
    case RateLimitError => "RATE_LIMIT_EXCEEDED"
  }

  /** The fixed status and code of each subclass. */
  lemma SubclassStatusAndCode(e: AppError)
    requires IsPredictionError(e) && !e.Base?
    ensures e.ValidationError? <==> Status(e) == 400 && Code(e) == "VALIDATION_ERROR"
    ensures e.ModelError? <==> Status(e) == 503 && Code(e) == "MODEL_ERROR"
    ensures e.DatabaseError? <==> Status(e) == 503 && Code(e) == "DATABASE_ERROR"
    ensures e.NotFoundError? <==> Status(e) == 404 && Code(e) == "NOT_FOUND"
    ensures e.RateLimitError? <==> Status(e) == 429 && Code(e) == "RATE_LIMIT_EXCEEDED"
    ensures e.NotFoundError? ==> Message(e) == e.resource + " not found"
  {
  }

  /** The code alone tells the subclasses apart. */
  lemma CodeIdentifiesSubclass(a: AppError, b: AppError)
    requires IsPredictionError(a) && !a.Base? && IsPredictionError(b) && !b.Base?
    requires Code(a) == Code(b)
    ensures a.ValidationError? == b.ValidationError? && a.ModelError? == b.ModelError?
    ensures a.DatabaseError? == b.DatabaseError? && a.NotFoundError? == b.NotFoundError?
    ensures a.RateLimitError? == b.RateLimitError?
  {
  }

  /** The body `format_error_response` returns. */
  datatype ErrorResponse = ErrorResponse(status: string, error: map<string, Value>)

  function ErrorFields(message: string, statusCode: int, errorCode: string): map<string, Value>
  {
    map["code" := Str(errorCode), "message" := Str(message), "status_code" := Int(statusCode)]
  }

  /** `format_error_response`: always `status: 'error'` with the code, message
      and status code under `error`; a truthy `extra` is merged in afterwards, so
      its keys win on a clash. */
  function FormatErrorResponse(message: string, statusCode: int, errorCode: string,
                               extra: Option<map<string, Value>>): (r: ErrorResponse)
    ensures r.status == "error"
    ensures "code" in r.error && "message" in r.error && "status_code" in r.error
    ensures extra.None? || extra.value == map[] ==>
      r.error.Keys == {"code", "message", "status_code"} &&
      r.error["code"] == Str(errorCode) && r.error["message"] == Str(message) &&
      r.error["status_code"] == Int(statusCode)
    ensures extra.Some? ==> forall k :: k in r.error <==> k in extra.value || k in {"code", "message", "status_code"}
    ensures extra.Some? ==> forall k :: k in extra.value ==> r.error[k] == extra.value[k]
    ensures forall k :: k in ErrorFields(message, statusCode, errorCode) && (extra.None? || k !in extra.value) ==>
      r.error[k] == ErrorFields(message, statusCode, errorCode)[k]
  {
    var error := ErrorFields(message, statusCode, errorCode);
    if extra.Some? && extra.value != map[] then ErrorResponse("error", error + extra.value)
    else ErrorResponse("error", error)
  }

  /** A reply to the client: the handler's own result passed through, or an
      error body with its HTTP status. */
  datatype Reply<T> = PassThrough(value: T) | ErrorReply(body: ErrorResponse, httpStatus: int)

  /** What the wrapped handler did. */
  datatype Outcome<T> = Returned(value: T) | Raised(error: AppError)

  /** The exceptions `handle_errors` answers with their own status and code. */
  predicate KeepsOwnStatus(e: AppError)
  {
    e.ValidationError? || e.ModelError?
  }

  /** `handle_errors`. */
  function HandleErrors<T>(outcome: Outcome<T>): (r: Reply<T>)
  {
    match outcome
    case Returned(v) => PassThrough(v)
    case Raised(e) =>
      if KeepsOwnStatus(e) then ErrorReply(FormatErrorResponse(Message(e), Status(e), Code(e), None), Status(e))
      else ErrorReply(FormatErrorResponse("An error occurred processing your request", 500, "INTERNAL_ERROR", None), 500)
  }

  /** Normal results pass through untouched; a validation or model error keeps
      its status (400 or 503), message and code; every other exception, the
      other classes of this module included, becomes a 500 `INTERNAL_ERROR`.
      The status inside the body always equals the HTTP status. */
  lemma HandleErrorsMapping<T>(outcome: Outcome<T>)
    ensures outcome.Returned? ==> HandleErrors(outcome) == PassThrough(outcome.value)
    ensures outcome.Raised? ==> HandleErrors(outcome).ErrorReply?
    ensures outcome.Raised? && KeepsOwnStatus(outcome.error) ==>
      var r := HandleErrors(outcome);
      r.httpStatus == Status(outcome.error) && r.httpStatus in {400, 503} &&
      r.body.error["code"] == Str(Code(outcome.error)) && r.body.error["message"] == Str(Message(outcome.error))
    ensures outcome.Raised? && !KeepsOwnStatus(outcome.error) ==>
      var r := HandleErrors(outcome);
      r.httpStatus == 500 && r.body.error["code"] == Str("INTERNAL_ERROR") &&
      r.body.error["message"] == Str("An error occurred processing your request")
    ensures outcome.Raised? ==>
      var r := HandleErrors(outcome);
      r.body.status == "error" && r.body.error["status_code"] == Int(r.httpStatus)
  {
    match outcome
    case Returned(v) =>
    case Raised(e) =>
      if KeepsOwnStatus(e) {
        assert Status(e) == 400 || Status(e) == 503;
      }
  }

  /** The handlers `register_handlers` installs for the exception classes: a
      class with its own handler is answered with its own message, status and
      code (a validation error with a truthy field adds `field`); anything else,
      `PredictionError` itself included, reaches the handler for `Exception`. */
  function RegisteredReply(e: AppError): (r: (ErrorResponse, int))
    ensures r.0.status == "error"
    ensures "code" in r.0.error && "message" in r.0.error && "status_code" in r.0.error
    ensures IsPredictionError(e) && !e.Base? ==> r.1 == Status(e) && r.0.error["code"] == Str(Code(e))
    ensures !IsPredictionError(e) || e.Base? ==>
      r.1 == 500 && r.0.error["message"] == Str("An unexpected error occurred") &&
      r.0.error["code"] == Str("INTERNAL_ERROR")
    ensures e.ValidationError? && e.field.Some? && e.field.value != "" ==>
      "field" in r.0.error && r.0.error["field"] == Str(e.field.value)
    ensures r.0.error["status_code"] == Int(r.1)
  {
    match e
    case ValidationError(m, field) =>
      var extra := if field.Some? && field.value != "" then Some(map["field" := Str(field.value)]) else None;
      (FormatErrorResponse(m, 400, "VALIDATION_ERROR", extra), 400)
    case ModelError(_) => (FormatErrorResponse(Message(e), Status(e), Code(e), None), Status(e))
    case DatabaseError(_) => (FormatErrorResponse(Message(e), Status(e), Code(e), None), Status(e))
    case NotFoundError(_) => (FormatErrorResponse(Message(e), Status(e), Code(e), None), Status(e))
    case RateLimitError => (FormatErrorResponse(Message(e), Status(e), Code(e), None), Status(e))
    case _ => (FormatErrorResponse("An unexpected error occurred", 500, "INTERNAL_ERROR", None), 500)
  }
}
