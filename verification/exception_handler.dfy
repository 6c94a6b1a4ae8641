/**
 * The full exception handler of the service: each exception kind maps to an
 * HTTP status and a message, and every response carries the standard body.
 */
module ExceptionHandling {
  import opened Outcomes
  import opened ErrorBodies

  datatype FieldError = FieldError(field: string, defaultMessage: Option<string>)

  /** The exception kinds with a handler; the matching handler is taken as given. */
  datatype ExceptionKind =
    | IllegalArgument
    | MissingRequestParameter
    | ArgumentNotValid(fieldErrors: seq<FieldError>)
    | EntityNotFound
    | NoSuchElement
    | AccessDenied
    | DataAccess
    | CustomMonitoring
    | Unclassified

  datatype Exception = Exception(kind: ExceptionKind, message: Option<string>)

  /** Java string concatenation renders null as "null". */
  function JavaString(s: Option<string>): string {
    match s
    case Some(t) => t
    case None => "null"
  }

  /** "<field> <defaultMessage>" of the first field error, or "Validation error" when there is none. */
  function ValidationMessage(fieldErrors: seq<FieldError>): string {
    if fieldErrors == [] then "Validation error"
    else fieldErrors[0].field + " " + JavaString(fieldErrors[0].defaultMessage)
  }

  /** The status table: 400, 404, 403, 503, 422, and 500 for the rest. */
  function StatusFor(kind: ExceptionKind): (s: HttpStatus)
    ensures s.Value() == 400 <==> kind.IllegalArgument? || kind.MissingRequestParameter? || kind.ArgumentNotValid?
    ensures s.Value() == 404 <==> kind.EntityNotFound? || kind.NoSuchElement?
    ensures s.Value() == 403 <==> kind.AccessDenied?
    ensures s.Value() == 503 <==> kind.DataAccess?
    ensures s.Value() == 422 <==> kind.CustomMonitoring?
    ensures s.Value() == 500 <==> kind.Unclassified?
  {
    match kind
    case IllegalArgument => BadRequest
    case MissingRequestParameter => BadRequest
    case ArgumentNotValid(_) => BadRequest
    case EntityNotFound => NotFound
    case NoSuchElement => NotFound
    case AccessDenied => Forbidden
    case DataAccess => ServiceUnavailable
    case CustomMonitoring => UnprocessableEntity
    case Unclassified => InternalServerError
  }

  /** The message shown: fixed texts for access and database errors, the exception's own message otherwise. */
  function MessageFor(ex: Exception): (r: BodyValue)
    ensures ex.kind.ArgumentNotValid? ==> r == Text(ValidationMessage(ex.kind.fieldErrors))
    ensures ex.kind.AccessDenied? ==> r == Text("Access denied")
    ensures ex.kind.DataAccess? ==> r == Text("Database error")
    ensures !(ex.kind.ArgumentNotValid? || ex.kind.AccessDenied? || ex.kind.DataAccess?) ==> r == MessageValue(ex.message)
    ensures r == Null <==> ex.message.None? && !(ex.kind.ArgumentNotValid? || ex.kind.AccessDenied? || ex.kind.DataAccess?)
  {
    match ex.kind
    case ArgumentNotValid(errors) => Text(ValidationMessage(errors))
    case AccessDenied => Text("Access denied")
    case DataAccess => Text("Database error")
    case _ => MessageValue(ex.message)
  }

  /** Access-denied and database errors never show the exception's text. */
  lemma FixedMessagesHideExceptionText(kind: ExceptionKind, m1: Option<string>, m2: Option<string>)
    requires kind == AccessDenied || kind == DataAccess
    ensures MessageFor(Exception(kind, m1)) == MessageFor(Exception(kind, m2))
    ensures StatusFor(kind).Value() == (if kind == AccessDenied then 403 else 503)
  {
  }

  /** `buildResponse`: the five entries put in order. */
  method BuildResponse(status: HttpStatus, message: BodyValue, now: int, path: string) returns (body: Body)
    ensures IsErrorResponse(ResponseEntity(body, status), status, message, now, path)
  {
    body := EmptyBody;
    body := Put(body, "timestamp", Timestamp(now));
    body := Put(body, "status", Number(status.Value()));
    body := Put(body, "error", Text(status.ReasonPhrase()));
    body := Put(body, "message", message);
    body := Put(body, "path", Text(path));
  }

  /** Illegal argument or missing request parameter: 400 with the exception's message. */
  method HandleBadRequest(message: Option<string>, now: int, path: string) returns (r: ResponseEntity)
    ensures IsErrorResponse(r, BadRequest, MessageValue(message), now, path)
  {
    var body := BuildResponse(BadRequest, MessageValue(message), now, path);
    r := ResponseEntity(body, BadRequest);
  }

  /** Failed validation: 400 with the first field error, or "Validation error". */
  method HandleValidationException(fieldErrors: seq<FieldError>, now: int, path: string) returns (r: ResponseEntity)
    ensures IsErrorResponse(r, BadRequest, Text(ValidationMessage(fieldErrors)), now, path)
  {
    var body := BuildResponse(BadRequest, Text(ValidationMessage(fieldErrors)), now, path);
    r := ResponseEntity(body, BadRequest);
  }

  /** Entity not found or no such element: 404 with the exception's message. */
  method HandleNotFound(message: Option<string>, now: int, path: string) returns (r: ResponseEntity)
    ensures IsErrorResponse(r, NotFound, MessageValue(message), now, path)
  {
    var body := BuildResponse(NotFound, MessageValue(message), now, path);
    r := ResponseEntity(body, NotFound);
  }

  /** Access denied: 403 with the fixed message "Access denied". */
  method HandleAccessDenied(message: Option<string>, now: int, path: string) returns (r: ResponseEntity)
    ensures IsErrorResponse(r, Forbidden, Text("Access denied"), now, path)
  {
    var body := BuildResponse(Forbidden, Text("Access denied"), now, path);
    r := ResponseEntity(body, Forbidden);
  }

  /** Data access failure: 503 with the fixed message "Database error". */
  method HandleDatabaseError(message: Option<string>, now: int, path: string) returns (r: ResponseEntity)
    ensures IsErrorResponse(r, ServiceUnavailable, Text("Database error"), now, path)
  {
    var body := BuildResponse(ServiceUnavailable, Text("Database error"), now, path);
    r := ResponseEntity(body, ServiceUnavailable);
  }

  /** Custom monitoring exception: 422 with the exception's message. */
  method HandleCustomMonitoringException(message: Option<string>, now: int, path: string) returns (r: ResponseEntity)
    ensures IsErrorResponse(r, UnprocessableEntity, MessageValue(message), now, path)
  {
    var body := BuildResponse(UnprocessableEntity, MessageValue(message), now, path);
    r := ResponseEntity(body, UnprocessableEntity);
  }

  /** Any other exception: 500 with the exception's message. */
  method HandleAllExceptions(message: Option<string>, now: int, path: string) returns (r: ResponseEntity)
    ensures IsErrorResponse(r, InternalServerError, MessageValue(message), now, path)
  {
    var body := BuildResponse(InternalServerError, MessageValue(message), now, path);
    r := ResponseEntity(body, InternalServerError);
  }

  /** The handler chosen for an exception's kind, and what it answers. */
  method HandleException(ex: Exception, now: int, path: string) returns (r: ResponseEntity)
    ensures IsErrorResponse(r, StatusFor(ex.kind), MessageFor(ex), now, path)
  {
    match ex.kind
    case IllegalArgument => r := HandleBadRequest(ex.message, now, path);
    case MissingRequestParameter => r := HandleBadRequest(ex.message, now, path);
    case ArgumentNotValid(errors) => r := HandleValidationException(errors, now, path);
    case EntityNotFound => r := HandleNotFound(ex.message, now, path);
    case NoSuchElement => r := HandleNotFound(ex.message, now, path);
    case AccessDenied => r := HandleAccessDenied(ex.message, now, path);
    case DataAccess => r := HandleDatabaseError(ex.message, now, path);
    case CustomMonitoring => r := HandleCustomMonitoringException(ex.message, now, path);
    case Unclassified => r := HandleAllExceptions(ex.message, now, path);
  }
}
