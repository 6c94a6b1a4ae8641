/**
 * The smaller exception handler of the service: a 500 fallback and a 400 for
 * illegal arguments, each filling its body with literal status and error text.
 */
module BasicExceptionHandling {
  import opened Outcomes
  import opened ErrorBodies

  /** Any exception without a more specific handler: 500, "Internal Server Error", the exception's message. */
  method HandleAllExceptions(message: Option<string>, now: int, path: string) returns (r: ResponseEntity)
    ensures IsErrorResponse(r, InternalServerError, MessageValue(message), now, path)
  {
    var body := EmptyBody;
    body := Put(body, "timestamp", Timestamp(now));
    body := Put(body, "status", Number(500));
    body := Put(body, "error", Text("Internal Server Error"));
    body := Put(body, "message", MessageValue(message));
    body := Put(body, "path", Text(path));
    r := ResponseEntity(body, InternalServerError);
  }

  /** IllegalArgumentException: 400, "Bad Request", the exception's message. */
  method HandleIllegalArgumentException(message: Option<string>, now: int, path: string) returns (r: ResponseEntity)
    ensures IsErrorResponse(r, BadRequest, MessageValue(message), now, path)
  {
    var body := EmptyBody;
    body := Put(body, "timestamp", Timestamp(now));
    body := Put(body, "status", Number(400));
    body := Put(body, "error", Text("Bad Request"));
    body := Put(body, "message", MessageValue(message));
    body := Put(body, "path", Text(path));
    r := ResponseEntity(body, BadRequest);
  }
}
