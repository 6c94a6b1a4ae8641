/**
 * The JSON error body both exception handlers build: an insertion-ordered
 * map (java.util.LinkedHashMap) filled by successive puts, and the HTTP
 * statuses the handlers use.
 */
module ErrorBodies {
  import opened Outcomes

  datatype HttpStatus = BadRequest | Forbidden | NotFound | UnprocessableEntity | InternalServerError | ServiceUnavailable {
    function Value(): int {
      match this
      case BadRequest => 400
      case Forbidden => 403
      case NotFound => 404
      case UnprocessableEntity => 422
      case InternalServerError => 500
      case ServiceUnavailable => 503
    }

    function ReasonPhrase(): string {
      match this
      case BadRequest => "Bad Request"
      case Forbidden => "Forbidden"
      case NotFound => "Not Found"
      case UnprocessableEntity => "Unprocessable Entity"
      case InternalServerError => "Internal Server Error"
      case ServiceUnavailable => "Service Unavailable"
    }
  }

  /** A body value: the time of the error, a number, a string, or Java null. */
  datatype BodyValue = Timestamp(time: int) | Number(n: int) | Text(s: string) | Null

  /**
   * A LinkedHashMap<String, Object>: the keys in first-insertion order and
   * the current value under each key.
   */
  datatype Body = Body(order: seq<string>, entries: map<string, BodyValue>)

  const EmptyBody := Body([], map[])

  /** The insertion order lists every key of the map exactly once. */
  predicate WellFormed(b: Body) {
    && (forall k :: k in b.order ==> k in b.entries)
    && (forall k :: k in b.entries ==> k in b.order)
    && (forall i, j :: 0 <= i < j < |b.order| ==> b.order[i] != b.order[j])
  }

  /** `get`: the value under key k, if any. */
  function Get(b: Body, k: string): Option<BodyValue> {
    if k in b.entries then Some(b.entries[k]) else None
  }

  /** `put`: a key already present keeps its position and takes the new value; a new key goes last. */
  function Put(b: Body, k: string, v: BodyValue): (r: Body)
    ensures Get(r, k) == Some(v)
    ensures forall k' :: k' != k ==> Get(r, k') == Get(b, k')
    ensures r.order == if Get(b, k).Some? then b.order else b.order + [k]
  {
    Body(if k in b.entries then b.order else b.order + [k], b.entries[k := v])
  }

  /** `put` keeps the insertion order listing every key exactly once. */
  lemma PutPreservesWellFormed(b: Body, k: string, v: BodyValue)
    requires WellFormed(b)
    ensures WellFormed(Put(b, k, v))
  {
  }

  /** The five keys of every error body, in this order. */
  const StandardKeys: seq<string> := ["timestamp", "status", "error", "message", "path"]

  /** Java's rendering of a possibly-null message. */
  function MessageValue(message: Option<string>): BodyValue {
    match message
    case Some(s) => Text(s)
    case None => Null
  }

  datatype ResponseEntity = ResponseEntity(body: Body, status: HttpStatus)

  /**
   * A standard error response: exactly the five keys in order, `status` equal
   * to the response's own status code, `error` its reason phrase, and the
   * given time, message and request path.
   */
  predicate IsErrorResponse(r: ResponseEntity, status: HttpStatus, message: BodyValue, now: int, path: string) {
    && r.status == status
    && r.body.order == StandardKeys
    && r.body.entries.Keys == {"timestamp", "status", "error", "message", "path"}
    && Get(r.body, "timestamp") == Some(Timestamp(now))
    && Get(r.body, "status") == Some(Number(r.status.Value()))
    && Get(r.body, "error") == Some(Text(r.status.ReasonPhrase()))
    && Get(r.body, "message") == Some(message)
    && Get(r.body, "path") == Some(Text(path))
  }
}
