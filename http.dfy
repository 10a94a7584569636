/**
 * The HTTP vocabulary of the gateway: JSON payloads, responses, requests,
 * the exceptions a handler can raise and the log events the framework emits.
 * Models the `Response` helper class of base/__init__.py.
 */
module Http {
  import opened Wrappers

  /** A JSON document, as handed to `web.json_response`. */
  datatype Json =
    | JNull
    | JBool(b: bool)
    | JInt(i: int)
    | JString(s: string)
    | JArray(items: seq<Json>)
    | JObject(fields: map<string, Json>)

  /**
   * A response: either a JSON response (`data == None` when no payload was
   * given and the body is empty) or a plain response carrying raw bytes.
   */
  datatype Response =
    | JsonResponse(status: int, data: Option<Json>)
    | BytesResponse(status: int, body: seq<bv8>)

  /** An inbound request, as far as the framework looks at it. */
  datatype Request = Request(verb: string, path: string, body: seq<bv8>)

  /**
   * An instance of a subclass of Python's `Exception`: `type(ex).__name__`,
   * `str(ex)`, and whether it is an instance of aiohttp's `HTTPNotFound`.
   */
  datatype Exception = Exception(className: string, message: string, notFound: bool)

  /** What awaiting or calling a piece of code gives: a value, or a raised exception. */
  datatype Outcome<+T> = Returned(value: T) | Raised(ex: Exception)

  /** One call to the logger. */
  datatype LogEvent =
    | LoggedRequest(request: Request)
    | LoggedResponse(response: Response)
    | LoggedError(ex: Exception)

  /** An outcome together with what was logged while computing it, in order. */
  datatype Logged<+T> = Logged(outcome: Outcome<T>, log: seq<LogEvent>)

  /** `HTTPNotFound()` as raised by the default not-found handler. */
  const NotFoundException := Exception("HTTPNotFound", "Not Found", true)

  /** `Response.json_200`: the dictionary as JSON payload, status 200. */
  function Json200(response: map<string, Json>): (r: Response)
    ensures r.JsonResponse? && r.status == 200
    ensures r.data == Some(JObject(response))
  {
    JsonResponse(200, Some(JObject(response)))
  }

  /** `Response.plain_200`: the bytes as body, status 200. */
  function Plain200(response: seq<bv8>): (r: Response)
    ensures r.BytesResponse? && r.status == 200
    ensures r.body == response
  {
    BytesResponse(200, response)
  }

  /** `Response.status_404`: a JSON response with no payload, status 404. */
  function Status404(): (r: Response)
    ensures r.JsonResponse? && r.status == 404 && r.data.None?
  {
    JsonResponse(404, None)
  }

  /**
   * `Response.exception_500`: status 500 and a JSON object with exactly the
   * keys `error` (the exception's message) and `type` (its class name).
   */
  function Exception500(ex: Exception): (r: Response)
    ensures r.JsonResponse? && r.status == 500
    ensures r.data.Some? && r.data.value.JObject?
    ensures r.data.value.fields.Keys == {"error", "type"}
    ensures r.data.value.fields["error"] == JString(ex.message)
    ensures r.data.value.fields["type"] == JString(ex.className)
  {
    JsonResponse(500, Some(JObject(map["error" := JString(ex.message), "type" := JString(ex.className)])))
  }

  /** The error report of a 500 response determines the exception's name and message. */
  lemma Exception500Injective(a: Exception, b: Exception)
    requires Exception500(a) == Exception500(b)
    ensures a.className == b.className && a.message == b.message
  {
  }
}
