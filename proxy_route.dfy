/** The browser-facing `POST /api/chat` route: it checks the JSON body, forwards
    a valid one to the backend's `/api/chat`, and passes the backend's event
    stream back, mapping every failure to a JSON error response. */
module ProxyRoute {
  import opened Wrappers
  import opened Text
  import opened Http

  /** A parsed JSON value. Numbers keep only their truthiness, the one thing
      the route looks at (JSON numbers are never NaN, so only zero is falsy). */
  datatype Json =
    | JNull
    | JBool(b: bool)
    | JNumber(isZero: bool)
    | JString(s: string)
    | JArray(items: seq<Json>)
    | JObject(fields: map<string, Json>)

  /** What `await request.json()` produced: a value, or the message of the
      error it threw on a body that is not JSON. */
  datatype Body = Parsed(value: Json) | Unparsable(detail: string)

  /** The statuses a `fetch` response can carry. */
  type FetchStatus = s: int | 200 <= s <= 599 witness 200

  /** What the forwarded `fetch` came back with: a response with its status
      and body text, or the message of the error it threw (backend
      unreachable, connection refused). */
  datatype BackendOutcome = Answered(status: FetchStatus, text: string) | Unreachable(detail: string)

  /** The request the route makes to the backend. */
  datatype Forward = Forward(url: string, body: Json)

  /** The route's answer: a JSON error object with a status, or the backend's
      body streamed back with status 200 and event-stream headers. */
  datatype Response =
    | JsonError(status: int, error: string, details: Option<string>)
    | Stream(status: int, headers: seq<Header>, body: string)

  const MissingMessageError: string := "Message is required and must be a string"
  const TooLongError: string := "Message exceeds maximum length of 2000 characters"
  const InternalError: string := "Internal server error"

  /** The TypeError message Node.js gives for `null.message`. */
  const NullBodyDetail: string := "Cannot read properties of null (reading 'message')"

  /** A response with status 304 may not carry a body, so building the JSON
      error with that status throws; this is the TypeError's message. */
  const NullBodyStatusDetail: string := "Response constructor: Invalid response status code 304"

  const StreamHeaders: seq<Header> := [
    Header("Content-Type", "text/event-stream"),
    Header("Cache-Control", "no-cache"),
    Header("Connection", "keep-alive"),
    Header("X-Accel-Buffering", "no")
  ]

  /** The outcome of reading `body.message`. */
  datatype Lookup = Throws | Undefined | Found(v: Json)

  /** `body.message`: throws on `null`, is the field of an object when present,
      and is `undefined` everywhere else. */
  function MessageOf(body: Json): (r: Lookup)
    ensures r == Throws <==> body == JNull
    ensures r.Found? <==> body.JObject? && "message" in body.fields
  {
    match body
    case JNull => Throws
    case JObject(fields) => if "message" in fields then Found(fields["message"]) else Undefined
    case _ => Undefined
  }

  /** `!v || typeof v !== 'string'` rejects everything but a non-empty string. */
  predicate IsNonEmptyString(l: Lookup) {
    l.Found? && l.v.JString? && l.v.s != []
  }

  /** `2xx` statuses make `Response.ok` true. */
  predicate IsOk(status: int) {
    200 <= status <= 299
  }

  /** The route's handler, given the parsed body, the backend's base URL and
      what the backend would answer. `fwd` is the request made to the backend,
      `None` when the route answers without calling it. */
  function Post(body: Body, backendUrl: string, backend: BackendOutcome): (out: (Option<Forward>, Response))
    // A body that is not JSON, or is `null`, fails inside the `try`: 500, no call.
    ensures body.Unparsable? ==>
              out == (None, JsonError(500, InternalError, Some(body.detail)))
    ensures body == Parsed(JNull) ==>
              out == (None, JsonError(500, InternalError, Some(NullBodyDetail)))
    // The presence and type check comes first, then the length check; both are 400 without a call.
    ensures body.Parsed? && body.value != JNull && !IsNonEmptyString(MessageOf(body.value)) ==>
              out == (None, JsonError(400, MissingMessageError, None))
    ensures body.Parsed? && IsNonEmptyString(MessageOf(body.value))
            && Utf16Length(MessageOf(body.value).v.s) > 2000 ==>
              out == (None, JsonError(400, TooLongError, None))
    // A valid message is forwarded, body unchanged, to the backend's chat endpoint.
    ensures out.0.Some? <==>
              body.Parsed? && IsNonEmptyString(MessageOf(body.value))
              && Utf16Length(MessageOf(body.value).v.s) <= 2000
    ensures out.0.Some? ==> out.0.value == Forward(backendUrl + "/api/chat", body.value)
    // Then the backend's answer decides.
    ensures out.0.Some? && backend.Unreachable? ==>
              out.1 == JsonError(500, InternalError, Some(backend.detail))
    ensures out.0.Some? && backend.Answered? && !IsOk(backend.status) && backend.status != 304 ==>
              out.1 == JsonError(backend.status, "Backend error: " + backend.text, None)
    // A 304 cannot be answered with a JSON body: the throw lands in the `catch`.
    ensures out.0.Some? && backend.Answered? && backend.status == 304 ==>
              out.1 == JsonError(500, InternalError, Some(NullBodyStatusDetail))
    ensures out.0.Some? && backend.Answered? && IsOk(backend.status) ==>
              out.1 == Stream(200, StreamHeaders, backend.text)
  {
    match body
    case Unparsable(detail) => (None, JsonError(500, InternalError, Some(detail)))
    case Parsed(value) =>
      var message := MessageOf(value);
      if message == Throws then (None, JsonError(500, InternalError, Some(NullBodyDetail)))
      else if !IsNonEmptyString(message) then (None, JsonError(400, MissingMessageError, None))
      else if Utf16Length(message.v.s) > 2000 then (None, JsonError(400, TooLongError, None))
      else
        var fwd := Forward(backendUrl + "/api/chat", value);
        match backend
        case Unreachable(detail) => (Some(fwd), JsonError(500, InternalError, Some(detail)))
        case Answered(status, text) =>
          if !IsOk(status) then
            if status == 304 then (Some(fwd), JsonError(500, InternalError, Some(NullBodyStatusDetail)))
            else (Some(fwd), JsonError(status, "Backend error: " + text, None))
          else (Some(fwd), Stream(200, StreamHeaders, text))
  }

  /** Every answer is either the stream with status 200 or a JSON error whose
      status is 400, 500 or the backend's own failing status other than 304;
      there is no other status, in particular no 503. */
  lemma StatusesAreClosed(body: Body, backendUrl: string, backend: BackendOutcome)
    ensures var r := Post(body, backendUrl, backend).1;
            r.Stream? || r.status == 400 || r.status == 500
            || (backend.Answered? && !IsOk(backend.status) && backend.status != 304 && r.status == backend.status)
    ensures Post(body, backendUrl, backend).1.status != 304
  {
  }

  /** A message of exactly 2000 code units passes validation. */
  lemma BoundaryMessagePasses(fields: map<string, Json>, s: string, backendUrl: string, backend: BackendOutcome)
    requires "message" in fields && fields["message"] == JString(s)
    requires Utf16Length(s) == 2000
    ensures Post(Parsed(JObject(fields)), backendUrl, backend).0.Some?
  {
  }
}
