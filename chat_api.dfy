/** The backend's chat endpoint: it validates the request, and streams the
    crew manager's answer as server-sent events, each written as one
    `data:` line holding a JSON object followed by a blank line (section 9.2
    of the WHATWG HTML Living Standard). */
module ChatApi {
  import opened Wrappers
  import opened PyJson
  import CrewManager
  import opened Http

  const AgentName: string := "onboarding_orchestrator"

  datatype Status = Thinking | Responding | Complete | Error

  function StatusName(s: Status): string {
    match s
    case Thinking => "thinking"
    case Responding => "responding"
    case Complete => "complete"
    case Error => "error"
  }

  /** One event of the stream: a bare status, or a chunk of the answer; both
      name the agent that produced them. */
  datatype Event =
    | StatusEvent(status: Status, agent: string)
    | ChunkEvent(chunk: string, agent: string, status: Status)

  /** What the manager's generator did: the chunks it yielded and, when it
      raised, the message of the exception it raised after them. */
  datatype ChunkSource = ChunkSource(chunks: seq<string>, raised: Option<string>)

  /** One `responding` event per chunk, in order. */
  function RespondingEvents(chunks: seq<string>): (r: seq<Event>)
    ensures |r| == |chunks|
    ensures forall i :: 0 <= i < |r| ==> r[i] == ChunkEvent(chunks[i], AgentName, Responding)
  {
    seq(|chunks|, i requires 0 <= i < |chunks| => ChunkEvent(chunks[i], AgentName, Responding))
  }

  /** The events `stream_chat_response` yields: `thinking`, the chunks, then
      `complete`, or an `error` chunk carrying the exception's message. */
  function Events(source: ChunkSource): seq<Event> {
    [StatusEvent(Thinking, AgentName)] + RespondingEvents(source.chunks) + [Closing(source.raised)]
  }

  /** The last event of a stream: `complete`, or the `error` chunk. */
  function Closing(raised: Option<string>): (e: Event)
    ensures e.status == Complete <==> raised.None?
    ensures e.status == Error <==> raised.Some?
  {
    match raised
    case None => StatusEvent(Complete, AgentName)
    case Some(e) => ChunkEvent("Error: " + e, AgentName, Error)
  }

  /** A stream starts with `thinking` and ends with its closing event. */
  lemma EventsEnds(source: ChunkSource)
    ensures var es := Events(source);
            es[0] == StatusEvent(Thinking, AgentName) && es[|es| - 1] == Closing(source.raised)
  {
    var es := Events(source);
    var head := [StatusEvent(Thinking, AgentName)] + RespondingEvents(source.chunks);
    assert es == head + [Closing(source.raised)];
    assert es[0] == head[0];
  }

  /** Between the two ends, event i+1 carries chunk i. */
  lemma EventsMiddle(source: ChunkSource)
    ensures forall i :: 0 <= i < |source.chunks| ==>
              Events(source)[i + 1] == ChunkEvent(source.chunks[i], AgentName, Responding)
  {
    var es, mid := Events(source), RespondingEvents(source.chunks);
    var head := [StatusEvent(Thinking, AgentName)] + mid;
    assert es == head + [Closing(source.raised)];
    forall i | 0 <= i < |mid|
      ensures es[i + 1] == mid[i]
    {
      assert es[i + 1] == head[i + 1];
    }
  }

  /** The shape of every stream: `thinking` first, one `responding` event per
      chunk in order, and a last event that is `complete` exactly when nothing
      was raised, the `error` chunk otherwise. */
  lemma EventsShape(source: ChunkSource)
    ensures var es := Events(source);
            |es| == |source.chunks| + 2
            && es[0] == StatusEvent(Thinking, AgentName)
            && (forall i :: 0 <= i < |source.chunks| ==> es[i + 1] == ChunkEvent(source.chunks[i], AgentName, Responding))
            && (es[|es| - 1] == StatusEvent(Complete, AgentName) <==> source.raised.None?)
            && (source.raised.Some? ==> es[|es| - 1] == ChunkEvent("Error: " + source.raised.value, AgentName, Error))
  {
    EventsEnds(source);
    EventsMiddle(source);
  }

  /** When the manager raised, no `complete` event appears anywhere. */
  lemma NoCompleteAfterError(source: ChunkSource)
    requires source.raised.Some?
    ensures forall i :: 0 <= i < |Events(source)| ==> Events(source)[i].status != Complete
  {
    var es := Events(source);
    EventsShape(source);
    forall i | 0 <= i < |es|
      ensures es[i].status != Complete
    {
      if 1 <= i < |es| - 1 {
        assert es[(i - 1) + 1] == ChunkEvent(source.chunks[i - 1], AgentName, Responding);
      }
    }
  }

  /** The text a reader gets by joining the chunks of the `responding` events. */
  function RespondedText(es: seq<Event>): string {
    if es == [] then []
    else
      var last := es[|es| - 1];
      RespondedText(es[..|es| - 1]) + (if last.ChunkEvent? && last.status == Responding then last.chunk else [])
  }

  lemma {:induction false} RespondedTextOfChunks(chunks: seq<string>)
    ensures RespondedText([StatusEvent(Thinking, AgentName)] + RespondingEvents(chunks)) == CrewManager.Concat(chunks)
  {
    if chunks != [] {
      var init := chunks[..|chunks| - 1];
      RespondedTextOfChunks(init);
      var es := [StatusEvent(Thinking, AgentName)] + RespondingEvents(chunks);
      assert es[..|es| - 1] == [StatusEvent(Thinking, AgentName)] + RespondingEvents(init);
    }
  }

  /** Joining the `responding` chunks gives back exactly what the manager
      yielded, whether or not it then raised. */
  lemma RespondedTextIsOutput(source: ChunkSource)
    ensures RespondedText(Events(source)) == CrewManager.Concat(source.chunks)
  {
    var es := Events(source);
    assert es[..|es| - 1] == [StatusEvent(Thinking, AgentName)] + RespondingEvents(source.chunks);
    RespondedTextOfChunks(source.chunks);
  }

  /** For the manager's own generator (which never raises once it yields),
      the stream holds one event per character of the answer plus two, and
      its chunks join to the answer. */
  lemma ManagerStream(kickoff: Result<string, string>)
    ensures var text := CrewManager.ResponseText(kickoff);
            var es := Events(ChunkSource(CrewManager.Characters(text), None));
            |es| == |text| + 2 && RespondedText(es) == text && es[|es| - 1] == StatusEvent(Complete, AgentName)
  {
    var text := CrewManager.ResponseText(kickoff);
    RespondedTextIsOutput(ChunkSource(CrewManager.Characters(text), None));
    CrewManager.ConcatCharacters(text);
  }

  /** `json.dumps` of the event's dictionary, keys in the order the code
      builds them and Python's default separators. */
  function EventJson(e: Event): string {
    match e
    case StatusEvent(s, agent) =>
      "{\"status\": " + Quote(StatusName(s)) + ", \"agent\": " + Quote(agent) + "}"
    case ChunkEvent(c, agent, s) =>
      "{\"chunk\": " + Quote(c) + ", \"agent\": " + Quote(agent)
      + ", \"status\": " + Quote(StatusName(s)) + ", \"tool_calls\": null}"
  }

  /** One event on the wire. */
  function Frame(payload: string): string {
    "data: " + payload + "\n\n"
  }

  /** The bytes of the whole response body. */
  function Wire(es: seq<Event>): string {
    if es == [] then [] else Frame(EventJson(es[0])) + Wire(es[1..])
  }

  /** The JSON of each event, in order. */
  function Payloads(es: seq<Event>): (r: seq<string>)
    ensures |r| == |es| && forall i :: 0 <= i < |es| ==> r[i] == EventJson(es[i])
  {
    if es == [] then [] else [EventJson(es[0])] + Payloads(es[1..])
  }

  predicate OneLine(s: string) {
    forall k :: 0 <= k < |s| ==> s[k] != '\n' && s[k] != '\r'
  }

  predicate Printable(s: string) {
    forall k :: 0 <= k < |s| ==> IsPlainAscii(s[k])
  }

  lemma PrintableAppend(a: string, b: string)
    requires Printable(a) && Printable(b)
    ensures Printable(a + b)
  {
    assert forall k :: |a| <= k < |a + b| ==> (a + b)[k] == b[k - |a|];
  }

  lemma PrintableQuote(s: string)
    ensures Printable(Quote(s))
  {
    QuoteIsOneLine(s);
  }

  lemma PrintableIsOneLine(s: string)
    requires Printable(s)
    ensures OneLine(s)
  {
  }

  lemma PrintableJoin4(a: string, b: string, c: string, d: string)
    requires Printable(a) && Printable(b) && Printable(c) && Printable(d)
    ensures Printable(a + b + c + d)
  {
    PrintableAppend(a, b);
    PrintableAppend(a + b, c);
    PrintableAppend(a + b + c, d);
  }

  /** The fixed parts of the payloads. */
  lemma KeysPrintable()
    ensures Printable("{\"status\": ") && Printable(", \"agent\": ") && Printable("}")
    ensures Printable("{\"chunk\": ") && Printable(", \"status\": ") && Printable(", \"tool_calls\": null}")
  {
  }

  lemma StatusObjectPrintable(name: string, agent: string)
    ensures Printable("{\"status\": " + Quote(name) + ", \"agent\": " + Quote(agent) + "}")
  {
    KeysPrintable();
    PrintableQuote(name);
    PrintableQuote(agent);
    PrintableJoin4("{\"status\": ", Quote(name), ", \"agent\": ", Quote(agent));
    PrintableAppend("{\"status\": " + Quote(name) + ", \"agent\": " + Quote(agent), "}");
  }

  lemma ChunkObjectPrintable(c: string, agent: string, name: string)
    ensures Printable("{\"chunk\": " + Quote(c) + ", \"agent\": " + Quote(agent)
                      + ", \"status\": " + Quote(name) + ", \"tool_calls\": null}")
  {
    KeysPrintable();
    PrintableQuote(c);
    PrintableQuote(agent);
    PrintableQuote(name);
    var head := "{\"chunk\": " + Quote(c) + ", \"agent\": " + Quote(agent);
    PrintableJoin4("{\"chunk\": ", Quote(c), ", \"agent\": ", Quote(agent));
    PrintableJoin4(head, ", \"status\": ", Quote(name), ", \"tool_calls\": null}");
  }

  /** Every payload is printable ASCII. */
  lemma EventJsonPrintable(e: Event)
    ensures Printable(EventJson(e))
  {
    match e
    case StatusEvent(s, agent) => StatusObjectPrintable(StatusName(s), agent);
    case ChunkEvent(c, agent, s) => ChunkObjectPrintable(c, agent, StatusName(s));
  }

  /** So every payload fits on one `data:` line. */
  lemma EventJsonIsOneLine(e: Event)
    ensures OneLine(EventJson(e))
  {
    EventJsonPrintable(e);
    PrintableIsOneLine(EventJson(e));
  }

  /** The index of the first line feed at or after `i`. */
  function LineEnd(w: string, i: nat): (r: Option<nat>)
    requires i <= |w|
    ensures r.Some? ==> i <= r.value < |w| && w[r.value] == '\n'
                        && forall j :: i <= j < r.value ==> w[j] != '\n'
    ensures r.None? ==> forall j :: i <= j < |w| ==> w[j] != '\n'
    decreases |w| - i
  {
    if i == |w| then None
    else if w[i] == '\n' then Some(i)
    else LineEnd(w, i + 1)
  }

  function PrependPayload(p: string, rest: Option<seq<string>>): Option<seq<string>> {
    match rest
    case Some(ps) => Some([p] + ps)
    case None => None
  }

  /** An event-stream reader restricted to streams of `data:` lines each
      followed by a blank line: the data of each event, or `None` on anything
      else. */
  function ReadStream(w: string): Option<seq<string>>
    decreases |w|
  {
    if w == [] then Some([])
    else if |w| < 6 || w[..6] != "data: " then None
    else
      match LineEnd(w, 6)
      case None => None
      case Some(k) =>
        if k + 1 < |w| && w[k + 1] == '\n' then PrependPayload(w[6..k], ReadStream(w[k + 2..]))
        else None
  }

  lemma ReadFrame(p: string, rest: string)
    requires OneLine(p)
    ensures ReadStream(Frame(p) + rest) == PrependPayload(p, ReadStream(rest))
  {
    var w := Frame(p) + rest;
    assert w[..6] == "data: ";
    assert w[6 + |p|] == '\n' && w[6 + |p| + 1] == '\n';
    assert forall j :: 6 <= j < 6 + |p| ==> w[j] == p[j - 6];
    assert LineEnd(w, 6) == Some(6 + |p|);
    assert w[6..6 + |p|] == p;
    assert w[6 + |p| + 2..] == rest;
  }

  /** A reader of the stream recovers every event's JSON, in order. */
  lemma {:induction false} ReadWire(es: seq<Event>)
    ensures ReadStream(Wire(es)) == Some(Payloads(es))
  {
    if es != [] {
      var p := EventJson(es[0]);
      var tail := es[1..];
      EventJsonIsOneLine(es[0]);
      ReadFrame(p, Wire(tail));
      ReadWire(tail);
    }
  }

  /** The request body `ChatRequest` accepts. */
  datatype ChatRequest = ChatRequest(message: string, employeeId: Option<string>, workflowId: Option<string>)

  /** `message` must hold between 1 and 2000 characters. */
  predicate ValidChatRequest(req: ChatRequest) {
    1 <= |req.message| <= 2000
  }

  /** `app.state.crew_manager`: missing, `None`, or a manager with its crew. */
  datatype ManagerSlot = NoAttribute | ManagerNone | Present(crew: Option<CrewManager.Crew>)

  const StreamHeaders: seq<Header> := [
    Header("Cache-Control", "no-cache"),
    Header("Connection", "keep-alive"),
    Header("X-Accel-Buffering", "no")
  ]

  const NoAttributeDetail: string :=
    "Crew manager not initialized. Please check backend logs for initialization errors."
  const ManagerNoneDetail: string :=
    "Crew manager is None. Please check backend logs for initialization errors."

  /** A request the framework rejects before the handler runs, an HTTP error
      with its detail, or the event stream. */
  datatype Reply =
    | ValidationFailed(status: int)
    | HttpError(status: int, detail: string)
    | EventStream(mediaType: string, headers: seq<Header>, body: string)

  /** `POST /chat`, given the manager slot and what the manager's generator
      does for this request. */
  function ChatEndpoint(req: ChatRequest, slot: ManagerSlot, source: ChunkSource): (r: Reply)
    ensures !ValidChatRequest(req) <==> r == ValidationFailed(422)
    ensures ValidChatRequest(req) && slot == NoAttribute ==> r == HttpError(500, NoAttributeDetail)
    ensures ValidChatRequest(req) && slot == ManagerNone ==> r == HttpError(500, ManagerNoneDetail)
    ensures r.EventStream? <==> ValidChatRequest(req) && slot.Present?
    ensures r.EventStream? ==> r.mediaType == "text/event-stream" && r.headers == StreamHeaders
    ensures r.EventStream? ==> r.body == Wire(Events(source))
  {
    if !ValidChatRequest(req) then ValidationFailed(422)
    else match slot
      case NoAttribute => HttpError(500, NoAttributeDetail)
      case ManagerNone => HttpError(500, ManagerNoneDetail)
      case Present(_) => EventStream("text/event-stream", StreamHeaders, Wire(Events(source)))
  }

  /** A client reading the endpoint's stream gets the JSON of every event the
      generator produced, in order, and joining the `responding` chunks gives
      back what the manager yielded. */
  lemma ChatStreamReads(req: ChatRequest, slot: ManagerSlot, source: ChunkSource)
    requires ValidChatRequest(req) && slot.Present?
    ensures ChatEndpoint(req, slot, source).EventStream?
    ensures ReadStream(ChatEndpoint(req, slot, source).body) == Some(Payloads(Events(source)))
    ensures RespondedText(Events(source)) == CrewManager.Concat(source.chunks)
  {
    var body := ChatEndpoint(req, slot, source).body;
    assert body == Wire(Events(source));
    ReadWire(Events(source));
    RespondedTextIsOutput(source);
  }

  datatype StatusReply = StatusFailed(status: int, detail: string) | StatusOk(report: CrewManager.StatusReport)

  /** `GET /chat/status`. Reading a missing attribute is not caught here, so
      the framework answers with its generic 500. */
  function ChatStatusEndpoint(slot: ManagerSlot): (r: StatusReply)
    ensures slot == NoAttribute ==> r == StatusFailed(500, "Internal Server Error")
    ensures slot == ManagerNone ==> r == StatusFailed(500, "Crew manager not initialized")
    ensures slot.Present? ==> r == StatusOk(CrewManager.AgentStatus(slot.crew))
  {
    match slot
    case NoAttribute => StatusFailed(500, "Internal Server Error")
    case ManagerNone => StatusFailed(500, "Crew manager not initialized")
    case Present(crew) => StatusOk(CrewManager.AgentStatus(crew))
  }
}
