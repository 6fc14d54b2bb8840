# Onboarding assistant: a verified model of its core

The repository is an HR onboarding assistant. A Next.js chat page talks through a proxy route to a
FastAPI backend. The backend runs a one-agent CrewAI crew and streams the crew's answer back as
server-sent events. This project models the parts of that system that carry logic of their own,
and proves what each part promises:

- **Conversation store** (`ChatStore`). The browser's message list, loading flag and error, with
  their five actions. It is a class over a `seq<Message>`; each action is specified by a pure
  sequence function.
- **Input box** (`InputArea`). The send guard is built on JavaScript's `trim` and UTF-16 `length`
  (`Text`). The module also covers the effects of a send on the store, the canned reply that a
  timer adds later, the 2000-unit cap kept by `onChange`, the counter and the Send button's rule.
  Clock readings are parameters. The timer is an explicit second step, `DeliverMockReply`.
- **Proxy route** (`ProxyRoute`). The chain of checks in `POST /api/chat` maps the parsed body and
  the backend's outcome to the response and to the request forwarded, if there is one.
- **Event stream** (`ChatApi`, `PyJson`). The chat endpoint's request check, its missing-manager
  guards, and the event sequence (`thinking`, one `responding` event per chunk, then `complete`
  or `error`). Each event is written as `data: <json>` and a blank line (section 9.2 of the
  WHATWG HTML Living Standard), with `json.dumps`'s escaping written out (section 7 of RFC 8259).
  A restricted reader is proved to recover every payload.
- **Crew manager** (`CrewManager`). The orchestrator guard when the crew is built, the task set
  for each message, and the character-by-character loop that hands the answer or the apology out.
  The module also covers the status report with its 100-character goal cut, and the two stub
  methods.
- **Agent loader** (`AgentLoader`, `PyData`). The loop that indexes the `agents` list by `id`,
  modelled with Python's truthiness and `dict.get`, and the defaults `create_agent_from_config`
  applies.
- **Stub tools** (`StubTools`). The record each placeholder tool returns.
- **Progress bar** (`ProgressIndicator`). The width clamp and the size classes.

`Wrappers` holds `Option` and `Result`. `Decimal` renders numbers as `f"{n}"` does, and as `${n}`
does for clock readings, and proves that different numbers render differently. Message ids and ticket ids rely on that.

## Model

| member | source | states |
|---|---|---|
| ChatStore.Store.constructor | frontend/store/chatStore.ts:16-18 | The store starts with no messages, not loading, and no error. |
| ChatStore.Appended | frontend/store/chatStore.ts:19-22 | Appending gives one more message: the old list stays as the prefix and the new message comes last. |
| ChatStore.Store.AddMessage | frontend/store/chatStore.ts:19-22 | `addMessage` appends the message and leaves the loading flag and the error unchanged. |
| ChatStore.AddsKeepCallOrder | frontend/store/chatStore.ts:19-22 | Any run of `addMessage` calls leaves the old messages followed by the new ones, exactly in call order. |
| ChatStore.WithContent | frontend/store/chatStore.ts:23-28 | The update keeps the length and the order. Every message carrying the id gets the new content, duplicates included, and every other message is unchanged. |
| ChatStore.WithContentAbsent | frontend/store/chatStore.ts:23-28 | Updating an id that no message carries leaves the list unchanged. |
| ChatStore.WithContentKeepsShape | frontend/store/chatStore.ts:23-28 | An update changes no id, role or timestamp; only the matching messages' contents change. |
| ChatStore.Store.UpdateMessage | frontend/store/chatStore.ts:23-28 | `updateMessage` replaces the list by its updated form and touches nothing else. |
| ChatStore.Store.SetLoading | frontend/store/chatStore.ts:29 | `setLoading` changes only the loading flag. |
| ChatStore.Store.SetError | frontend/store/chatStore.ts:30 | `setError` changes only the error. |
| ChatStore.Store.ClearMessages | frontend/store/chatStore.ts:31 | `clearMessages` empties the list and keeps the loading flag and the error. |
| Text.Trim | frontend/components/chat/InputArea.tsx:22 | `trim` as the text between the leading and the trailing whitespace; its characterisation is `TrimIsCore`. |
| Text.TrimIsCore | frontend/components/chat/InputArea.tsx:22 | `trim` keeps one contiguous piece of the input, and everything before and after that piece is JavaScript whitespace. |
| Text.TrimEnds | frontend/components/chat/InputArea.tsx:22 | The trimmed text is empty, or it neither starts nor ends with whitespace. |
| Text.TrimEmptyIff | frontend/components/chat/InputArea.tsx:22-23 | The trimmed text is empty exactly when the input is all whitespace. |
| Text.TrimIdempotent | frontend/components/chat/InputArea.tsx:22 | Trimming twice gives the same result as trimming once. |
| Text.TrimShortens | frontend/components/chat/InputArea.tsx:22-23 | Trimming never increases the UTF-16 length. |
| Text.Utf16Length | frontend/components/chat/InputArea.tsx:57 | JavaScript's `length` lies between the character count and twice that count. |
| Text.Utf16LengthAppend | frontend/components/chat/InputArea.tsx:57 | The UTF-16 length of a concatenation is the sum of the lengths. |
| Decimal.ValueOfShow | frontend/components/chat/InputArea.tsx:26 | Reading back a number's decimal rendering gives the number. |
| Decimal.ShowInjective | frontend/components/chat/InputArea.tsx:26 | Two numbers render to the same text exactly when they are equal. |
| Decimal.ShowIntReadsBack | backend/services/crew_manager.py:206 | `str` of an integer reads back to that integer: digits alone for a non-negative one, a minus sign before the digits of its absolute value for a negative one. |
| Decimal.ShowIntInjective | backend/services/crew_manager.py:206 | Two integers have the same `str` exactly when they are equal. |
| InputArea.AcceptedTextIsClean | frontend/components/chat/InputArea.tsx:21-23 | An accepted send's text is non-empty, has no surrounding whitespace and is within 2000 UTF-16 units; the input was not all whitespace. |
| InputArea.Accepts | frontend/components/chat/InputArea.tsx:23 | The send guard: the trimmed input is non-empty, the box is enabled and the trimmed input fits 2000 UTF-16 units; what it implies is `AcceptedTextIsClean`. |
| InputArea.SendDisabled | frontend/components/chat/InputArea.tsx:106 | The Send button's rule: disabled, or the trimmed input is empty, or the raw input is over 2000 units; related to the guard by `EnabledIffAccepted`. |
| InputArea.EnabledButtonSends | frontend/components/chat/InputArea.tsx:104-106 | Pressing an enabled Send button always leads to an accepted send. |
| InputArea.EnabledIffAccepted | frontend/components/chat/InputArea.tsx:106 | While the input is within the cap that `onChange` keeps, the button is enabled exactly when `handleSend` would accept. |
| InputArea.RemainingChars | frontend/components/chat/InputArea.tsx:57 | The counter is non-negative exactly when the input fits the cap, and is 2000 exactly when the input is empty. |
| InputArea.IsNearLimit | frontend/components/chat/InputArea.tsx:58 | The counter is shown exactly when the input is longer than 1900 UTF-16 units. |
| InputArea.UserMessage | frontend/components/chat/InputArea.tsx:25-30 | The user message carries the given text, the `user` role, the clock reading and the id `msg-<now>`. |
| InputArea.MockReply | frontend/components/chat/InputArea.tsx:38-44 | The reply carries the fixed mock text, the `assistant` role and the id `msg-<now + 1>`. |
| InputArea.UserMessageIdsDiffer | frontend/components/chat/InputArea.tsx:26 | Sends at different clock readings get different ids. |
| InputArea.InputBox.constructor | frontend/components/chat/InputArea.tsx:18 | The box starts empty with no pending reply. |
| InputArea.InputBox.OnChange | frontend/components/chat/InputArea.tsx:66-71 | A value within the cap replaces the input; a longer one is ignored. The cap holds after every change. |
| InputArea.InputBox.HandleSend | frontend/components/chat/InputArea.tsx:21-36 | When the guard rejects, nothing changes. When it accepts, exactly one user message holding the trimmed text is appended, loading is set, the trimmed text goes to the parent, the input is cleared and one reply timer starts. |
| InputArea.InputBox.DeliverMockReply | frontend/components/chat/InputArea.tsx:38-47 | The timer appends exactly the canned assistant reply and ends loading. |
| InputArea.InputBox.HandleKeyDown | frontend/components/chat/InputArea.tsx:50-55 | Only Enter without Shift prevents the default action and sends. Then an accepted input appends the user message, sets loading, clears the box and starts the reply timer, and a rejected one changes nothing. Any other key, and Shift+Enter, changes nothing. |
| InputArea.SendThenReply | frontend/components/chat/InputArea.tsx:21-47 | Typing, sending and the timer firing leave the earlier messages followed by the user message and then the reply, and loading ends. |
| ProxyRoute.MessageOf | frontend/app/api/chat/route.ts:21 | Reading `body.message` throws exactly on a `null` body, and finds a value exactly when the body is an object with that key. |
| ProxyRoute.Post | frontend/app/api/chat/route.ts:16-71 | A body that is not JSON, or is `null`, gives 500. A missing, empty or non-string message gives 400 before the length check, and an over-long one gives 400. The request is forwarded unchanged to `<backend>/api/chat` exactly when the message is valid. A failing backend status is passed on with "Backend error: " and its text, except 304: a JSON body with that status throws, so it gives 500. An unreachable backend gives 500. A 2xx answer is streamed back with the event-stream headers. |
| ProxyRoute.StatusesAreClosed | frontend/app/api/chat/route.ts:21-70 | Every answer is the stream, a 400, a 500 or the backend's own failing status other than 304; no other status, and no 503 or 304, can occur. |
| ProxyRoute.BoundaryMessagePasses | frontend/app/api/chat/route.ts:28-33 | A message of exactly 2000 UTF-16 units passes validation and is forwarded. |
| PyData.Get | backend/utils/agent_loader.py:74-84 | `dict.get` returns the stored value whenever the key is present, even a stored `None`, and the default only when the key is missing. |
| PyData.Str | backend/services/crew_manager.py:206 | `str` of a text value is the text, `str(None)` is "None", a bool gives "True" or "False", and an int gives its decimal form, which reads back by `Decimal.ShowIntReadsBack`. |
| AgentLoader.IndexAgents | backend/utils/agent_loader.py:49-55 | The indexing loop computes exactly `Indexed`: the dictionary built entry by entry, or the error raised by the first bad entry. |
| AgentLoader.Step | backend/utils/agent_loader.py:50-53 | One pass of the loop: a non-dict entry raises, a falsy id is skipped, an unhashable id raises, otherwise the entry is stored under its id. |
| AgentLoader.Indexed | backend/utils/agent_loader.py:49-55 | The loop's result after a list of entries; characterised by `IndexedSucceedsIff`, `IndexedKeys` and `IndexedLastWins`. |
| AgentLoader.IndexedStopsAtFailure | backend/utils/agent_loader.py:50-53 | Once an entry raises, the whole load fails with that error. |
| AgentLoader.IndexedSucceedsIff | backend/utils/agent_loader.py:49-55 | Indexing succeeds exactly when every entry is a dict and every truthy id can be a key. |
| AgentLoader.IndexedKeys | backend/utils/agent_loader.py:49-53 | The result's keys are exactly the truthy ids; entries with a missing or falsy id are skipped. |
| AgentLoader.IndexedLastWins | backend/utils/agent_loader.py:51-53 | Each stored value is an original entry, unmodified: the last entry with that id. |
| AgentLoader.LoadAgents | backend/utils/agent_loader.py:39-55 | A missing file raises the file-not-found error. A document without `agents` gives the empty dictionary. An `agents` list is indexed. |
| AgentLoader.AgentFromConfig | backend/utils/agent_loader.py:74-110 | For each of the eight keys, a present key gives its stored value, even `None`, and a missing key gives its default: empty role, goal and backstory; no delegation; verbose; 12 iterations; 300 seconds; memory on. Missing tools give `[]`, given tools are kept. |
| AgentLoader.MissingKeysDefault | backend/utils/agent_loader.py:74-104 | An entry with none of the keys gets all eight defaults and no tools. |
| StubTools.WorkflowStateManager | backend/tools/stub_tools.py:37-43 | Echoes the id and the state, reports "success", and turns missing metadata into `{}`. |
| StubTools.TaskScheduler | backend/tools/stub_tools.py:62-68 | Echoes the task, reports "scheduled", and turns missing dependencies into `[]`. |
| StubTools.ExceptionHandler | backend/tools/stub_tools.py:87-94 | Always reports `handled`, and escalates exactly when the error type is "permanent". |
| StubTools.I9Verifier | backend/tools/stub_tools.py:161-166 | The document id is the input's `id`, or `None` when it is absent; the result is always verified with no flags. |
| StubTools.ComplianceChecker | backend/tools/stub_tools.py:183-188 | Counts the documents, and reports them compliant with no flags. |
| StubTools.ItTicketSystem | backend/tools/stub_tools.py:208-215 | One ticket per access requirement; the i-th id is `SN-<employee>-<i+1>`. |
| StubTools.TicketIdsDistinct | backend/tools/stub_tools.py:208 | No two tickets of a batch share an id. |
| StubTools.TrainingCatalog | backend/tools/stub_tools.py:282-295 | The catalog is the two required modules `security-101` and `company-culture`. |
| StubTools.TrainingCatalogIgnoresInputs | backend/tools/stub_tools.py:268-295 | The role and the department do not change the catalog. |
| ProgressIndicator.Clamp | frontend/components/onboarding/ProgressIndicator.tsx:38 | The width is within [0, 100]. Progress already in range is unchanged; negative progress gives 0 and progress above 100 gives 100. |
| ProgressIndicator.ClampIsNearest | frontend/components/onboarding/ProgressIndicator.tsx:38 | The width is the point of [0, 100] nearest the progress. |
| ProgressIndicator.ClampIdempotent | frontend/components/onboarding/ProgressIndicator.tsx:38 | Clamping twice gives the same result as clamping once. |
| ProgressIndicator.ClampMonotone | frontend/components/onboarding/ProgressIndicator.tsx:38 | More progress never gives a narrower bar. |
| ProgressIndicator.SizeClass | frontend/components/onboarding/ProgressIndicator.tsx:11-16 | `sm` gives `h-2` and `lg` gives `h-4`; `md`, or no size, gives `h-3`. Each class comes from exactly those sizes. |
| CrewManager.InitialCrew | backend/services/crew_manager.py:56-87 | A missing or empty orchestrator entry fails with "onboarding_orchestrator configuration not found". Building succeeds exactly when the entry is present and non-empty and the agent library accepts its settings (`Constructible`): role, goal and backstory are text, delegation and verbose are flags, and max_iter is a count. Otherwise it fails with the settings error. Success builds one agent with the orchestrator's settings and its four tools, no tasks, and the given process. |
| CrewManager.OrNotProvided | backend/services/crew_manager.py:129-130 | A missing or empty id is shown as "Not provided"; any other id is shown as given. |
| CrewManager.TaskFor | backend/services/crew_manager.py:123-141 | The task goes to the crew's first agent and carries the message, with each id or "Not provided". |
| CrewManager.Description | backend/services/crew_manager.py:123-135 | The task description: the template text with the message and the two ids filled in. |
| CrewManager.ResponseText | backend/services/crew_manager.py:157-166 | The answer, or the apology with the error's message; what it carries is `ResponseTextCarries`. |
| CrewManager.ResponseTextCarries | backend/services/crew_manager.py:154-169 | The crew's answer is handed out unchanged. A failed run gives the apology prefix followed by exactly the error's message. |
| CrewManager.Characters | backend/services/crew_manager.py:158-159 | One piece per character, each piece being that character, in order. |
| CrewManager.ConcatCharacters | backend/services/crew_manager.py:158-159 | Joining the pieces gives the text back. |
| CrewManager.CharChunks | backend/services/crew_manager.py:158-159 | The loop yields exactly the characters of the text, and they join back to the text. |
| CrewManager.ShortGoal | backend/services/crew_manager.py:184 | A goal of at most 100 characters is kept whole. A longer one becomes its first 100 characters followed by "...". |
| CrewManager.AgentStatus | backend/services/crew_manager.py:171-189 | `crew_initialized` holds exactly when there is a crew, and `agent_count` equals the number of agents listed. With no crew the count is 0 and `process` is `None`. With a crew, each agent is listed in order with its role and shortened goal, and the process is reported. |
| CrewManager.InitiateOnboarding | backend/services/crew_manager.py:206-208 | The workflow id is "workflow-" followed by `str` of the stored employee id, whatever its scalar value (so a stored `None` gives "workflow-None" and an int its decimal form), or "workflow-unknown" when the id is absent. |
| CrewManager.WorkflowIdsDiffer | backend/services/crew_manager.py:206 | Employees with different numeric ids get different workflow ids. |
| CrewManager.GetWorkflowStatus | backend/services/crew_manager.py:224-228 | Echoes the id with status "unknown". |
| CrewManager.OnboardingCrewManager.constructor | backend/services/crew_manager.py:39-44 | The configuration is loaded and there is no crew yet. |
| CrewManager.OnboardingCrewManager.InitializeCrew | backend/services/crew_manager.py:56-89 | The crew is set to the initial crew, or the error is reported and the crew is left as it was. |
| CrewManager.OnboardingCrewManager.ProcessChatMessage | backend/services/crew_manager.py:91-169 | The crew's task list becomes exactly the one task for this message. The pieces handed out are the characters of the answer, or of the apology, and they join back to it. |
| CrewManager.OnboardingCrewManager.GetAgentStatus | backend/services/crew_manager.py:171-189 | The manager's status report reports a crew exactly when there is one; a constructed manager reports an initialised crew with at least one agent. |
| CrewManager.NewManager | backend/services/crew_manager.py:39-46 | Construction succeeds exactly when the initial crew can be built, yielding a manager holding it. Otherwise it fails with the guard's error. |
| ChatApi.RespondingEvents | backend/api/chat.py:58-70 | One `responding` event per chunk, carrying that chunk, in order. |
| ChatApi.Closing | backend/api/chat.py:73-82 | The last event is `complete` exactly when nothing was raised, and an `error` event exactly when something was. |
| ChatApi.Events | backend/api/chat.py:53-82 | The event sequence: `thinking`, the `responding` events, then the closing event; its shape (length, order, closing event) is proved by `EventsShape`. |
| ChatApi.EventsShape | backend/api/chat.py:53-82 | The stream has two more events than there are chunks and starts with `thinking`. Event i+1 carries chunk i. The last event is `complete` exactly when nothing was raised; otherwise it is the `error` chunk "Error: <message>". |
| ChatApi.EventsEnds | backend/api/chat.py:53-82 | Every stream starts with `thinking` and ends with its closing event. |
| ChatApi.EventsMiddle | backend/api/chat.py:58-70 | Event i+1 of a stream carries chunk i as a `responding` event. |
| ChatApi.NoCompleteAfterError | backend/api/chat.py:75-82 | After an exception, no `complete` event appears anywhere in the stream. |
| ChatApi.RespondedTextIsOutput | backend/api/chat.py:58-70 | Joining the chunks of the `responding` events gives exactly what the manager yielded, whether or not it then raised. |
| ChatApi.ManagerStream | backend/api/chat.py:53-73 | For the manager's answer, the stream has one event per character plus two, its chunks join to the answer, and it ends with `complete`. |
| ChatApi.Payloads | backend/api/chat.py:55-82 | The payload of each event is its JSON, in order. |
| ChatApi.EventJson | backend/api/chat.py:55-82 | Each event's `json.dumps` text, keys in the order the code builds them; printable and one line by `EventJsonPrintable` and `EventJsonIsOneLine`. |
| ChatApi.Frame | backend/api/chat.py:55-82 | One event on the wire: `data: `, the payload, and a blank line; read back by `ReadFrame`. |
| ChatApi.Wire | backend/api/chat.py:53-82 | The response body, the frames of the events in order; read back by `ReadWire`. |
| ChatApi.EventJsonPrintable | backend/api/chat.py:55-82 | Every event's JSON is printable ASCII. |
| ChatApi.EventJsonIsOneLine | backend/api/chat.py:55-82 | Every event's JSON fits on one `data:` line. |
| ChatApi.ReadWire | backend/api/chat.py:53-82 | Reading the framed stream recovers every event's JSON, in order. |
| ChatApi.ChatEndpoint | backend/api/chat.py:25-130 | A message outside 1 to 2000 characters is rejected with 422. A missing manager attribute and a `None` manager each give 500 with their detail. Otherwise the reply is the event stream with its media type, its headers and the framed events as body. |
| ChatApi.ChatStreamReads | backend/api/chat.py:122-130 | A valid request with a manager present gets the event stream, and a client reading it gets every event's JSON in order, and the `responding` chunks join to what the manager yielded. |
| ChatApi.ChatStatusEndpoint | backend/api/chat.py:133-146 | A missing attribute gives the framework's 500 and a `None` manager gives 500 "Crew manager not initialized". Otherwise the reply is the manager's status report. |
| PyJson.EscapeBody | backend/api/chat.py:70 | `json.dumps` writes every character as printable ASCII. |
| PyJson.EscapeChar | backend/api/chat.py:70 | How `json.dumps` writes one character: the short escapes, printable ASCII as itself, `\uXXXX` otherwise, and a surrogate pair beyond the Basic Multilingual Plane; read back by `UnescapeChar`. |
| PyJson.Quote | backend/api/chat.py:70 | `json.dumps` of a string: the escaped body in double quotes; characterised by `QuoteIsOneLine`. |
| PyJson.UnescapeChar | backend/api/chat.py:70 | A parser reads each escaped character back as that character, including characters beyond the Basic Multilingual Plane written as surrogate pairs. |
| PyJson.UnescapeEscapeBody | backend/api/chat.py:70 | A parser reads back exactly the string `json.dumps` wrote. |
| PyJson.QuoteIsOneLine | backend/api/chat.py:55-82 | A written string literal is quoted and printable ASCII, so it holds no line break, and its body reads back as the original string. |

## Left out

- The message-text extraction and the client that decodes the event stream are not part of this model.
- Network I/O is left out: `fetch` and the piping of the backend body in the proxy route, and FastAPI's streaming transport. The backend's outcome and the manager's chunks are inputs.
- The language-model and CrewAI calls (`ChatOpenAI`, `Crew`, `Agent`, `Task`, `kickoff`, `run_in_executor`) are foreign code. The crew's answer or the raised error's message is a parameter (`kickoff`).
- `asyncio.sleep` between characters is left out because it only delays.
- `Date.now()`, `new Date()` and `setTimeout` are clock and timer effects. Clock readings are parameters, and the timer is the explicit `DeliverMockReply` step.
- `yaml.safe_load` and file reading are left out. The parsed document and whether the file exists are inputs.
- Settings, logging and tool registration (`utils/config.py`, `structlog`, `@tool`) are left out because they do not affect the modelled results.
- The other stub tools (`notification_system`, `document_collector`, `access_provisioning_api`, `lms_integration`, `email_system`, `calendar_manager`) are left out; they only echo their arguments. `notification_system` appears only by name, in the orchestrator's tool list.
- AgentLoader.AgentFromConfig: the language model passed to the agent is left out because it is a foreign object; so is the crew's `manager_llm`.
- CrewManager.InitialCrew: the crew's `memory`, `verbose` and `max_rpm` arguments come from the settings in `utils/config.py`, which is not part of this model.
- CrewManager.InitialCrew: the agent library's validation is modelled by `Constructible`, which is an assumption about that library. It accepts text for role, goal and backstory, a bool or the int 0 or 1 for `allow_delegation` and `verbose`, and an int or a bool for `max_iter`. Other values, such as the `None` an empty YAML value loads as, are modelled as an initialisation failure. The library's own error message is not modelled.
- CrewManager.InitialCrew: the library's coercion of text such as "true" or "12" into a flag or a count is not modelled; the model refuses text there. The `max_execution_time` and `memory` settings are passed on without a check.
- CrewManager.InitialCrew: `str(Process.sequential)` is whatever the process name passed in is, because its rendering belongs to the agent library.
- CrewManager.InitiateOnboarding: its requires restricts `employee_id` to scalar values, because `str` of a list or a dict is not modelled.
- CrewManager.OnboardingCrewManager.ProcessChatMessage: `conversation_history` is accepted by the source but never used, so it is not a parameter.
- ChatApi.ReadStream is a restricted event-stream reader. It covers only streams of `data:` lines each ended by a blank line, which is all the endpoint writes. Comments, other fields and CR line ends are not modelled.
- ChatApi.ChatEndpoint: the body of FastAPI's 422 response and the charset suffix Starlette adds to the content type are left out, because they belong to the framework.
- ChatApi.ChatStatusEndpoint: the uncaught `AttributeError` is modelled as the framework's generic 500 "Internal Server Error".
- ProxyRoute.Post: a JSON number is kept only as whether it is zero, the only thing the route tests about it.
- ProxyRoute.Post: there is no separate 503 for an unreachable backend; every thrown failure reaches the single `catch` (route.ts:61-70) and becomes 500.
- ProxyRoute.Post: the `details` text for a backend 304 is the TypeError message of Node.js's `Response`; other runtimes word it differently.
- Python treats `1` and `True` as the same dictionary key. The model's values keep them apart, and the model has no floats.
- The keys of an agent entry are taken to be text, as YAML mappings of agent settings have them.
- ProgressIndicator.Clamp: `NaN` and the infinities are not modelled, because the progress is a real number. The unclamped label and `aria-valuenow` are rendering only.
- InputArea and Text count lengths in UTF-16 code units, as JavaScript does. The backend's 2000-character limit counts characters, so the two limits differ for text outside the Basic Multilingual Plane.
- `Message.toolCalls` is left out because `lib/types` is not part of this model. The stored messages keep only their id, role, content and timestamp.
- The rendering-only components, the placeholder pages, the stub endpoints, the server bootstrap and the manual scripts are left out because they hold no logic to state.
- DocumentUpload is left out: its file list is never filled, so `removeFile` cannot run.
