# AgentCore chat client and Strands agent entrypoint — a Dafny model

The system is a Streamlit chat page that talks to an agent hosted on Amazon
Bedrock AgentCore, plus the agent's entrypoint. The entrypoint runs a Strands
agent with the tools of an MCP server.

This project models four parts of it and proves their properties:

- **Stream classification** (`StreamClassifier`, `ClassifierProperties`).
  This is `invoke_agent` in `streamlit_app.py`.
  - It frames an event-stream response line by line.
  - It JSON-decodes each `data: ` payload.
  - It classifies the decoded value, first match wins, into tagged events: `init`, `message_start`, `text`,
    `tool_use`, `content_block_stop`, `message_stop`, `metadata`, `strands_tool`,
    `strands_internal`, `raw` and `error`.
  - Any exception ends the stream with one error event.
- **Turn rendering** (`TurnRender`, `RenderProperties`). This is the loop on
  the chat page that consumes those events.
  - It keeps the text buffer, the deduplicated tool placeholders, the thinking indicator and the
    last metadata payload.
  - At the end it finalises the turn: it completes the running tools and drops the cursor.
  - `TurnRenderer` is a class whose fields are the loop's variables. `Step` is proved against the
    pure function `Next`, the loop `ConsumeEvents` against `Run`, and `Finish` against `Finalize`.
  - The properties are proved about those functions.
- **The chat session** (`ChatSession`). Submitting a prompt records it, renders
  the turn and records the reply.
- **The agent entrypoint** (`ToolDetection`, `ToolDetails`, `Pipeline`). This is
  `my_strands_agent.py`.
  - It recognises tool invocations in the agent's events.
  - It inserts a synthetic `tool_use` event before each of them.
  - It forwards every event.
  - It normalises the MCP tool descriptors.

Python's dynamic typing is modelled explicitly:

- Decoded values are `Json`.
- `key in x`, `x[key]` and `x.get(...)` are partial (`PyJson`). They raise `TypeError`, `KeyError` or `AttributeError` on
  the wrong type, as Python does.

An exception the chat page does not catch aborts the page run. In the model
it makes `Step`/`Finish` report failure. `Converse` then stores no reply.

Library behaviour is passed in as function parameters: UTF-8 decoding,
`json.loads`, `repr`, and `str(x).lower()`.

Behaviour a reader might not expect, which the model follows:

- A payload that decodes to a bare JSON string (`data: "Hello"`) yields no event. The string branch at `streamlit_app.py:133-135`
  is nested inside the dict test at line 60 and is never reached.
- The `toolUse` delta branch at `streamlit_app.py:80-84` repeats the test of the
  branch before it and is never taken.
- A strands tool expander shows `str(name)`, not the formatted display name.
- `content_block_stop` completes the earliest running tool, although the comment at line 369 speaks of the last one.
- The end of the turn marks the remaining tools complete, but does not remove
  them from the running set.

## Model

| member | source | states |
|---|---|---|
| PyText.RemoveAll | streamlit_app.py:274 | `str.replace(pat, '')` never lengthens the string |
| PyText.RemoveAllAbsent | streamlit_app.py:274 | removing a pattern that does not occur leaves the string unchanged |
| PyText.RemoveAllLeading | streamlit_app.py:274 | removing `aws___` from `aws___` + a rest that does not contain it gives the rest |
| StreamClassifier.ClassifyEvent | streamlit_app.py:66-107 | the `event` dispatch yields at most one event, and never a raw or error event; a raise is a fault |
| StreamClassifier.ContentEntries | streamlit_app.py:121-129 | iterating `message.content` yields only tool_use events, at most one per entry |
| StreamClassifier.MessageContent | streamlit_app.py:119-129 | a complete message yields only tool_use events, never text, whatever `content` is |
| StreamClassifier.ClassifyDecoded | streamlit_app.py:60-132 | classifying a decoded value yields only semantic events (no raw, no error) |
| StreamClassifier.Undecoded | streamlit_app.py:141-145 | a non-JSON line yields at most one event |
| StreamClassifier.ClassifyPayload | streamlit_app.py:48-145 | handling one payload never yields an error event itself, and yields no raw event with raw analysis off |
| StreamClassifier.ClassifyLine | streamlit_app.py:42-46 | handling one line never yields an error event itself, and yields no raw event with raw analysis off |
| StreamClassifier.EventStream | streamlit_app.py:42-163 | the generator over an event-stream body yields no raw event with raw analysis off, and a body that fails always ends in an error event |
| StreamClassifier.DecodeChunks | streamlit_app.py:149-152 | the body decodes exactly when every chunk is UTF-8; no chunks give the empty text and one chunk gives its own decoding |
| ClassifierProperties.DecodeChunksAppend | streamlit_app.py:149-152 | the body's text is the chunks' decodings joined in order: two decodable stretches of chunks give the first's text followed by the second's |
| StreamClassifier.JsonDocument | streamlit_app.py:147-156 | an `application/json` response yields exactly one event, a text event exactly when the body decodes, did not fail and is JSON, otherwise an error |
| StreamClassifier.InvokeAgent | streamlit_app.py:24-163 | a failed runtime call yields one transport error; a response that is not an event stream yields exactly one event; with raw analysis off no raw event is yielded |
| ClassifierProperties.WithoutRaw | streamlit_app.py:49-58 | dropping the raw events leaves a subsequence of the stream, in its order, with no raw event in it and every non-raw event of the stream still in it |
| ClassifierProperties.WithoutRawAppend | streamlit_app.py:49-58 | dropping raw events distributes over concatenation |
| ClassifierProperties.WithoutRawNoRaw | streamlit_app.py:49-58 | a stream without raw events is unchanged by dropping them |
| ClassifierProperties.LineFraming | streamlit_app.py:42-46 | blank lines and lines without `data: ` yield nothing; non-UTF-8 raises; otherwise the payload after the 6-character prefix is classified |
| ClassifierProperties.RawEventsComeFirst | streamlit_app.py:48-58 | raw analysis puts RAW LINE, then PARSED DATA or NON-JSON LINE, in front of the line's own events, and changes nothing else |
| ClassifierProperties.InitWins | streamlit_app.py:62-63 | a truthy `init_event_loop`, `start` or `start_event_loop` yields `init` whatever else the dict holds |
| ClassifierProperties.NonDictIsSilent | streamlit_app.py:60-135 | a decoded value that is not a dict, including a bare string, yields nothing |
| ClassifierProperties.DeltaYieldsTextIff | streamlit_app.py:74-77 | a content-block delta yields one text event exactly when its `text` is truthy |
| ClassifierProperties.BlockStartYieldsToolUse | streamlit_app.py:87-95 | a content-block start with `toolUse` yields one tool_use with the defaults `Unknown Tool`, `''`, `{}` |
| ClassifierProperties.EventKeyDispatches | streamlit_app.py:60-67 | a dict with `event` and no truthy init key is classified by the `event` sub-dispatch alone |
| ClassifierProperties.MessageStartWins | streamlit_app.py:69-71 | `messageStart` yields one message_start event carrying it, whatever other keys the event holds |
| ClassifierProperties.BlockStopYields | streamlit_app.py:97-99 | without the keys tested before it, `contentBlockStop` yields one content_block_stop event carrying it |
| ClassifierProperties.MessageStopYields | streamlit_app.py:101-103 | without the keys tested before it, `messageStop` yields one message_stop event carrying it |
| ClassifierProperties.MetadataYieldsLast | streamlit_app.py:105-107 | `metadata` is tested last and yields one metadata event; an event with none of the six keys yields nothing |
| ClassifierProperties.StrandsToolYields | streamlit_app.py:110-114 | a dict with `tool_name` and `type` "tool_use" yields one strands_tool event, its debug data defaulting to `{}` |
| ClassifierProperties.InternalMarkerYields | streamlit_app.py:117-118 | otherwise a dict whose printed form mentions `event_loop_cycle_id` yields one strands_internal event carrying it |
| ClassifierProperties.TextDataYields | streamlit_app.py:118-132 | otherwise, when there is no `message` or `'content' in message` is false for a dict, string or list message, a string `data` yields one text event carrying it, and any other dict yields nothing |
| ClassifierProperties.ContentEntriesYieldToolUses | streamlit_app.py:121-129 | each `toolUse` entry of a message yields its tool_use event, in order, and other entries nothing |
| ClassifierProperties.MessageContentNeverText | streamlit_app.py:119-129 | a complete message only ever yields tool_use events |
| ClassifierProperties.UndecodedFallback | streamlit_app.py:136-145 | a non-JSON line with `'event_loop_cycle_id'` is internal; one not starting `{'` or `{"` is text; the rest are dropped |
| ClassifierProperties.StreamErrorIsLast | streamlit_app.py:42-163 | an event stream has at most one error event, and only as its last event |
| ClassifierProperties.StreamEndsInErrorIff | streamlit_app.py:42-163 | an event stream ends in an error event exactly when some line raises while it is handled or the body itself fails |
| ClassifierProperties.FirstFaultEndsStream | streamlit_app.py:42-163 | the first line that raises ends the stream, with that line's exception as the last event, whatever the body does afterwards |
| ClassifierProperties.ErrorIsLast | streamlit_app.py:24-163 | whatever the response, an error event can only be the last event |
| ClassifierProperties.StreamConcat | streamlit_app.py:42 | the stream of `a + b` is the stream of `a` followed, unless `a` raised, by the stream of `b` |
| ClassifierProperties.ErrorFreePrefix | streamlit_app.py:162-163 | error-free events in front do not change whether a stream ends in an error |
| ClassifierProperties.TransportFailureKeepsEvents | streamlit_app.py:42-163 | a body that fails after its lines keeps every event of those lines, then adds one error |
| ClassifierProperties.RawLineOnlyAddsRaw | streamlit_app.py:42-145 | for one line, raw analysis adds only raw events and stops the stream exactly when it would stop without it |
| ClassifierProperties.RawModeOnlyAddsRaw | streamlit_app.py:48-145 | with raw analysis on, the stream minus its raw events is exactly the stream with it off |
| ClassifierProperties.JsonResponseText | streamlit_app.py:147-156 | an `application/json` document yields one text event: its `message` when it is a dict with one, otherwise its printed form |
| ClassifierProperties.JsonResponseFaults | streamlit_app.py:147-163 | an `application/json` body that is not UTF-8, fails or is not JSON yields exactly one error event of that kind |
| ClassifierProperties.OtherContentShown | streamlit_app.py:158-160 | any other content type yields the printed response as one text event |
| TurnRender.CompleteFirstKeepsWellformed | streamlit_app.py:365-374 | completing and removing the first running tool keeps the placeholder invariant |
| TurnRender.AddToolKeepsWellformed | streamlit_app.py:284-291 | adding a new tool placeholder keeps the placeholder invariant |
| TurnRender.DisplayName | streamlit_app.py:264-277 | a tool is shown under its own name exactly when it is outside the `aws___` namespace; an other `aws___` tool is shown by a shorter name and never mentions `recommend` |
| TurnRender.Next | streamlit_app.py:234-378 | one loop step keeps the state well formed: running tools are exactly the incomplete placeholders, in creation order; ids are distinct and shown; the message shows the buffer plus the cursor once text started |
| TurnRender.Run | streamlit_app.py:234-378 | the loop over any event sequence keeps the state well formed |
| TurnRender.ShowMetric | streamlit_app.py:397-400 | `st.metric` accepts a value exactly when it is not a list or a dict, shows it unchanged, and raises TypeError otherwise |
| TurnRender.MetricsOf | streamlit_app.py:389-401 | no payload or a falsy one builds no panel and raises nothing; a panel is built only from a truthy payload; a truthy dict payload raises exactly when its `usage` or `metrics` is not a dict or a token count is a list or a dict; a truthy payload that is not a dict raises |
| TurnRender.CompleteRunning | streamlit_app.py:415-416 | the loop over the running tools marks exactly their placeholders complete |
| TurnRender.Finalize | streamlit_app.py:389-420 | the end of the turn raises only where building the metrics panel raises; it keeps the buffer, the tools shown, the running set, the raw and error lists, and every placeholder except its completion flag |
| TurnRender.TurnRenderer.constructor | streamlit_app.py:221-231 | a turn starts with an empty buffer, no tools, no indicator, no metadata |
| TurnRender.TurnRenderer.Step | streamlit_app.py:234-378 | one event updates the fields in place exactly as `Next` says, or reports the exception and changes nothing |
| TurnRender.TurnRenderer.ShowToolUse | streamlit_app.py:254-307 | a tool_use event updates the fields as `Next` says |
| TurnRender.TurnRenderer.AddTool | streamlit_app.py:284-291 | a fresh id is shown, becomes the last running tool and gets a new incomplete placeholder; nothing else changes and the invariant holds |
| TurnRender.TurnRenderer.ShowStrandsTool | streamlit_app.py:309-322 | a strands_tool event updates the fields as `Next` says |
| TurnRender.TurnRenderer.ShowText | streamlit_app.py:345-360 | a text event updates the fields as `Next` says |
| TurnRender.TurnRenderer.CompleteFirstTool | streamlit_app.py:365-374 | content_block_stop updates the fields as `Next` says |
| TurnRender.TurnRenderer.Finish | streamlit_app.py:389-420 | the end of the turn updates the fields as `Finalize` says and returns the buffer, or reports the exception |
| RenderProperties.InitialWellformed | streamlit_app.py:221-231 | the initial turn state satisfies the placeholder invariant |
| RenderProperties.NextAppendsChunk | streamlit_app.py:345-360 | every step appends exactly the event's visible text; a whitespace-only chunk changes nothing at all |
| RenderProperties.RunNextAppendsChunk | streamlit_app.py:345-360 | a run that renders one more event appends that event's visible text to the buffer of the shorter run |
| RenderProperties.RunAppendsText | streamlit_app.py:345-360 | over any run the buffer is the old buffer followed by every visible text chunk in order (append-only) |
| RenderProperties.RunAbortPersists | streamlit_app.py:234 | once an event raises, the rest of the turn is not rendered |
| RenderProperties.DuplicateToolUseIgnored | streamlit_app.py:260-262 | a tool_use whose non-empty id was already shown changes nothing |
| RenderProperties.NewToolUseCreatesOneRecord | streamlit_app.py:264-291 | a fresh non-empty id creates one running placeholder with its display name, last in order, hides the indicator; repeating it changes nothing |
| RenderProperties.EmptyIdRecordsNothing | streamlit_app.py:285-291 | a tool_use with an empty id creates no placeholder and shows no id |
| RenderProperties.StrandsToolShownOnce | streamlit_app.py:309-322 | a strands tool is shown once per `strands_<name>` key, as its name, and never becomes a running placeholder |
| RenderProperties.HiddenToolUsageIgnoresTools | streamlit_app.py:254-322 | with tool usage hidden, tool_use and strands_tool events change nothing |
| RenderProperties.BlockStopCompletesEarliest | streamlit_app.py:365-374 | content_block_stop completes the earliest-created running placeholder, and only it; every earlier one is already complete; a no-op when none runs |
| RenderProperties.FinalizeCompletesAll | streamlit_app.py:410-420 | the end of the turn marks every placeholder complete and changes nothing else about them, hides the indicator, and shows the buffer without the cursor |
| RenderProperties.FinalizeIdempotent | streamlit_app.py:410-420 | finalising twice is finalising once |
| RenderProperties.MetricsShownAtEnd | streamlit_app.py:335-400 | metadata is only stored during the loop; the panel built at the end shows its counts, defaulting to 0, and a token count that is a list or a dict makes the end of the turn raise |
| RenderProperties.AwsToolShownWithoutPrefix | streamlit_app.py:265-274 | an `aws___` tool outside the documentation keywords is shown by its name without the prefix |
| RenderProperties.AwsDocToolsByKeyword | streamlit_app.py:265-272 | the AWS documentation tools are recognised by keyword in order: search, then read, then recommend |
| RenderProperties.OtherToolShownByName | streamlit_app.py:275-277 | a tool outside the `aws___` namespace is shown by its own name, whatever keywords it contains |
| ChatSession.TurnReply | streamlit_app.py:345-423 | the stored reply, when the turn renders to the end, is exactly the visible text chunks of the turn, in order |
| ChatSession.ErrorKeepsReply | streamlit_app.py:362-423 | a trailing error event leaves the stored reply, the partial text, as it was |
| ChatSession.TextStepKeepsMetadata | streamlit_app.py:345-363 | a string text chunk or an error never raises and leaves the stored metadata as it was |
| ChatSession.TextTurnCompletes | streamlit_app.py:345-423 | a turn made only of string text chunks and errors always completes and stores a reply |
| ChatSession.TwoChunksText | streamlit_app.py:357 | two visible chunks and an error contribute the two chunks joined |
| ChatSession.TwoChunksThenFailure | streamlit_app.py:42-163 | two text lines and a broken connection give two text events and an error, and store the two texts joined |
| ChatSession.RenderTurn | streamlit_app.py:218-423 | a fresh renderer consumes the events and finishes the turn; it reports success exactly when the turn renders to the end, and then returns the stored reply |
| ChatSession.ConsumeEvents | streamlit_app.py:234-378 | the loop leaves the renderer in the state `Run` gives for the events, and stops exactly when some event raises |
| ChatSession.Session.constructor | streamlit_app.py:8-11 | a new session has a fresh id and no messages |
| ChatSession.Session.Reset | streamlit_app.py:173-175 | a new session gets a fresh id and an empty history |
| ChatSession.Session.Converse | streamlit_app.py:209-423 | the prompt is recorded first; the reply is recorded exactly once, after it, when the turn rendered to the end; otherwise the history holds only the prompt |
| ToolDetection.Expand | my_strands_agent.py:69-118 | each event is yielded last, after at most one other event |
| ToolDetection.ExpandShape | my_strands_agent.py:69-118 | a synthetic event comes first exactly when the event is a dict whose detected name is truthy and neither `''` nor `Unknown Tool`, and it carries that name and the event |
| ToolDetection.RelayStream | my_strands_agent.py:64-118 | the loop yields exactly `Relayed` of the events |
| ToolDetection.RelayedAppend | my_strands_agent.py:64-118 | relaying a stream is relaying its parts one after the other |
| ToolDetection.ForwardedInPlace | my_strands_agent.py:112-118 | every incoming event sits, unchanged, at the end of its own segment of the output, which is its expansion: at most one synthetic event built from it, then the event |
| ToolDetection.ForwardedInOrder | my_strands_agent.py:64-118 | incoming events are yielded in their original order |
| ToolDetection.RelayedLength | my_strands_agent.py:112-118 | the output has one event per input event plus one per announced tool |
| ToolDetection.MarkerWithoutNameSuppresses | my_strands_agent.py:78-112 | a tool-use-marked event without `name`, `tool_name`, `function_name` gets no synthetic event, whatever its text |
| ToolDetection.MarkedLookupOrder | my_strands_agent.py:78-79 | a marked event's name is `name`, then `tool_name`, then `function_name` |
| ToolDetection.ToolObjectBeatsHeuristics | my_strands_agent.py:82-84 | an unmarked event with a `tool` dict is named from it, never by the substring heuristics |
| ToolDetection.HeuristicsOrder | my_strands_agent.py:74-112 | an event neither marked nor carrying a `tool` dict is named by the heuristics, and gets a synthetic event exactly when they name it |
| ToolDetection.HeuristicArms | my_strands_agent.py:87-109 | the heuristic arms in order: AWS documentation (search, read, generic), then MCP with `call`, `invoke` or `execute` (search_documentation, read_documentation, recommend, `MCP Tool`), then `External Service` for a function, API or service call, otherwise no name |
| ToolDetection.HeuristicName | my_strands_agent.py:87-109 | the heuristics either give no name or a name that is announced |
| ToolDetection.DetectToolName | my_strands_agent.py:69-109 | for an event neither marked nor carrying a `tool` dict, the detected name is absent or announced |
| ToolDetails.CollectToolDetails | my_strands_agent.py:43-54 | one descriptor per tool, in order; the description defaults to `No description available`; `input_schema` is present exactly when the tool has one, as its string form |
| Pipeline.SyntheticIsStrandsTool | streamlit_app.py:110-114 | a synthetic event from the entrypoint is classified by the client as a strands_tool event carrying the name and the original event |

## Left out

- Streamlit widgets, layout, the sidebar, expanders and the emoji/Japanese
  message text are left out. They are user interface: the indicator, the placeholders and the labels are abstract
  values.
- The debug event list (`debug_events`) and the debug expander are left out. They are diagnostic display only.
  With debug on, the `.get` on a `message_stop` payload that is not a dict
  still raises in the model.
- The boto3 client, the `invoke_agent_runtime` call, the MCP client, tool
  listing, `Agent` and `stream_async` are left out. They are remote services. The response and the agent's event stream are
  inputs.
- The prompt given to the agent, including the `user_message` default of the entrypoint, is not
  modelled: it decides what the agent streams, and the agent's events are an input.
- UUID session ids are parameters. They are randomness.
- Logging is left out, including the `tool_names` list. It has no observable effect on the events.
- `json.loads`, `json.dumps`, UTF-8 decoding, `repr` and `str(x).lower()` are function
  parameters. They are library behaviour. The JSON produced by the entrypoint is assumed to
  reach the client decoded as the same value.
- An error event carries the exception's kind, not the text of `str(e)`.
- JSON numbers are modelled as reals. The `NaN` and `Infinity` that `json.loads` also accepts
  have no counterpart; both are truthy in Python, and no branch of the core depends on them.
- Of `st.metric`, only its check of the value's type is modelled (a list or a dict raises
  TypeError); how the value is rendered is user interface.
- JSON values are compared structurally. Python's `1 == 1.0 == True` equality is not modelled, and
  it matters in one place: the de-duplication set of shown tools (`displayed_tools`, keyed by tool ids
  of any JSON type) compares ids structurally, so a boolean id and a numeric id that Python treats as
  equal (`true` after `1`) make two tool records in the model where Python skips the second.
- The iteration order of decoded JSON objects is not modelled. Where that order could
  matter (iterating a dict as `message.content`) it does not, by construction: no event is
  yielded before the first key that raises. The insertion order of the running tools
  (`active_tool_placeholders`) is modelled, by the sequence `activeTools`.
- The `async for` of the entrypoint is sequential iteration. No concurrency is
  modelled.
