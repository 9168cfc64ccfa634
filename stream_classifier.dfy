/** `invoke_agent` in streamlit_app.py: turns the agent runtime's response into
    an ordered stream of tagged events.  An event-stream body is read line by
    line; each line is framed (`data: ` prefix), JSON-decoded, and classified by
    a first-match-wins dispatch on the decoded value's shape.  Any exception
    ends the stream with a single error event. */
module StreamClassifier {
  import opened PyText
  import opened PyJson

  /** What raw-response analysis adds to the stream for one line. */
  datatype RawUnit =
    | RawLine(line: string)       // the line after framing, before decoding
    | ParsedData(data: Json)      // the decoded value
    | NonJsonLine(line: string)   // a line that did not decode

  /** The tagged tuples `invoke_agent` yields.  Payloads are Python values and
      keep whatever type the decoded JSON gave them. */
  datatype Event =
    | Init(data: Json)
    | MessageStart(info: Json)
    | Text(chunk: Json)
    | ToolUse(name: Json, id: Json, input: Json)
    | ContentBlockStop(info: Json)
    | MessageStop(info: Json)
    | Metadata(info: Json)
    | StrandsTool(name: Json, debugData: Json)
    | StrandsInternal(data: Json)
    | Raw(unit: RawUnit)
    | Error(fault: Fault)

  /** Library behaviour the classifier calls but does not define: UTF-8
      decoding of a line, `json.loads` (None on JSONDecodeError), and `repr`. */
  datatype Foreign = Foreign(utf8: Bytes -> Option<string>, loads: string -> Option<Json>, repr: Json -> string)

  /** A response from the agent runtime: the call itself failed, or a content
      type, a body that yields `lines` and then possibly raises `failure`, and
      `shown`, the printed form of the whole response.  A missing content type
      is the empty string. */
  datatype Response =
    | InvokeFailed(reason: string)
    | Response(contentType: string, lines: seq<Bytes>, failure: Option<string>, shown: string)

  /** The events produced while handling one unit, and the exception, if any,
      that stopped the handling after them. */
  datatype Emitted = Emitted(events: seq<Event>, stop: Option<Fault>)

  function Done(events: seq<Event>): Emitted {
    Emitted(events, None)
  }

  function Lift(p: Py<seq<Event>>): Emitted {
    match p
    case Ok(events) => Done(events)
    case Raise(fault) => Emitted([], Some(fault))
  }

  function Prepend(events: seq<Event>, rest: Emitted): Emitted {
    Emitted(events + rest.events, rest.stop)
  }

  /** An event the classifier derives from the content of a line, as opposed
      to a raw-analysis or error event. */
  predicate Semantic(e: Event) {
    !e.Raw? && !e.Error?
  }

  const DataPrefix := "data: "
  const UnknownTool := JStr("Unknown Tool")
  const CycleMarker := "event_loop_cycle_id"
  /** The marker as it appears in a printed Python dict. */
  const QuotedCycleMarker := "'event_loop_cycle_id'"

  /** The `tool_use` event built from a `toolUse` dict, with its defaults. */
  function ToolUseRecord(info: map<string, Json>): Event {
    ToolUse(Lookup(info, "name", UnknownTool), Lookup(info, "toolUseId", JStr("")), Lookup(info, "input", EmptyObj))
  }

  /** The `tool_use` event built from `tool_info`, which must be a dict. */
  function ToolUseOf(info: Json): Py<Event> {
    match info
    case JObj(m) => Ok(ToolUseRecord(m))
    case _ => Raise(AttributeError)
  }

  /** Dispatch on the value under the `event` key. */
  function ClassifyEvent(event: Json): (r: Py<seq<Event>>)
    ensures r.Ok? ==> |r.value| <= 1 && forall e <- r.value :: Semantic(e)
  {
    var isStart :- Contains(event, "messageStart");
    if isStart then
      var info :- Index(event, "messageStart");
      Ok([MessageStart(info)])
    else
      var isDelta :- Contains(event, "contentBlockDelta");
      if isDelta then
        var block :- Index(event, "contentBlockDelta");
        var delta :- Get(block, "delta", EmptyObj);
        var text :- Get(delta, "text", JStr(""));
        Ok(if Truthy(text) then [Text(text)] else [])
      else
        // The toolUse-delta branch that follows in the source repeats the test
        // just failed, so it can never be taken: toolUse deltas yield nothing.
        var isBlockStart :- Contains(event, "contentBlockStart");
        if isBlockStart then
          var block :- Index(event, "contentBlockStart");
          var start :- Get(block, "start", EmptyObj);
          var hasTool :- Contains(start, "toolUse");
          if hasTool then
            var info :- Index(start, "toolUse");
            var e :- ToolUseOf(info);
            Ok([e])
          else Ok([])
        else
          var isBlockStop :- Contains(event, "contentBlockStop");
          if isBlockStop then
            var info :- Index(event, "contentBlockStop");
            Ok([ContentBlockStop(info)])
          else
            var isStop :- Contains(event, "messageStop");
            if isStop then
              var info :- Index(event, "messageStop");
              Ok([MessageStop(info)])
            else
              var isMetadata :- Contains(event, "metadata");
              if isMetadata then
                var info :- Index(event, "metadata");
                Ok([Metadata(info)])
              else Ok([])
  }

  /** One element of `message.content`: a `tool_use` event when it holds a
      `toolUse` entry; text entries are deliberately not yielded. */
  function ContentEntry(content: Json): Py<seq<Event>> {
    var has :- Contains(content, "toolUse");
    if has then
      var info :- Index(content, "toolUse");
      var e :- ToolUseOf(info);
      Ok([e])
    else Ok([])
  }

  /** The loop over `message.content` entries: the events of the entries
      handled before an exception stand. */
  function ContentEntries(items: seq<Json>): (out: Emitted)
    ensures forall e <- out.events :: e.ToolUse?
    ensures |out.events| <= |items|
    decreases |items|
  {
    if items == [] then Done([])
    else
      match ContentEntry(items[0])
      case Raise(fault) => Emitted([], Some(fault))
      case Ok(events) => Prepend(events, ContentEntries(items[1..]))
  }

  /** Iterating `data['message']['content']`, whatever it is. */
  function MessageContent(content: Json): (out: Emitted)
    ensures forall e <- out.events :: e.ToolUse?
  {
    match content
    case JArr(items) => ContentEntries(items)
    case JStr(s) => ContentEntries(seq(|s|, i requires 0 <= i < |s| => JStr([s[i]])))
    // Iterating a dict yields its keys; a key containing `toolUse` is then
    // indexed by a string and raises.  Whichever order the keys come in, no
    // event is yielded before that, so the order does not matter.
    case JObj(m) => if exists k | k in m :: Substring("toolUse", k) then Emitted([], Some(TypeError)) else Done([])
    case _ => Emitted([], Some(TypeError))
  }

  /** The first-match-wins dispatch on one decoded value.  A value that is not
      a dict yields nothing: the source's string case is nested inside the
      dict test and never reached. */
  function ClassifyDecoded(repr: Json -> string, data: Json): (out: Emitted)
    ensures forall e <- out.events :: Semantic(e)
  {
    match data
    case JObj(m) =>
      if Truthy(Lookup(m, "init_event_loop", JNull)) || Truthy(Lookup(m, "start", JNull))
        || Truthy(Lookup(m, "start_event_loop", JNull)) then
        Done([Init(data)])
      else if "event" in m then
        Lift(ClassifyEvent(m["event"]))
      else if "tool_name" in m && Lookup(m, "type", JNull) == JStr("tool_use") then
        Done([StrandsTool(m["tool_name"], Lookup(m, "debug_data", EmptyObj))])
      else if Substring(CycleMarker, Str(repr, data)) then
        Done([StrandsInternal(data)])
      else if "message" in m then
        match Contains(m["message"], "content")
        case Raise(fault) => Emitted([], Some(fault))
        case Ok(true) =>
          (match Index(m["message"], "content")
           case Raise(fault) => Emitted([], Some(fault))
           case Ok(content) => MessageContent(content))
        case Ok(false) => TextData(m)
      else TextData(m)
    case _ => Done([])
  }

  /** `{"data": "<text>"}` carries plain text. */
  function TextData(m: map<string, Json>): Emitted {
    if "data" in m && m["data"].JStr? then Done([Text(m["data"])]) else Done([])
  }

  /** A line that is not JSON: an engine-internal event printed as a Python
      dict, a dict-looking line that is dropped, or plain text. */
  function Undecoded(line: string): (events: seq<Event>)
    ensures |events| <= 1
  {
    if Substring(QuotedCycleMarker, line) then [StrandsInternal(JStr(line))]
    else if !StartsWith(line, "{'") && !StartsWith(line, "{\"") then [Text(JStr(line))]
    else []
  }

  /** One line after the `data: ` prefix has been removed. */
  function ClassifyPayload(f: Foreign, showRaw: bool, payload: string): (out: Emitted)
    ensures forall e <- out.events :: !e.Error?
    ensures !showRaw ==> forall e <- out.events :: !e.Raw?
  {
    var rawLine := if showRaw then [Raw(RawLine(payload))] else [];
    match f.loads(payload)
    case Some(data) =>
      Prepend(rawLine + (if showRaw then [Raw(ParsedData(data))] else []), ClassifyDecoded(f.repr, data))
    case None =>
      Done(rawLine + (if showRaw then [Raw(NonJsonLine(payload))] else []) + Undecoded(payload))
  }

  /** One line of an event-stream body: blank lines and lines without the
      `data: ` prefix yield nothing; a line that is not UTF-8 raises. */
  function ClassifyLine(f: Foreign, showRaw: bool, line: Bytes): (out: Emitted)
    ensures forall e <- out.events :: !e.Error?
    ensures !showRaw ==> forall e <- out.events :: !e.Raw?
  {
    if line == [] then Done([])
    else
      match f.utf8(line)
      case None => Emitted([], Some(UnicodeError))
      case Some(text) =>
        if StartsWith(text, DataPrefix) then ClassifyPayload(f, showRaw, text[|DataPrefix|..])
        else Done([])
  }

  /** The generator over an event-stream body: the per-line events in order;
      the first exception, from a line or from the body itself, adds one error
      event and ends the stream. */
  function EventStream(f: Foreign, showRaw: bool, lines: seq<Bytes>, failure: Option<string>): (events: seq<Event>)
    ensures !showRaw ==> forall e <- events :: !e.Raw?
    ensures failure.Some? ==> events != [] && events[|events| - 1].Error?
    decreases |lines|
  {
    if lines == [] then
      if failure.Some? then [Error(TransportError(failure.value))] else []
    else
      var out := ClassifyLine(f, showRaw, lines[0]);
      match out.stop
      case Some(fault) => out.events + [Error(fault)]
      case None => out.events + EventStream(f, showRaw, lines[1..], failure)
  }

  /** The body of an `application/json` response, decoded chunk by chunk and
      concatenated; None when some chunk is not UTF-8. */
  function DecodeChunks(utf8: Bytes -> Option<string>, chunks: seq<Bytes>): (r: Option<string>)
    ensures r.Some? <==> forall c <- chunks :: utf8(c).Some?
    ensures chunks == [] ==> r == Some("")
    ensures |chunks| == 1 ==> r == utf8(chunks[0])
    decreases |chunks|
  {
    if chunks == [] then Some("")
    else
      match utf8(chunks[0])
      case None => None
      case Some(head) =>
        match DecodeChunks(utf8, chunks[1..])
        case None => None
        case Some(tail) =>
          assert |chunks| == 1 ==> chunks[1..] == [] && head + tail == head;
          Some(head + tail)
  }

  /** A single JSON document: its `message` when it is a dict with one, else
      its printed form, as one text event. */
  function JsonDocument(f: Foreign, chunks: seq<Bytes>, failure: Option<string>): (events: seq<Event>)
    ensures |events| == 1 && (events[0].Text? || events[0].Error?)
    ensures events[0].Text? <==> DecodeChunks(f.utf8, chunks).Some? && failure.None? && f.loads(DecodeChunks(f.utf8, chunks).value).Some?
  {
    match DecodeChunks(f.utf8, chunks)
    case None => [Error(UnicodeError)]
    case Some(text) =>
      if failure.Some? then [Error(TransportError(failure.value))]
      else
        match f.loads(text)
        case None => [Error(JsonDecodeError)]
        case Some(result) =>
          if result.JObj? && "message" in result.fields then [Text(result.fields["message"])]
          else [Text(JStr(Str(f.repr, result)))]
  }

  /** `invoke_agent`: every event it yields, in order. */
  function InvokeAgent(f: Foreign, showRaw: bool, r: Response): (events: seq<Event>)
    ensures r.InvokeFailed? ==> events == [Error(TransportError(r.reason))]
    ensures r.Response? && !Substring("text/event-stream", r.contentType) ==> |events| == 1
    ensures !showRaw ==> forall e <- events :: !e.Raw?
  {
    match r
    case InvokeFailed(reason) => [Error(TransportError(reason))]
    case Response(contentType, lines, failure, shown) =>
      if Substring("text/event-stream", contentType) then EventStream(f, showRaw, lines, failure)
      else if contentType == "application/json" then JsonDocument(f, lines, failure)
      else [Text(JStr(shown))]
  }
}
