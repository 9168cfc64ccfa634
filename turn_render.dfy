/** The assistant half of the chat-input block in streamlit_app.py: the loop
    that consumes `invoke_agent`'s events in order and updates the turn's
    state, and the finalisation once the stream is exhausted.  Streamlit
    widgets become plain state: the thinking indicator is an `Indicator`,
    each tool placeholder a `ToolRecord`, the assistant message a string.
    Where the source would raise (an exception the page does not catch),
    the step reports failure and the state is left as it was. */
module TurnRender {
  import opened PyText
  import opened PyJson
  import opened StreamClassifier

  /** The thinking placeholder: absent, or showing one of three statuses. */
  datatype Indicator = Hidden | Starting | Thinking | Processing

  /** The text a tool placeholder or expander shows, without its decoration. */
  datatype Label =
    | AwsDocSearch
    | AwsDocRead
    | AwsDocRecommend
    | AwsTool(rest: string)
    | NamedTool(name: string)

  /** A tool placeholder: running, or marked complete. */
  datatype ToolRecord = ToolRecord(id: Json, display: Label, input: Json, complete: bool)

  /** The usage-and-performance panel shown at the end of a turn. */
  datatype MetricsPanel = MetricsPanel(inputTokens: Json, outputTokens: Json, totalTokens: Json, latencyMs: Json)

  /** The sidebar checkboxes. */
  datatype Settings = Settings(showToolUsage: bool, showDebug: bool, showRaw: bool)

  /** The in-progress marker appended to the message while it streams. */
  const Cursor := "\U{258C}"

  const AwsPrefix := "aws___"

  /** The display name of a tool: the three AWS documentation tools by
      keyword, any other `aws___` tool by its name with the prefix removed,
      and every other tool by its own name. */
  function DisplayName(name: string): (r: Label)
    ensures r.NamedTool? <==> !StartsWith(name, AwsPrefix)
    ensures r.NamedTool? ==> r.name == name
    ensures r.AwsTool? ==> |r.rest| < |name| && !Substring("recommend", name)
  {
    if StartsWith(name, AwsPrefix) then
      if Substring("search_documentation", name) then AwsDocSearch
      else if Substring("read_documentation", name) then AwsDocRead
      else if Substring("recommend", name) then AwsDocRecommend
      else AwsTool(RemoveAll(name, AwsPrefix))
    else NamedTool(name)
  }

  /** The per-turn state, one field per variable of the source's loop. */
  datatype RenderState = RenderState(
    fullResponse: string,              // text received so far
    displayedTools: set<Json>,         // ids and `strands_<name>` keys already shown
    activeTools: seq<(Json, nat)>,     // running tools in insertion order: id and placeholder
    toolRecords: seq<ToolRecord>,      // every tool placeholder created, in order
    strandsTools: seq<Label>,          // the expanders shown for strands tool events
    indicator: Indicator,
    textStarted: bool,
    messageView: Option<string>,       // the message placeholder, once text has started
    metadataInfo: Option<Json>,        // the last metadata payload
    metrics: Option<MetricsPanel>,     // shown at the end of the turn
    rawInfo: seq<RawUnit>,
    errors: seq<Fault>)                // error boxes shown

  const Initial := RenderState("", {}, [], [], [], Hidden, false, None, None, None, [], [])

  /** The placeholders of the running tools. */
  function Slots(active: seq<(Json, nat)>): set<nat> {
    set i | 0 <= i < |active| :: active[i].1
  }

  /** Entry `i` of the running tools names a placeholder with its id that is
      not complete. */
  predicate ActiveAt(active: seq<(Json, nat)>, records: seq<ToolRecord>, i: int)
    requires 0 <= i < |active|
  {
    var k := active[i].1;
    k < |records| && records[k].id == active[i].0 && !records[k].complete
  }

  /** The invariant the loop keeps: the running tools are exactly the
      incomplete placeholders, in the order they were created; no id has two
      placeholders; every placeholder's id is in the dedup set; the message
      shows the text so far with the cursor once text has started. */
  ghost predicate Wellformed(s: RenderState) {
    && (forall i | 0 <= i < |s.activeTools| :: ActiveAt(s.activeTools, s.toolRecords, i))
    && (forall i, j | 0 <= i < j < |s.activeTools| :: s.activeTools[i].1 < s.activeTools[j].1)
    && (forall k | 0 <= k < |s.toolRecords| && !s.toolRecords[k].complete :: k in Slots(s.activeTools))
    && (forall i, j | 0 <= i < j < |s.toolRecords| :: s.toolRecords[i].id != s.toolRecords[j].id)
    && (forall r <- s.toolRecords :: r.id in s.displayedTools)
    && (s.textStarted <==> s.fullResponse != "")
    && s.messageView == (if s.textStarted then Some(s.fullResponse + Cursor) else None)
  }

  /** The first running tool is the earliest-created incomplete placeholder:
      completing it and dropping it from the running tools keeps the invariant. */
  lemma CompleteFirstKeepsWellformed(s: RenderState)
    requires Wellformed(s) && s.activeTools != []
    ensures var k := s.activeTools[0].1;
            k < |s.toolRecords|
            && Wellformed(s.(toolRecords := s.toolRecords[k := s.toolRecords[k].(complete := true)],
                             activeTools := s.activeTools[1..]))
  {
    assert ActiveAt(s.activeTools, s.toolRecords, 0);
    var k := s.activeTools[0].1;
    var t := s.(toolRecords := s.toolRecords[k := s.toolRecords[k].(complete := true)],
                activeTools := s.activeTools[1..]);
    forall i | 0 <= i < |t.activeTools| ensures ActiveAt(t.activeTools, t.toolRecords, i) {
      assert t.activeTools[i] == s.activeTools[i + 1];
      assert ActiveAt(s.activeTools, s.toolRecords, i + 1);
    }
    forall j | 0 <= j < |t.toolRecords| && !t.toolRecords[j].complete
      ensures j in Slots(t.activeTools)
    {
      assert j != k && !s.toolRecords[j].complete;
      assert j in Slots(s.activeTools);
      var i :| 0 <= i < |s.activeTools| && s.activeTools[i].1 == j;
      assert i != 0;
      assert t.activeTools[i - 1].1 == j;
    }
    forall r <- t.toolRecords ensures r.id in t.displayedTools {
      var j :| 0 <= j < |t.toolRecords| && t.toolRecords[j] == r;
      assert s.toolRecords[j] in s.toolRecords;
    }
  }

  /** A new running tool, with a fresh id, keeps the invariant. */
  lemma AddToolKeepsWellformed(s: RenderState, id: Json, display: Label, input: Json)
    requires Wellformed(s) && id !in s.displayedTools
    ensures Wellformed(s.(displayedTools := s.displayedTools + {id},
                          activeTools := s.activeTools + [(id, |s.toolRecords|)],
                          toolRecords := s.toolRecords + [ToolRecord(id, display, input, false)]))
  {
    var n := |s.toolRecords|;
    var t := s.(displayedTools := s.displayedTools + {id},
                activeTools := s.activeTools + [(id, n)],
                toolRecords := s.toolRecords + [ToolRecord(id, display, input, false)]);
    forall i | 0 <= i < |t.activeTools| ensures ActiveAt(t.activeTools, t.toolRecords, i) {
      if i < |s.activeTools| {
        assert ActiveAt(s.activeTools, s.toolRecords, i);
        assert t.activeTools[i] == s.activeTools[i];
      }
    }
    forall i, j | 0 <= i < j < |t.activeTools| ensures t.activeTools[i].1 < t.activeTools[j].1 {
      if j == |s.activeTools| {
        assert ActiveAt(s.activeTools, s.toolRecords, i);
      }
    }
    forall k | 0 <= k < |t.toolRecords| && !t.toolRecords[k].complete ensures k in Slots(t.activeTools) {
      if k < n {
        assert k in Slots(s.activeTools);
        var i :| 0 <= i < |s.activeTools| && s.activeTools[i].1 == k;
        assert t.activeTools[i].1 == k;
      } else {
        assert t.activeTools[|s.activeTools|].1 == k;
      }
    }
    forall i, j | 0 <= i < j < |t.toolRecords| ensures t.toolRecords[i].id != t.toolRecords[j].id {
      if j == n {
        assert s.toolRecords[i] in s.toolRecords;
      }
    }
  }

  /** One pass of the loop body for one event: the new state, or None where
      the source raises. */
  function Next(cfg: Settings, repr: Json -> string, s: RenderState, e: Event): (r: Option<RenderState>)
    requires Wellformed(s)
    ensures r.Some? ==> Wellformed(r.value)
  {
    match e
    case Init(_) => Some(s.(indicator := Starting))
    case MessageStart(_) => Some(s.(indicator := Thinking))
    case ToolUse(name, id, input) =>
      if !cfg.showToolUsage then Some(s)
      else if Truthy(id) && !Hashable(id) then None        // unhashable id looked up in a dict
      else if Truthy(id) && id in s.displayedTools then Some(s)
      else if !name.JStr? then None                         // `startswith` on a non-string
      else if !Truthy(id) then Some(s.(indicator := Hidden))
      else
        AddToolKeepsWellformed(s, id, DisplayName(name.s), input);
        Some(s.(indicator := Hidden,
                displayedTools := s.displayedTools + {id},
                activeTools := s.activeTools + [(id, |s.toolRecords|)],
                toolRecords := s.toolRecords + [ToolRecord(id, DisplayName(name.s), input, false)]))
    case StrandsTool(name, _) =>
      var key := JStr("strands_" + Str(repr, name));
      if !cfg.showToolUsage || key in s.displayedTools then Some(s)
      else Some(s.(displayedTools := s.displayedTools + {key},
                   strandsTools := s.strandsTools + [NamedTool(Str(repr, name))]))
    case StrandsInternal(_) =>
      if s.indicator != Hidden || !s.textStarted then Some(s.(indicator := Processing)) else Some(s)
    case Metadata(info) => Some(s.(metadataInfo := Some(info)))
    case MessageStop(info) =>
      if cfg.showDebug && !info.JObj? then None else Some(s)   // `.get` on a non-dict
    case Text(chunk) =>
      if !chunk.JStr? then None                                // `.strip()` on a non-string
      else if IsBlank(chunk.s) then Some(s)
      else
        var full := s.fullResponse + chunk.s;
        Some(s.(indicator := if s.textStarted then s.indicator else Hidden,
                textStarted := true,
                fullResponse := full,
                messageView := Some(full + Cursor)))
    case Error(fault) => Some(s.(errors := s.errors + [fault]))
    case ContentBlockStop(_) =>
      if s.activeTools == [] then Some(s)
      else
        CompleteFirstKeepsWellformed(s);
        var k := s.activeTools[0].1;
        Some(s.(toolRecords := s.toolRecords[k := s.toolRecords[k].(complete := true)],
                activeTools := s.activeTools[1..]))
    case Raw(unit) =>
      if cfg.showRaw then Some(s.(rawInfo := s.rawInfo + [unit])) else Some(s)
  }

  /** The loop over a whole event sequence; None once some event raises. */
  function Run(cfg: Settings, repr: Json -> string, s: RenderState, events: seq<Event>): (r: Option<RenderState>)
    requires Wellformed(s)
    ensures r.Some? ==> Wellformed(r.value)
    decreases |events|
  {
    if events == [] then Some(s)
    else
      match Run(cfg, repr, s, events[..|events| - 1])
      case None => None
      case Some(t) => Next(cfg, repr, t, events[|events| - 1])
  }

  /** The value `st.metric` is given: it accepts an int, a float, a string or
      None, and raises TypeError for a list or a dict. */
  function ShowMetric(value: Json): (r: Py<Json>)
    ensures r.Ok? <==> !value.JArr? && !value.JObj?
    ensures r.Ok? ==> r.value == value
    ensures r.Raise? ==> r.fault == TypeError
  {
    if value.JArr? || value.JObj? then Raise(TypeError) else Ok(value)
  }

  /** One token count of the panel: `usage.get(key, 0)` shown by `st.metric`. */
  function TokenMetric(usage: Json, key: string): Py<Json> {
    var count :- Get(usage, key, JNum(0.0));
    ShowMetric(count)
  }

  /** The metrics panel built from the last metadata payload, if it is truthy;
      `.get` on a payload, usage or metrics that is not a dict raises, and so
      does `st.metric` on a token count that is a list or a dict. */
  function MetricsOf(info: Option<Json>): (r: Py<Option<MetricsPanel>>)
    ensures r.Ok? && r.value.Some? ==> info.Some? && Truthy(info.value)
    ensures info.None? || !Truthy(info.value) ==> r == Ok(None)
    ensures info.Some? && info.value.JObj? && WellShapedMetadata(info.value.fields) ==> r.Ok?
    ensures info.Some? && info.value.JObj? && Truthy(info.value) && !WellShapedMetadata(info.value.fields) ==> r.Raise?
    ensures info.Some? && Truthy(info.value) && !info.value.JObj? ==> r.Raise?
  {
    if info.None? || !Truthy(info.value) then Ok(None)
    else
      var usage :- Get(info.value, "usage", EmptyObj);
      var metrics :- Get(info.value, "metrics", EmptyObj);
      var inputTokens :- TokenMetric(usage, "inputTokens");
      var outputTokens :- TokenMetric(usage, "outputTokens");
      var totalTokens :- TokenMetric(usage, "totalTokens");
      var latencyMs :- Get(metrics, "latencyMs", JNum(0.0));
      Ok(Some(MetricsPanel(inputTokens, outputTokens, totalTokens, latencyMs)))
  }

  /** The token counts of a `usage` dict, where present, are values
      `st.metric` accepts. */
  predicate CountsShown(usage: map<string, Json>) {
    forall key <- ["inputTokens", "outputTokens", "totalTokens"] ::
      key in usage ==> !usage[key].JArr? && !usage[key].JObj?
  }

  /** The `usage` and `metrics` entries of a metadata payload, where present,
      are dicts, and the token counts are shown without raising. */
  predicate WellShapedMetadata(m: map<string, Json>) {
    && ("usage" in m ==> m["usage"].JObj? && CountsShown(m["usage"].fields))
    && ("metrics" in m ==> m["metrics"].JObj?)
  }

  /** The placeholders with those in `slots` marked complete. */
  function CompleteSlots(records: seq<ToolRecord>, slots: set<nat>): seq<ToolRecord> {
    seq(|records|, k requires 0 <= k < |records| => if k in slots then records[k].(complete := true) else records[k])
  }

  /** The loop over the running tools at the end of the turn: each one's
      placeholder is marked complete. */
  method CompleteRunning(records: seq<ToolRecord>, active: seq<(Json, nat)>) returns (out: seq<ToolRecord>)
    requires forall i | 0 <= i < |active| :: ActiveAt(active, records, i)
    ensures out == CompleteSlots(records, Slots(active))
  {
    out := records;
    var i := 0;
    while i < |active|
      invariant 0 <= i <= |active|
      invariant |out| == |records|
      invariant forall k | 0 <= k < |out| ::
                  out[k] == if k in Slots(active[..i]) then records[k].(complete := true) else records[k]
    {
      assert ActiveAt(active, records, i);
      var k := active[i].1;
      out := out[k := out[k].(complete := true)];
      assert Slots(active[..i + 1]) == Slots(active[..i]) + {k} by {
        assert active[..i + 1] == active[..i] + [active[i]];
      }
      i := i + 1;
    }
    assert active[..i] == active;
  }

  /** The end of the turn: the metrics panel, the indicator cleared, every
      running tool marked complete, the message shown without the cursor.
      None when building the metrics panel raises. */
  function Finalize(s: RenderState): (r: Option<RenderState>)
    ensures r.Some? <==> MetricsOf(s.metadataInfo).Ok?
    ensures r.Some? ==> r.value.(metrics := s.metrics, indicator := s.indicator, toolRecords := s.toolRecords,
                                 messageView := s.messageView) == s
    ensures r.Some? ==> |r.value.toolRecords| == |s.toolRecords| && forall k | 0 <= k < |s.toolRecords| ::
              r.value.toolRecords[k].(complete := s.toolRecords[k].complete) == s.toolRecords[k]
  {
    match MetricsOf(s.metadataInfo)
    case Raise(_) => None
    case Ok(panel) =>
      Some(s.(metrics := panel,
              indicator := Hidden,
              toolRecords := CompleteSlots(s.toolRecords, Slots(s.activeTools)),
              messageView := if s.fullResponse != "" && s.messageView.Some? then Some(s.fullResponse) else s.messageView))
  }

  /** The state of one assistant turn, updated in place event by event. */
  class TurnRenderer {
    const settings: Settings
    const repr: Json -> string
    var fullResponse: string
    var displayedTools: set<Json>
    var activeTools: seq<(Json, nat)>
    var toolRecords: seq<ToolRecord>
    var strandsTools: seq<Label>
    var indicator: Indicator
    var textStarted: bool
    var messageView: Option<string>
    var metadataInfo: Option<Json>
    var metrics: Option<MetricsPanel>
    var rawInfo: seq<RawUnit>
    var errors: seq<Fault>

    function State(): RenderState
      reads this
    {
      RenderState(fullResponse, displayedTools, activeTools, toolRecords, strandsTools, indicator,
                  textStarted, messageView, metadataInfo, metrics, rawInfo, errors)
    }

    ghost predicate Valid()
      reads this
    {
      Wellformed(State())
    }

    constructor(settings: Settings, repr: Json -> string)
      ensures this.settings == settings && this.repr == repr
      ensures State() == Initial && Valid()
    {
      this.settings := settings;
      this.repr := repr;
      fullResponse, displayedTools, activeTools, toolRecords, strandsTools := "", {}, [], [], [];
      indicator, textStarted, messageView := Hidden, false, None;
      metadataInfo, metrics, rawInfo, errors := None, None, [], [];
    }

    /** Handles one event; false where the source raises, with nothing changed. */
    method Step(e: Event) returns (ok: bool)
      requires Valid()
      modifies this
      ensures ok <==> Next(settings, repr, old(State()), e).Some?
      ensures State() == if ok then Next(settings, repr, old(State()), e).value else old(State())
      ensures Valid()
    {
      ok := true;
      match e
      case Init(_) =>
        indicator := Starting;
      case MessageStart(_) =>
        indicator := Thinking;
      case ToolUse(name, id, input) =>
        ok := ShowToolUse(name, id, input);
      case StrandsTool(name, debugData) =>
        ShowStrandsTool(name, debugData);
      case StrandsInternal(_) =>
        if indicator != Hidden || !textStarted {
          indicator := Processing;
        }
      case Metadata(info) =>
        metadataInfo := Some(info);
      case MessageStop(info) =>
        if settings.showDebug && !info.JObj? {
          return false;
        }
      case Text(chunk) =>
        ok := ShowText(chunk);
      case Error(fault) =>
        errors := errors + [fault];
      case ContentBlockStop(_) =>
        CompleteFirstTool();
      case Raw(unit) =>
        if settings.showRaw {
          rawInfo := rawInfo + [unit];
        }
    }

    /** A tool_use event: ignored when tool usage is hidden or the id was
        already shown; otherwise the indicator is cleared and, for a non-empty
        id, a running placeholder is created. */
    method ShowToolUse(name: Json, id: Json, input: Json) returns (ok: bool)
      requires Valid()
      modifies this
      ensures ok <==> Next(settings, repr, old(State()), ToolUse(name, id, input)).Some?
      ensures State() == if ok then Next(settings, repr, old(State()), ToolUse(name, id, input)).value else old(State())
      ensures Valid()
    {
      ok := true;
      if settings.showToolUsage {
        if Truthy(id) && !Hashable(id) {
          return false;
        }
        if Truthy(id) && id in displayedTools {
          return;
        }
        if !name.JStr? {
          return false;
        }
        indicator := Hidden;
        if Truthy(id) {
          AddTool(id, DisplayName(name.s), input);
        }
      }
    }

    /** A running placeholder for a tool with a fresh id. */
    method AddTool(id: Json, display: Label, input: Json)
      requires Valid() && id !in displayedTools
      modifies this
      ensures State() == old(State()).(displayedTools := old(displayedTools) + {id},
                                       activeTools := old(activeTools) + [(id, |old(toolRecords)|)],
                                       toolRecords := old(toolRecords) + [ToolRecord(id, display, input, false)])
      ensures Valid()
    {
      AddToolKeepsWellformed(State(), id, display, input);
      displayedTools := displayedTools + {id};
      activeTools := activeTools + [(id, |toolRecords|)];
      toolRecords := toolRecords + [ToolRecord(id, display, input, false)];
    }

    /** A strands tool event: shown once per name, keyed by "strands_" and the
        name, under the name itself. */
    method ShowStrandsTool(name: Json, debugData: Json)
      requires Valid()
      modifies this
      ensures State() == Next(settings, repr, old(State()), StrandsTool(name, debugData)).value
      ensures Valid()
    {
      var key := JStr("strands_" + Str(repr, name));
      if settings.showToolUsage && key !in displayedTools {
        displayedTools := displayedTools + {key};
        strandsTools := strandsTools + [NamedTool(Str(repr, name))];
      }
    }

    /** A text event: a chunk with visible content is appended to the message. */
    method ShowText(chunk: Json) returns (ok: bool)
      requires Valid()
      modifies this
      ensures ok <==> Next(settings, repr, old(State()), Text(chunk)).Some?
      ensures State() == if ok then Next(settings, repr, old(State()), Text(chunk)).value else old(State())
      ensures Valid()
    {
      if !chunk.JStr? {
        return false;
      }
      ok := true;
      if !IsBlank(chunk.s) {
        if !textStarted {
          indicator := Hidden;
          textStarted := true;
        }
        fullResponse := fullResponse + chunk.s;
        messageView := Some(fullResponse + Cursor);
      }
    }

    /** A content_block_stop event: the first running tool is marked complete
        and is no longer running. */
    method CompleteFirstTool()
      requires Valid()
      modifies this
      ensures Next(settings, repr, old(State()), ContentBlockStop(JNull)).Some?
      ensures State() == Next(settings, repr, old(State()), ContentBlockStop(JNull)).value
      ensures Valid()
    {
      if activeTools != [] {
        CompleteFirstKeepsWellformed(State());
        var k := activeTools[0].1;
        toolRecords := toolRecords[k := toolRecords[k].(complete := true)];
        activeTools := activeTools[1..];
      }
    }

    /** Ends the turn and returns the text to archive; false where building
      the metrics panel raises, with nothing changed. */
    method Finish() returns (ok: bool, reply: string)
      requires Valid()
      modifies this
      ensures ok <==> Finalize(old(State())).Some?
      ensures ok ==> State() == Finalize(old(State())).value && reply == fullResponse
      ensures !ok ==> State() == old(State())
    {
      var panel := MetricsOf(metadataInfo);
      if panel.Raise? {
        return false, "";
      }
      toolRecords := CompleteRunning(toolRecords, activeTools);
      metrics := panel.value;
      indicator := Hidden;
      if fullResponse != "" && messageView.Some? {
        messageView := Some(fullResponse);
      }
      ok, reply := true, fullResponse;
    }
  }
}
