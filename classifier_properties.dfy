/** What `invoke_agent` promises about the events it yields: framing, the
    precedence of its dispatch, the defaults of tool events, the fallback for
    text that is not JSON, and the place of the error event. */
module ClassifierProperties {
  import opened PyText
  import opened PyJson
  import opened SeqLemmas
  import opened StreamClassifier

  /** An error event, if there is one, is the last event. */
  predicate ErrorOnlyLast(events: seq<Event>) {
    forall i | 0 <= i < |events| :: events[i].Error? ==> i == |events| - 1
  }

  /** The stream ended with an exception. */
  predicate EndsInError(events: seq<Event>) {
    |events| > 0 && events[|events| - 1].Error?
  }

  /** The events without the ones raw-response analysis adds. */
  function WithoutRaw(events: seq<Event>): (r: seq<Event>)
    ensures Subsequence(r, events)
    ensures forall e <- r :: !e.Raw?
    ensures forall e <- events :: !e.Raw? ==> e in r
    decreases |events|
  {
    if events == [] then []
    else
      var rest := WithoutRaw(events[1..]);
      assert rest != [] ==> rest[0] in rest;
      assert ([events[0]] + rest)[1..] == rest && [] + rest == rest;
      (if events[0].Raw? then [] else [events[0]]) + rest
  }

  lemma {:induction false} WithoutRawAppend(a: seq<Event>, b: seq<Event>)
    ensures WithoutRaw(a + b) == WithoutRaw(a) + WithoutRaw(b)
    decreases |a|
  {
    if a == [] {
      assert a + b == b;
    } else {
      assert (a + b)[0] == a[0];
      assert (a + b)[1..] == a[1..] + b;
      WithoutRawAppend(a[1..], b);
      var first := if a[0].Raw? then [] else [a[0]];
      calc {
        WithoutRaw(a + b);
        first + WithoutRaw(a[1..] + b);
        first + (WithoutRaw(a[1..]) + WithoutRaw(b));
        (first + WithoutRaw(a[1..])) + WithoutRaw(b);
      }
    }
  }

  // ---------------------------------------------------------------- framing

  /** Blank lines and lines without the `data: ` prefix yield nothing; a data
      line is classified on exactly what follows the six-character prefix; a
      line that is not UTF-8 raises. */
  lemma LineFraming(f: Foreign, showRaw: bool, line: Bytes)
    ensures line == [] ==> ClassifyLine(f, showRaw, line) == Done([])
    ensures line != [] && f.utf8(line).None? ==> ClassifyLine(f, showRaw, line) == Emitted([], Some(UnicodeError))
    ensures line != [] && f.utf8(line).Some? && !StartsWith(f.utf8(line).value, "data: ") ==>
              ClassifyLine(f, showRaw, line) == Done([])
    ensures line != [] && f.utf8(line).Some? && StartsWith(f.utf8(line).value, "data: ") ==>
              var text := f.utf8(line).value;
              && text == "data: " + text[6..]
              && ClassifyLine(f, showRaw, line) == ClassifyPayload(f, showRaw, text[6..])
  {
  }

  /** Raw-response analysis only adds raw events, in front of the line's own
      events: the raw line first, then the decoded value or the non-JSON line. */
  lemma RawEventsComeFirst(f: Foreign, payload: string)
    ensures var plain := ClassifyPayload(f, false, payload);
            var raw := ClassifyPayload(f, true, payload);
            && |raw.events| == |plain.events| + 2
            && raw.events[0] == Raw(RawLine(payload))
            && raw.events[1] == (if f.loads(payload).Some? then Raw(ParsedData(f.loads(payload).value))
                                 else Raw(NonJsonLine(payload)))
            && raw.events[2..] == plain.events
            && raw.stop == plain.stop
  {
  }

  // ------------------------------------------------------------- dispatch

  /** A dict with a truthy `init_event_loop`, `start` or `start_event_loop`
      yields exactly one init event, whatever else it holds. */
  lemma InitWins(repr: Json -> string, m: map<string, Json>)
    requires || ("init_event_loop" in m && Truthy(m["init_event_loop"]))
             || ("start" in m && Truthy(m["start"]))
             || ("start_event_loop" in m && Truthy(m["start_event_loop"]))
    ensures ClassifyDecoded(repr, JObj(m)) == Done([Init(JObj(m))])
  {
  }

  /** A decoded value that is not a dict yields no event at all. */
  lemma NonDictIsSilent(repr: Json -> string, data: Json)
    requires !data.JObj?
    ensures ClassifyDecoded(repr, data) == Done([])
  {
  }

  /** No init key is truthy. */
  predicate NotInit(m: map<string, Json>) {
    && !Truthy(Lookup(m, "init_event_loop", JNull))
    && !Truthy(Lookup(m, "start", JNull))
    && !Truthy(Lookup(m, "start_event_loop", JNull))
  }

  /** `{"event": {"contentBlockDelta": {"delta": d}}}` yields one text event
      if and only if `d.text` is truthy (for a string: non-empty), carrying
      that text; a toolUse delta, which has no text, yields nothing. */
  lemma DeltaYieldsTextIff(repr: Json -> string, m: map<string, Json>, event: map<string, Json>,
                           block: map<string, Json>, d: map<string, Json>)
    requires NotInit(m) && "event" in m && m["event"] == JObj(event)
    requires "messageStart" !in event && "contentBlockDelta" in event
    requires event["contentBlockDelta"] == JObj(block) && "delta" in block && block["delta"] == JObj(d)
    ensures var out := ClassifyDecoded(repr, JObj(m));
            && out.stop == None
            && (|out.events| == 1 <==> "text" in d && Truthy(d["text"]))
            && (|out.events| == 1 ==> out.events[0] == Text(d["text"]))
            && |out.events| <= 1
    ensures "text" in d && d["text"].JStr? ==>
              ClassifyDecoded(repr, JObj(m)).events == if d["text"].s != "" then [Text(d["text"])] else []
  {
  }

  /** `contentBlockStart.start.toolUse` yields one tool_use event with the
      defaults "Unknown Tool", "" and `{}` for a missing name, id or input. */
  lemma BlockStartYieldsToolUse(repr: Json -> string, m: map<string, Json>, event: map<string, Json>,
                                block: map<string, Json>, start: map<string, Json>, info: map<string, Json>)
    requires NotInit(m) && "event" in m && m["event"] == JObj(event)
    requires "messageStart" !in event && "contentBlockDelta" !in event && "contentBlockStart" in event
    requires event["contentBlockStart"] == JObj(block) && "start" in block && block["start"] == JObj(start)
    requires "toolUse" in start && start["toolUse"] == JObj(info)
    ensures ClassifyDecoded(repr, JObj(m)) == Done([ToolUse(
              if "name" in info then info["name"] else JStr("Unknown Tool"),
              if "toolUseId" in info then info["toolUseId"] else JStr(""),
              if "input" in info then info["input"] else JObj(map[]))])
  {
  }

  /** A dict with an `event` key and no truthy init key is dispatched on the
      value under `event`. */
  lemma EventKeyDispatches(repr: Json -> string, m: map<string, Json>)
    requires NotInit(m) && "event" in m
    ensures ClassifyDecoded(repr, JObj(m)) == Lift(ClassifyEvent(m["event"]))
  {
  }

  /** `messageStart` is tested first: it wins over every other key. */
  lemma MessageStartWins(event: map<string, Json>)
    requires "messageStart" in event
    ensures ClassifyEvent(JObj(event)) == Ok([MessageStart(event["messageStart"])])
  {
  }

  /** `contentBlockStop`, after the delta and start keys, yields its payload. */
  lemma BlockStopYields(event: map<string, Json>)
    requires "messageStart" !in event && "contentBlockDelta" !in event && "contentBlockStart" !in event
    requires "contentBlockStop" in event
    ensures ClassifyEvent(JObj(event)) == Ok([ContentBlockStop(event["contentBlockStop"])])
  {
  }

  /** `messageStop`, after the content-block keys, yields its payload. */
  lemma MessageStopYields(event: map<string, Json>)
    requires "messageStart" !in event && "contentBlockDelta" !in event && "contentBlockStart" !in event
    requires "contentBlockStop" !in event && "messageStop" in event
    ensures ClassifyEvent(JObj(event)) == Ok([MessageStop(event["messageStop"])])
  {
  }

  /** `metadata` is tested last; a dict with none of the six keys yields
      nothing. */
  lemma MetadataYieldsLast(event: map<string, Json>)
    requires "messageStart" !in event && "contentBlockDelta" !in event && "contentBlockStart" !in event
    requires "contentBlockStop" !in event && "messageStop" !in event
    ensures "metadata" in event ==> ClassifyEvent(JObj(event)) == Ok([Metadata(event["metadata"])])
    ensures "metadata" !in event ==> ClassifyEvent(JObj(event)) == Ok([])
  {
  }

  /** A dict without `event` naming a tool with `type` "tool_use" (what the
      agent entrypoint injects) yields one strands tool event, its debug data
      defaulting to `{}`. */
  lemma StrandsToolYields(repr: Json -> string, m: map<string, Json>)
    requires NotInit(m) && "event" !in m
    requires "tool_name" in m && Lookup(m, "type", JNull) == JStr("tool_use")
    ensures ClassifyDecoded(repr, JObj(m)) == Done([StrandsTool(m["tool_name"], Lookup(m, "debug_data", EmptyObj))])
  {
  }

  /** Otherwise a dict whose printed form mentions `event_loop_cycle_id` is an
      engine-internal event. */
  lemma InternalMarkerYields(repr: Json -> string, m: map<string, Json>)
    requires NotInit(m) && "event" !in m && !("tool_name" in m && Lookup(m, "type", JNull) == JStr("tool_use"))
    requires Substring(CycleMarker, Str(repr, JObj(m)))
    ensures ClassifyDecoded(repr, JObj(m)) == Done([StrandsInternal(JObj(m))])
  {
  }

  /** Otherwise, when it has no `message` or one without "content" (a dict
      without the key, a string without the substring, a list without the
      item), a dict yields its `data` as text when that is a string, and
      nothing when it is not. */
  lemma TextDataYields(repr: Json -> string, m: map<string, Json>)
    requires NotInit(m) && "event" !in m && !("tool_name" in m && Lookup(m, "type", JNull) == JStr("tool_use"))
    requires !Substring(CycleMarker, Str(repr, JObj(m)))
    requires "message" in m ==> Contains(m["message"], "content") == Ok(false)
    ensures "data" in m && m["data"].JStr? ==> ClassifyDecoded(repr, JObj(m)) == Done([Text(m["data"])])
    ensures !("data" in m && m["data"].JStr?) ==> ClassifyDecoded(repr, JObj(m)) == Done([])
  {
  }

  /** The `toolUse` entries of a list, each turned into its tool_use event. */
  function ToolUseEntries(items: seq<Json>): seq<Event>
    decreases |items|
  {
    if items == [] then []
    else
      (if items[0].JObj? && "toolUse" in items[0].fields && items[0].fields["toolUse"].JObj?
       then [ToolUseRecord(items[0].fields["toolUse"].fields)] else [])
      + ToolUseEntries(items[1..])
  }

  /** Entries that are dicts whose `toolUse`, where present, is a dict. */
  predicate WellShapedContent(items: seq<Json>) {
    forall it <- items :: it.JObj? && ("toolUse" in it.fields ==> it.fields["toolUse"].JObj?)
  }

  /** Each `toolUse` entry of `message.content` yields one tool_use event, in
      order, and nothing else is yielded. */
  lemma {:induction false} ContentEntriesYieldToolUses(items: seq<Json>)
    requires WellShapedContent(items)
    ensures ContentEntries(items) == Done(ToolUseEntries(items))
    decreases |items|
  {
    if items != [] {
      assert items[0] in items;
      assert WellShapedContent(items[1..]) by {
        forall it <- items[1..] ensures it in items { }
      }
      ContentEntriesYieldToolUses(items[1..]);
    }
  }

  /** A complete message (`{"message": {"content": [...]}}` reaching that
      branch) yields its tool uses and never a text event. */
  lemma MessageContentNeverText(repr: Json -> string, m: map<string, Json>, msg: map<string, Json>)
    requires NotInit(m) && "event" !in m && !("tool_name" in m && Lookup(m, "type", JNull) == JStr("tool_use"))
    requires !Substring(CycleMarker, Str(repr, JObj(m)))
    requires "message" in m && m["message"] == JObj(msg) && "content" in msg
    ensures forall e <- ClassifyDecoded(repr, JObj(m)).events :: e.ToolUse?
    ensures msg["content"].JArr? && WellShapedContent(msg["content"].items) ==>
              ClassifyDecoded(repr, JObj(m)) == Done(ToolUseEntries(msg["content"].items))
  {
    if msg["content"].JArr? && WellShapedContent(msg["content"].items) {
      ContentEntriesYieldToolUses(msg["content"].items);
    }
  }

  /** A line that is not JSON: an engine-internal event if it mentions
      `'event_loop_cycle_id'`; otherwise nothing if it begins `{'` or `{"`;
      otherwise one text event carrying the whole line. */
  lemma UndecodedFallback(f: Foreign, payload: string)
    requires f.loads(payload).None?
    ensures var out := ClassifyPayload(f, false, payload);
            && out.stop == None
            && (Substring("'event_loop_cycle_id'", payload) ==> out.events == [StrandsInternal(JStr(payload))])
            && (!Substring("'event_loop_cycle_id'", payload) && (StartsWith(payload, "{'") || StartsWith(payload, "{\"")) ==>
                  out.events == [])
            && (!Substring("'event_loop_cycle_id'", payload) && !StartsWith(payload, "{'") && !StartsWith(payload, "{\"") ==>
                  out.events == [Text(JStr(payload))])
  {
  }

  // ------------------------------------------------- other content types

  /** An `application/json` response is one document: its `message` when it
      is a dict with one, otherwise its printed form, as one text event. */
  lemma JsonResponseText(f: Foreign, showRaw: bool, chunks: seq<Bytes>, shown: string, text: string, result: Json)
    requires DecodeChunks(f.utf8, chunks) == Some(text) && f.loads(text) == Some(result)
    ensures var events := InvokeAgent(f, showRaw, Response("application/json", chunks, None, shown));
            && (result.JObj? && "message" in result.fields ==> events == [Text(result.fields["message"])])
            && (!(result.JObj? && "message" in result.fields) ==> events == [Text(JStr(Str(f.repr, result)))])
  {
  }

  /** The body's text is the decodings of its chunks joined in order: the
      text of two stretches of chunks is the first's text then the second's. */
  lemma {:induction false} DecodeChunksAppend(utf8: Bytes -> Option<string>, a: seq<Bytes>, b: seq<Bytes>)
    requires DecodeChunks(utf8, a).Some? && DecodeChunks(utf8, b).Some?
    ensures DecodeChunks(utf8, a + b) == Some(DecodeChunks(utf8, a).value + DecodeChunks(utf8, b).value)
    decreases |a|
  {
    if a == [] {
      assert a + b == b;
      assert "" + DecodeChunks(utf8, b).value == DecodeChunks(utf8, b).value;
    } else {
      assert (a + b)[0] == a[0];
      assert (a + b)[1..] == a[1..] + b;
      DecodeChunksAppend(utf8, a[1..], b);
      AppendAssoc(utf8(a[0]).value, DecodeChunks(utf8, a[1..]).value, DecodeChunks(utf8, b).value);
    }
  }

  /** An `application/json` body that is not UTF-8, that fails, or that is
      not JSON yields one error event and nothing else. */
  lemma JsonResponseFaults(f: Foreign, showRaw: bool, chunks: seq<Bytes>, failure: Option<string>, shown: string)
    ensures var events := InvokeAgent(f, showRaw, Response("application/json", chunks, failure, shown));
            && (DecodeChunks(f.utf8, chunks).None? ==> events == [Error(UnicodeError)])
            && (DecodeChunks(f.utf8, chunks).Some? && failure.Some? ==> events == [Error(TransportError(failure.value))])
            && (DecodeChunks(f.utf8, chunks).Some? && failure.None? && f.loads(DecodeChunks(f.utf8, chunks).value).None? ==>
                  events == [Error(JsonDecodeError)])
  {
  }

  /** Any other content type yields the printed response as one text event. */
  lemma OtherContentShown(f: Foreign, showRaw: bool, contentType: string, lines: seq<Bytes>, failure: Option<string>, shown: string)
    requires !Substring("text/event-stream", contentType) && contentType != "application/json"
    ensures InvokeAgent(f, showRaw, Response(contentType, lines, failure, shown)) == [Text(JStr(shown))]
  {
  }

  // -------------------------------------------------------------- the stream

  /** Any exception yields exactly one error event, the last of the stream. */
  lemma {:induction false} StreamErrorIsLast(f: Foreign, showRaw: bool, lines: seq<Bytes>, failure: Option<string>)
    ensures ErrorOnlyLast(EventStream(f, showRaw, lines, failure))
    decreases |lines|
  {
    if lines != [] {
      var out := ClassifyLine(f, showRaw, lines[0]);
      if out.stop.None? {
        StreamErrorIsLast(f, showRaw, lines[1..], failure);
        ErrorFreePrefixKeepsLast(out.events, EventStream(f, showRaw, lines[1..], failure));
      } else {
        ErrorFreePrefixKeepsLast(out.events, [Error(out.stop.value)]);
      }
    }
  }

  /** Events without an error in front of a stream keep its error last. */
  lemma ErrorFreePrefixKeepsLast(prefix: seq<Event>, tail: seq<Event>)
    requires forall e <- prefix :: !e.Error?
    requires ErrorOnlyLast(tail)
    ensures ErrorOnlyLast(prefix + tail)
  {
    var all := prefix + tail;
    forall i | 0 <= i < |prefix| ensures !all[i].Error? {
      assert all[i] == prefix[i] && prefix[i] in prefix;
    }
    forall i | |prefix| <= i < |all| ensures all[i] == tail[i - |prefix|] { }
  }

  /** Some line of the body raises while it is handled. */
  predicate SomeLineRaises(f: Foreign, showRaw: bool, lines: seq<Bytes>) {
    exists i | 0 <= i < |lines| :: ClassifyLine(f, showRaw, lines[i]).stop.Some?
  }

  /** The stream ends in an error event exactly when a line raises while it
      is handled or the body itself fails. */
  lemma {:induction false} StreamEndsInErrorIff(f: Foreign, showRaw: bool, lines: seq<Bytes>, failure: Option<string>)
    ensures EndsInError(EventStream(f, showRaw, lines, failure)) <==> failure.Some? || SomeLineRaises(f, showRaw, lines)
    decreases |lines|
  {
    if lines != [] {
      var out := ClassifyLine(f, showRaw, lines[0]);
      if out.stop.None? {
        var rest := EventStream(f, showRaw, lines[1..], failure);
        StreamEndsInErrorIff(f, showRaw, lines[1..], failure);
        ErrorFreePrefix(out.events, rest);
        if SomeLineRaises(f, showRaw, lines) {
          var i :| 0 <= i < |lines| && ClassifyLine(f, showRaw, lines[i]).stop.Some?;
          assert lines[1..][i - 1] == lines[i];
        }
        if SomeLineRaises(f, showRaw, lines[1..]) {
          var i :| 0 <= i < |lines[1..]| && ClassifyLine(f, showRaw, lines[1..][i]).stop.Some?;
          assert lines[i + 1] == lines[1..][i];
        }
      } else {
        assert ClassifyLine(f, showRaw, lines[0]).stop.Some?;
      }
    }
  }

  /** The first line that raises ends the stream: its fault is the last event,
      whatever the body does afterwards. */
  lemma {:induction false} FirstFaultEndsStream(f: Foreign, showRaw: bool, lines: seq<Bytes>, failure: Option<string>, i: nat)
    requires i < |lines| && ClassifyLine(f, showRaw, lines[i]).stop.Some?
    requires forall j | 0 <= j < i :: ClassifyLine(f, showRaw, lines[j]).stop.None?
    ensures var events := EventStream(f, showRaw, lines, failure);
            events != [] && events[|events| - 1] == Error(ClassifyLine(f, showRaw, lines[i]).stop.value)
    decreases i
  {
    if i > 0 {
      var out := ClassifyLine(f, showRaw, lines[0]);
      assert out.stop.None?;
      forall j | 0 <= j < i - 1
        ensures ClassifyLine(f, showRaw, lines[1..][j]).stop.None?
      {
        assert lines[1..][j] == lines[j + 1];
      }
      assert lines[1..][i - 1] == lines[i];
      FirstFaultEndsStream(f, showRaw, lines[1..], failure, i - 1);
    }
  }

  /** Whatever the response, at most one error event, and only at the end. */
  lemma ErrorIsLast(f: Foreign, showRaw: bool, r: Response)
    ensures ErrorOnlyLast(InvokeAgent(f, showRaw, r))
  {
    if r.Response? && Substring("text/event-stream", r.contentType) {
      StreamErrorIsLast(f, showRaw, r.lines, r.failure);
    }
  }

  /** The stream is the concatenation of the per-line events: the events of a
      first stretch of lines stand, and unless that stretch raised, the rest of
      the stream follows them unchanged. */
  lemma {:induction false} StreamConcat(f: Foreign, showRaw: bool, a: seq<Bytes>, b: seq<Bytes>, failure: Option<string>)
    ensures var head := EventStream(f, showRaw, a, None);
            EventStream(f, showRaw, a + b, failure)
              == if EndsInError(head) then head else head + EventStream(f, showRaw, b, failure)
    decreases |a|
  {
    if a == [] {
      assert a + b == b;
    } else {
      var out := ClassifyLine(f, showRaw, a[0]);
      assert (a + b)[0] == a[0];
      assert (a + b)[1..] == a[1..] + b;
      match out.stop
      case Some(fault) =>
        assert EventStream(f, showRaw, a, None) == out.events + [Error(fault)];
        assert EventStream(f, showRaw, a + b, failure) == out.events + [Error(fault)];
      case None =>
        var tail := EventStream(f, showRaw, a[1..], None);
        var rest := EventStream(f, showRaw, b, failure);
        assert EventStream(f, showRaw, a, None) == out.events + tail;
        assert EventStream(f, showRaw, a + b, failure) == out.events + EventStream(f, showRaw, a[1..] + b, failure);
        StreamConcat(f, showRaw, a[1..], b, failure);
        ErrorFreePrefix(out.events, tail);
        if !EndsInError(tail) {
          AppendAssoc(out.events, tail, rest);
        }
    }
  }

  /** Events without an error in front of a stream do not change whether it
      ended in error. */
  lemma ErrorFreePrefix(prefix: seq<Event>, tail: seq<Event>)
    requires forall e <- prefix :: !e.Error?
    ensures EndsInError(prefix + tail) <==> EndsInError(tail)
  {
    if tail == [] && |prefix| > 0 {
      assert prefix + tail == prefix;
      assert prefix[|prefix| - 1] in prefix;
    } else if tail != [] {
      assert (prefix + tail)[|prefix + tail| - 1] == tail[|tail| - 1];
    }
  }

  /** A body that raises after its lines: the events of the lines stand, and
      one error event follows them unless a line had already raised. */
  lemma {:induction false} TransportFailureKeepsEvents(f: Foreign, showRaw: bool, lines: seq<Bytes>, reason: string)
    ensures var base := EventStream(f, showRaw, lines, None);
            EventStream(f, showRaw, lines, Some(reason))
              == if EndsInError(base) then base else base + [Error(TransportError(reason))]
    decreases |lines|
  {
    if lines != [] {
      var out := ClassifyLine(f, showRaw, lines[0]);
      if out.stop.None? {
        var tail := EventStream(f, showRaw, lines[1..], None);
        TransportFailureKeepsEvents(f, showRaw, lines[1..], reason);
        ErrorFreePrefix(out.events, tail);
        if !EndsInError(tail) {
          AppendAssoc(out.events, tail, [Error(TransportError(reason))]);
        }
      }
    }
  }

  /** Raw-response analysis changes nothing but the raw events it adds. */
  lemma {:induction false} RawModeOnlyAddsRaw(f: Foreign, lines: seq<Bytes>, failure: Option<string>)
    ensures WithoutRaw(EventStream(f, true, lines, failure)) == EventStream(f, false, lines, failure)
    decreases |lines|
  {
    if lines == [] {
    } else {
      var raw := ClassifyLine(f, true, lines[0]);
      RawLineOnlyAddsRaw(f, lines[0]);
      match raw.stop
      case Some(fault) =>
        WithoutRawAppend(raw.events, [Error(fault)]);
      case None =>
        WithoutRawAppend(raw.events, EventStream(f, true, lines[1..], failure));
        RawModeOnlyAddsRaw(f, lines[1..], failure);
    }
  }

  /** One line: the raw analysis adds only raw events and stops alike. */
  lemma RawLineOnlyAddsRaw(f: Foreign, line: Bytes)
    ensures WithoutRaw(ClassifyLine(f, true, line).events) == ClassifyLine(f, false, line).events
    ensures ClassifyLine(f, true, line).stop == ClassifyLine(f, false, line).stop
  {
    if line != [] && f.utf8(line).Some? && StartsWith(f.utf8(line).value, DataPrefix) {
      var raw := ClassifyLine(f, true, line);
      var payload := f.utf8(line).value[|DataPrefix|..];
      RawEventsComeFirst(f, payload);
      var p := ClassifyPayload(f, false, payload);
      assert raw.events == raw.events[..2] + p.events;
      WithoutRawAppend(raw.events[..2], p.events);
      assert WithoutRaw(raw.events[..2]) == [];
      WithoutRawNoRaw(p.events);
    }
  }

  /** Events without raw ones are left as they are. */
  lemma {:induction false} WithoutRawNoRaw(events: seq<Event>)
    requires forall e <- events :: !e.Raw?
    ensures WithoutRaw(events) == events
    decreases |events|
  {
    if events != [] {
      assert events[0] in events;
      forall e <- events[1..] ensures !e.Raw? { assert e in events; }
      WithoutRawNoRaw(events[1..]);
    }
  }
}
