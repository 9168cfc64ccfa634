/** The agent entrypoint in my_strands_agent.py relays every event of the
    agent's stream to the chat client.  Before a dict event in which it can
    recognise a tool invocation it inserts a synthetic
    `{"tool_name": n, "type": "tool_use", "debug_data": event}` event. */
module ToolDetection {
  import opened PyText
  import opened PyJson

  const UnknownToolName := "Unknown Tool"
  const ToolUseMarker := "tool_use"

  /** `d.get(k1, d.get(k2, d.get(k3, None)))`: the first key present wins,
      whatever it holds. */
  function FirstOf(m: map<string, Json>, k1: string, k2: string, k3: string): Json {
    Lookup(m, k1, Lookup(m, k2, Lookup(m, k3, JNull)))
  }

  /** `any(k in text for k in keywords)` */
  predicate AnyIn(keywords: seq<string>, text: string) {
    exists k <- keywords :: Substring(k, text)
  }

  /** The event is marked as a tool use, by its `type` or anywhere in its
      printed form. */
  predicate Marked(m: map<string, Json>, text: string) {
    Lookup(m, "type", JStr("")) == JStr(ToolUseMarker) || Substring(ToolUseMarker, text)
  }

  /** The event carries a dict under `tool`. */
  predicate HasToolObject(m: map<string, Json>) {
    "tool" in m && m["tool"].JObj?
  }

  /** The name the heuristics give an event's printed form, JNull when none
      applies. */
  function HeuristicName(text: string): (r: Json)
    ensures r == JNull || Announced(r)
  {
    if Substring("aws", text) && Substring("documentation", text) then
      if Substring("search", text) then JStr("AWS Documentation Search")
      else if Substring("read", text) then JStr("AWS Documentation Reader")
      else JStr("AWS Documentation Tool")
    else if Substring("mcp", text) && AnyIn(["call", "invoke", "execute"], text) then
      if Substring("search_documentation", text) then JStr("Documentation Search")
      else if Substring("read_documentation", text) then JStr("Documentation Reader")
      else if Substring("recommend", text) then JStr("Content Recommender")
      else JStr("MCP Tool")
    else if AnyIn(["function_call", "api_call", "service_call"], text) then JStr("External Service")
    else JNull
  }

  /** The tool name detected in a dict event.  `lowered` is Python's
      `str(x).lower()`. */
  function DetectToolName(lowered: Json -> string, m: map<string, Json>): (r: Json)
    ensures !Marked(m, lowered(JObj(m))) && !HasToolObject(m) ==> r == JNull || Announced(r)
  {
    var text := lowered(JObj(m));
    if Marked(m, text) then FirstOf(m, "name", "tool_name", "function_name")
    else if HasToolObject(m) then FirstOf(m["tool"].fields, "name", "tool_name", "function")
    else HeuristicName(text)
  }

  /** A detected name is announced when it is truthy and is not one of the
      placeholder names. */
  predicate Announced(name: Json) {
    Truthy(name) && name != JStr(UnknownToolName) && name != JStr("")
  }

  function Synthetic(name: Json, event: Json): Json {
    JObj(map["tool_name" := name, "type" := JStr(ToolUseMarker), "debug_data" := event])
  }

  /** The event is a dict whose detected name is announced. */
  predicate GetsSynthetic(lowered: Json -> string, event: Json) {
    event.JObj? && Announced(DetectToolName(lowered, event.fields))
  }

  /** What the entrypoint yields for one incoming event. */
  function Expand(lowered: Json -> string, event: Json): (out: seq<Json>)
    ensures 1 <= |out| <= 2 && out[|out| - 1] == event
  {
    if GetsSynthetic(lowered, event) then [Synthetic(DetectToolName(lowered, event.fields), event), event]
    else [event]
  }

  /** An event gets a synthetic event, built from its detected name, exactly
      when it is a dict whose detected name is announced. */
  lemma ExpandShape(lowered: Json -> string, event: Json)
    ensures |Expand(lowered, event)| == 2 <==> event.JObj? && Announced(DetectToolName(lowered, event.fields))
    ensures |Expand(lowered, event)| == 2 ==> Expand(lowered, event)[0] == Synthetic(DetectToolName(lowered, event.fields), event)
  {
  }

  /** The per-event expansion as a function value. */
  function ExpandWith(lowered: Json -> string): Json -> seq<Json> {
    e => Expand(lowered, e)
  }

  /** The outputs of `f` for the elements of `xs`, concatenated in order. */
  function Flatten<T>(f: T -> seq<T>, xs: seq<T>): seq<T>
    decreases |xs|
  {
    if xs == [] then [] else Flatten(f, xs[..|xs| - 1]) + f(xs[|xs| - 1])
  }

  /** Everything the entrypoint yields for a stream of agent events. */
  function Relayed(lowered: Json -> string, events: seq<Json>): seq<Json> {
    Flatten(ExpandWith(lowered), events)
  }

  /** The `async for` loop of the entrypoint. */
  method RelayStream(lowered: Json -> string, events: seq<Json>) returns (out: seq<Json>)
    ensures out == Relayed(lowered, events)
  {
    out := [];
    for i := 0 to |events|
      invariant out == Relayed(lowered, events[..i])
    {
      var event := events[i];
      FlattenStep(ExpandWith(lowered), events, i);
      if event.JObj? {
        var name := DetectToolName(lowered, event.fields);
        if Announced(name) {
          out := out + [Synthetic(name, event)];
        }
      }
      out := out + [event];
    }
    assert events[..|events|] == events;
  }

  lemma {:induction false} FlattenAppend<T>(f: T -> seq<T>, a: seq<T>, b: seq<T>)
    ensures Flatten(f, a + b) == Flatten(f, a) + Flatten(f, b)
    decreases |b|
  {
    if b != [] {
      var b' := b[..|b| - 1];
      assert (a + b)[..|a + b| - 1] == a + b';
      assert (a + b)[|a + b| - 1] == b[|b| - 1];
      FlattenAppend(f, a, b');
    } else {
      assert a + b == a;
    }
  }

  lemma FlattenStep<T>(f: T -> seq<T>, xs: seq<T>, i: nat)
    requires i < |xs|
    ensures Flatten(f, xs[..i + 1]) == Flatten(f, xs[..i]) + f(xs[i])
  {
    assert xs[..i + 1][..i] == xs[..i];
  }

  lemma FlattenSplit<T>(f: T -> seq<T>, head: seq<T>, tail: seq<T>, xs: seq<T>)
    requires head + tail == xs
    ensures Flatten(f, xs) == Flatten(f, head) + Flatten(f, tail)
  {
    FlattenAppend(f, head, tail);
  }

  lemma {:induction false} FlattenGrows<T>(f: T -> seq<T>, xs: seq<T>)
    requires forall x :: |f(x)| >= 1
    ensures |Flatten(f, xs)| >= |xs|
    decreases |xs|
  {
    if xs != [] {
      FlattenGrows(f, xs[..|xs| - 1]);
    }
  }

  lemma SliceOfConcat<T>(before: seq<T>, x: seq<T>, after: seq<T>)
    ensures (before + x + after)[|before|..|before| + |x|] == x
  {
  }

  /** Relaying a stream is relaying its parts one after the other. */
  lemma RelayedAppend(lowered: Json -> string, a: seq<Json>, b: seq<Json>)
    ensures Relayed(lowered, a + b) == Relayed(lowered, a) + Relayed(lowered, b)
  {
    FlattenAppend(ExpandWith(lowered), a, b);
  }

  /** Where the i-th incoming event ends up: `Relayed(events)[Slot(i) - 1]`. */
  function Slot(lowered: Json -> string, events: seq<Json>, i: nat): nat
    requires i < |events|
  {
    |Relayed(lowered, events[..i + 1])|
  }

  /** Every incoming event is yielded unchanged, in its own place: what sits
      there is its expansion, the event preceded by at most one synthetic
      event of its own (see `Expand`). */
  lemma ForwardedInPlace(lowered: Json -> string, events: seq<Json>, i: nat)
    requires i < |events|
    ensures var out := Relayed(lowered, events);
            var before := |Relayed(lowered, events[..i])|;
            var p := Slot(lowered, events, i);
            && before < p <= |out|
            && out[before..p] == Expand(lowered, events[i])
            && out[p - 1] == events[i]
  {
    var f := ExpandWith(lowered);
    FlattenStep(f, events, i);
    FlattenSplit(f, events[..i + 1], events[i + 1..], events);
    assert f(events[i]) == Expand(lowered, events[i]);
    SliceOfConcat(Flatten(f, events[..i]), f(events[i]), Flatten(f, events[i + 1..]));
  }

  /** Incoming events keep their order: a later event is yielded later. */
  lemma ForwardedInOrder(lowered: Json -> string, events: seq<Json>, i: nat, j: nat)
    requires i < j < |events|
    ensures Slot(lowered, events, i) < Slot(lowered, events, j)
  {
    var f := ExpandWith(lowered);
    var upto := events[..j + 1];
    FlattenSplit(f, upto[..i + 1], upto[i + 1..], upto);
    assert upto[..i + 1] == events[..i + 1];
    forall x ensures |f(x)| >= 1 {
      assert f(x) == Expand(lowered, x);
    }
    FlattenGrows(f, upto[i + 1..]);
  }

  /** Exactly one yielded event per incoming event, plus one per announced
      tool. */
  lemma {:induction false} RelayedLength(lowered: Json -> string, events: seq<Json>)
    ensures |Relayed(lowered, events)| == |events| + |AnnouncedAt(lowered, events)|
    decreases |events|
  {
    if events != [] {
      var n := |events| - 1;
      RelayedLength(lowered, events[..n]);
      FlattenStep(ExpandWith(lowered), events, n);
      assert events[..n + 1] == events;
      AnnouncedAtSnoc(lowered, events);
      assert |ExpandWith(lowered)(events[n])| == 2 <==> GetsSynthetic(lowered, events[n]);
    }
  }

  /** The positions of the events that get a synthetic event. */
  function AnnouncedAt(lowered: Json -> string, events: seq<Json>): set<nat> {
    set i: nat | i < |events| && GetsSynthetic(lowered, events[i])
  }

  lemma AnnouncedAtSnoc(lowered: Json -> string, events: seq<Json>)
    requires events != []
    ensures var n := |events| - 1;
            && n !in AnnouncedAt(lowered, events[..n])
            && AnnouncedAt(lowered, events) ==
                 AnnouncedAt(lowered, events[..n]) + (if GetsSynthetic(lowered, events[n]) then {n} else {})
  {
    var n := |events| - 1;
    var prev := AnnouncedAt(lowered, events[..n]);
    forall j: nat | j < n ensures j in AnnouncedAt(lowered, events) <==> j in prev {
      assert events[..n][j] == events[j];
    }
  }

  /** A tool-use marker decides alone: the name comes from `name`,
      `tool_name`, `function_name`, and when none of them is present no
      synthetic event is sent, however the event reads otherwise. */
  lemma MarkerWithoutNameSuppresses(lowered: Json -> string, m: map<string, Json>)
    requires Marked(m, lowered(JObj(m)))
    requires "name" !in m && "tool_name" !in m && "function_name" !in m
    ensures Expand(lowered, JObj(m)) == [JObj(m)]
  {
  }

  /** A marked event's name lookup prefers `name` over `tool_name` over
      `function_name`. */
  lemma MarkedLookupOrder(lowered: Json -> string, m: map<string, Json>)
    requires Marked(m, lowered(JObj(m)))
    ensures "name" in m ==> DetectToolName(lowered, m) == m["name"]
    ensures "name" !in m && "tool_name" in m ==> DetectToolName(lowered, m) == m["tool_name"]
    ensures "name" !in m && "tool_name" !in m && "function_name" in m ==> DetectToolName(lowered, m) == m["function_name"]
  {
  }

  /** An unmarked event with a `tool` dict takes its name from that dict
      (`name`, `tool_name`, `function`), never from the heuristics. */
  lemma ToolObjectBeatsHeuristics(lowered: Json -> string, m: map<string, Json>)
    requires !Marked(m, lowered(JObj(m))) && HasToolObject(m)
    ensures var t := m["tool"].fields;
            && ("name" in t ==> DetectToolName(lowered, m) == t["name"])
            && ("name" !in t && "tool_name" in t ==> DetectToolName(lowered, m) == t["tool_name"])
            && ("name" !in t && "tool_name" !in t && "function" in t ==> DetectToolName(lowered, m) == t["function"])
            && ("name" !in t && "tool_name" !in t && "function" !in t ==> Expand(lowered, JObj(m)) == [JObj(m)])
  {
  }

  /** An event that is neither marked nor carries a `tool` dict is named by
      the heuristics, and is relayed behind a synthetic event exactly when
      they name it. */
  lemma HeuristicsOrder(lowered: Json -> string, m: map<string, Json>)
    requires !Marked(m, lowered(JObj(m))) && !HasToolObject(m)
    ensures var text := lowered(JObj(m));
            && DetectToolName(lowered, m) == HeuristicName(text)
            && (HeuristicName(text) != JNull ==> Expand(lowered, JObj(m)) == [Synthetic(HeuristicName(text), JObj(m)), JObj(m)])
            && (HeuristicName(text) == JNull ==> Expand(lowered, JObj(m)) == [JObj(m)])
  {
  }

  /** The heuristics in order: the AWS documentation test first (search, then
      read, then the generic name); then an MCP call, invocation or execution
      (search_documentation, then read_documentation, then recommend, then
      the generic name); then an external call; otherwise no name. */
  lemma HeuristicArms(text: string)
    ensures var aws := Substring("aws", text) && Substring("documentation", text);
            var mcp := !aws && Substring("mcp", text)
                       && (Substring("call", text) || Substring("invoke", text) || Substring("execute", text));
            var external := !aws && !mcp
                            && (Substring("function_call", text) || Substring("api_call", text) || Substring("service_call", text));
            && (aws && Substring("search", text) ==> HeuristicName(text) == JStr("AWS Documentation Search"))
            && (aws && !Substring("search", text) && Substring("read", text) ==> HeuristicName(text) == JStr("AWS Documentation Reader"))
            && (aws && !Substring("search", text) && !Substring("read", text) ==> HeuristicName(text) == JStr("AWS Documentation Tool"))
            && (mcp && Substring("search_documentation", text) ==> HeuristicName(text) == JStr("Documentation Search"))
            && (mcp && !Substring("search_documentation", text) && Substring("read_documentation", text) ==>
                  HeuristicName(text) == JStr("Documentation Reader"))
            && (mcp && !Substring("search_documentation", text) && !Substring("read_documentation", text) && Substring("recommend", text) ==>
                  HeuristicName(text) == JStr("Content Recommender"))
            && (mcp && !Substring("search_documentation", text) && !Substring("read_documentation", text) && !Substring("recommend", text) ==>
                  HeuristicName(text) == JStr("MCP Tool"))
            && (external ==> HeuristicName(text) == JStr("External Service"))
            && (!aws && !mcp && !external ==> HeuristicName(text) == JNull)
  {
    var calls := ["call", "invoke", "execute"];
    assert AnyIn(calls, text) <==> Substring(calls[0], text) || Substring(calls[1], text) || Substring(calls[2], text) by {
      if AnyIn(calls, text) {
        var k :| k in calls && Substring(k, text);
      }
    }
    var externals := ["function_call", "api_call", "service_call"];
    assert AnyIn(externals, text) <==> Substring(externals[0], text) || Substring(externals[1], text) || Substring(externals[2], text) by {
      if AnyIn(externals, text) {
        var k :| k in externals && Substring(k, text);
      }
    }
  }
}
