/** What the render loop promises: the text buffer only grows, by exactly the
    visible text chunks; tools are deduplicated by id; a content_block_stop
    completes the earliest running tool; the end of the turn completes every
    running tool and drops the cursor, and doing it twice changes nothing. */
module RenderProperties {
  import opened PyText
  import opened SeqLemmas
  import opened PyJson
  import opened StreamClassifier
  import opened TurnRender

  /** The text an event adds to the buffer: a string chunk with visible content. */
  function ChunkText(e: Event): string {
    if e.Text? && e.chunk.JStr? && !IsBlank(e.chunk.s) then e.chunk.s else ""
  }

  /** The visible text chunks of an event sequence, concatenated in order. */
  function TextOf(events: seq<Event>): string
    decreases |events|
  {
    if events == [] then "" else TextOf(events[..|events| - 1]) + ChunkText(events[|events| - 1])
  }

  lemma InitialWellformed()
    ensures Wellformed(Initial)
  {
  }

  /** One step appends exactly the event's visible text, verbatim; a
      whitespace-only chunk changes nothing. */
  lemma NextAppendsChunk(cfg: Settings, repr: Json -> string, s: RenderState, e: Event)
    requires Wellformed(s) && Next(cfg, repr, s, e).Some?
    ensures Next(cfg, repr, s, e).value.fullResponse == s.fullResponse + ChunkText(e)
    ensures e.Text? && e.chunk.JStr? && IsBlank(e.chunk.s) ==> Next(cfg, repr, s, e).value == s
  {
  }

  /** Over a whole run the buffer is the old buffer followed by every visible
      text chunk, in order: append-only, nothing dropped, nothing reordered. */
  lemma {:induction false} RunAppendsText(cfg: Settings, repr: Json -> string, s: RenderState, events: seq<Event>)
    requires Wellformed(s)
    ensures Run(cfg, repr, s, events).Some? ==>
              Run(cfg, repr, s, events).value.fullResponse == s.fullResponse + TextOf(events)
    decreases |events|
  {
    if events != [] {
      var init, last := events[..|events| - 1], events[|events| - 1];
      RunAppendsText(cfg, repr, s, init);
      assert events == init + [last];
      RunStepAppendsText(cfg, repr, s, init, last);
    }
  }

  /** The inductive step of `RunAppendsText`: one more event. */
  lemma RunStepAppendsText(cfg: Settings, repr: Json -> string, s: RenderState, init: seq<Event>, last: Event)
    requires Wellformed(s)
    requires Run(cfg, repr, s, init).Some? ==>
               Run(cfg, repr, s, init).value.fullResponse == s.fullResponse + TextOf(init)
    ensures Run(cfg, repr, s, init + [last]).Some? ==>
              Run(cfg, repr, s, init + [last]).value.fullResponse == s.fullResponse + TextOf(init + [last])
  {
    RunNextAppendsChunk(cfg, repr, s, init, last);
    TextOfSnoc(init, last);
    AppendAssoc(s.fullResponse, TextOf(init), ChunkText(last));
  }

  lemma RunNextAppendsChunk(cfg: Settings, repr: Json -> string, s: RenderState, init: seq<Event>, last: Event)
    requires Wellformed(s)
    ensures Run(cfg, repr, s, init + [last]).Some? ==>
              && Run(cfg, repr, s, init).Some?
              && Run(cfg, repr, s, init + [last]).value.fullResponse == Run(cfg, repr, s, init).value.fullResponse + ChunkText(last)
  {
    RunSnoc(cfg, repr, s, init, last);
    if Run(cfg, repr, s, init + [last]).Some? {
      NextAppendsChunk(cfg, repr, Run(cfg, repr, s, init).value, last);
    }
  }

  /** Rendering one more event is one more loop pass. */
  lemma RunSnoc(cfg: Settings, repr: Json -> string, s: RenderState, init: seq<Event>, last: Event)
    requires Wellformed(s)
    ensures Run(cfg, repr, s, init + [last]) ==
              match Run(cfg, repr, s, init)
              case None => None
              case Some(t) => Next(cfg, repr, t, last)
  {
    assert (init + [last])[..|init|] == init;
  }

  lemma TextOfSnoc(init: seq<Event>, last: Event)
    ensures TextOf(init + [last]) == TextOf(init) + ChunkText(last)
  {
    assert (init + [last])[..|init|] == init;
  }

  /** Once an event has raised, the rest of the turn is not rendered. */
  lemma {:induction false} RunAbortPersists(cfg: Settings, repr: Json -> string, s: RenderState, events: seq<Event>, k: nat)
    requires Wellformed(s) && k <= |events| && Run(cfg, repr, s, events[..k]).None?
    ensures Run(cfg, repr, s, events).None?
    decreases |events| - k
  {
    if k < |events| {
      assert events[..k + 1][..k] == events[..k];
      RunAbortPersists(cfg, repr, s, events, k + 1);
    } else {
      assert events[..k] == events;
    }
  }

  /** A tool_use whose non-empty id was already shown is a no-op. */
  lemma DuplicateToolUseIgnored(cfg: Settings, repr: Json -> string, s: RenderState, name: Json, id: Json, input: Json)
    requires Wellformed(s) && Truthy(id) && Hashable(id) && id in s.displayedTools
    ensures Next(cfg, repr, s, ToolUse(name, id, input)) == Some(s)
  {
  }

  /** A shown tool_use with a fresh non-empty id creates exactly one running
      placeholder for it, last in the running order; after that the id is
      shown, so no second placeholder for it can ever be created. */
  lemma NewToolUseCreatesOneRecord(cfg: Settings, repr: Json -> string, s: RenderState, name: string, id: Json, input: Json)
    requires Wellformed(s) && cfg.showToolUsage && Truthy(id) && Hashable(id) && id !in s.displayedTools
    ensures var r := Next(cfg, repr, s, ToolUse(JStr(name), id, input));
            && r.Some?
            && r.value.toolRecords == s.toolRecords + [ToolRecord(id, DisplayName(name), input, false)]
            && r.value.activeTools == s.activeTools + [(id, |s.toolRecords|)]
            && r.value.indicator == Hidden
            && id in r.value.displayedTools
            && Next(cfg, repr, r.value, ToolUse(JStr(name), id, input)) == r
  {
  }

  /** A tool_use with an empty (falsy) id records nothing, though it still
      clears the thinking indicator. */
  lemma EmptyIdRecordsNothing(cfg: Settings, repr: Json -> string, s: RenderState, name: Json, id: Json, input: Json)
    requires Wellformed(s) && !Truthy(id)
    ensures var r := Next(cfg, repr, s, ToolUse(name, id, input));
            r.Some? ==> r.value.toolRecords == s.toolRecords && r.value.activeTools == s.activeTools
                        && r.value.displayedTools == s.displayedTools
  {
  }

  /** A strands tool event is shown at most once per `strands_<name>` key
      and never becomes a running placeholder. */
  lemma StrandsToolShownOnce(cfg: Settings, repr: Json -> string, s: RenderState, name: Json, debug: Json, debug2: Json)
    requires Wellformed(s)
    ensures var r := Next(cfg, repr, s, StrandsTool(name, debug));
            && r.Some?
            && r.value.toolRecords == s.toolRecords && r.value.activeTools == s.activeTools
            && (cfg.showToolUsage && JStr("strands_" + Str(repr, name)) !in s.displayedTools ==>
                  r.value.strandsTools == s.strandsTools + [NamedTool(Str(repr, name))])
            && |r.value.strandsTools| <= |s.strandsTools| + 1
            && Next(cfg, repr, r.value, StrandsTool(name, debug2)) == r
  {
  }

  /** With tool usage hidden, tool events of both kinds change nothing. */
  lemma HiddenToolUsageIgnoresTools(cfg: Settings, repr: Json -> string, s: RenderState, e: Event)
    requires Wellformed(s) && !cfg.showToolUsage && (e.ToolUse? || e.StrandsTool?)
    ensures Next(cfg, repr, s, e) == Some(s)
  {
  }

  /** content_block_stop marks complete the earliest-created placeholder that
      is still running, and only that one, and removes it from the running
      tools; with no tool running it is a no-op. */
  lemma BlockStopCompletesEarliest(cfg: Settings, repr: Json -> string, s: RenderState, info: Json)
    requires Wellformed(s)
    ensures s.activeTools == [] ==> Next(cfg, repr, s, ContentBlockStop(info)) == Some(s)
    ensures s.activeTools != [] ==>
              var k := s.activeTools[0].1;
              var t := Next(cfg, repr, s, ContentBlockStop(info));
              && k < |s.toolRecords| && !s.toolRecords[k].complete
              && (forall j | 0 <= j < k :: s.toolRecords[j].complete)
              && t.Some?
              && t.value.toolRecords == s.toolRecords[k := s.toolRecords[k].(complete := true)]
              && t.value.activeTools == s.activeTools[1..]
  {
    if s.activeTools != [] {
      var k := s.activeTools[0].1;
      assert ActiveAt(s.activeTools, s.toolRecords, 0);
      forall j | 0 <= j < k ensures s.toolRecords[j].complete {
        if !s.toolRecords[j].complete {
          // j would be a running slot earlier than the first one
          assert false;
        }
      }
    }
  }

  /** The end of the turn marks every placeholder complete, changes nothing
      else about them, clears the indicator and shows the text without the
      cursor, if text started. */
  lemma FinalizeCompletesAll(s: RenderState)
    requires Wellformed(s) && Finalize(s).Some?
    ensures var t := Finalize(s).value;
            && |t.toolRecords| == |s.toolRecords|
            && (forall k | 0 <= k < |t.toolRecords| :: t.toolRecords[k] == s.toolRecords[k].(complete := true))
            && t.indicator == Hidden
            && t.fullResponse == s.fullResponse
            && t.messageView == (if s.textStarted then Some(s.fullResponse) else None)
  {
    var t := Finalize(s).value;
    forall k | 0 <= k < |t.toolRecords| ensures t.toolRecords[k] == s.toolRecords[k].(complete := true) {
      if !s.toolRecords[k].complete {
        assert k in Slots(s.activeTools);
      }
    }
  }

  /** Finalising twice gives what finalising once gives. */
  lemma FinalizeIdempotent(s: RenderState)
    requires Finalize(s).Some?
    ensures Finalize(Finalize(s).value) == Finalize(s)
  {
    var t := Finalize(s).value;
    assert CompleteSlots(t.toolRecords, Slots(t.activeTools)) == t.toolRecords;
  }

  /** The metrics panel appears only at the end of the turn, from the last
      metadata payload, with the missing counts shown as 0; a token count
      `st.metric` refuses makes the end of the turn raise. */
  lemma MetricsShownAtEnd(cfg: Settings, repr: Json -> string, s: RenderState, usage: map<string, Json>, metrics: map<string, Json>)
    requires Wellformed(s)
    ensures var info := JObj(map["usage" := JObj(usage), "metrics" := JObj(metrics)]);
            var r := Next(cfg, repr, s, Metadata(info));
            && r == Some(s.(metadataInfo := Some(info)))
            && (CountsShown(usage) ==>
                  && Finalize(r.value).Some?
                  && Finalize(r.value).value.metrics == Some(MetricsPanel(
                       Lookup(usage, "inputTokens", JNum(0.0)), Lookup(usage, "outputTokens", JNum(0.0)),
                       Lookup(usage, "totalTokens", JNum(0.0)), Lookup(metrics, "latencyMs", JNum(0.0)))))
            && (!CountsShown(usage) ==> Finalize(r.value).None?)
  {
    var info := JObj(map["usage" := JObj(usage), "metrics" := JObj(metrics)]);
    assert info.fields["usage"] == JObj(usage) && info.fields["metrics"] == JObj(metrics);
    if CountsShown(usage) {
      assert MetricsOf(Some(info)) == Ok(Some(MetricsPanel(
               Lookup(usage, "inputTokens", JNum(0.0)), Lookup(usage, "outputTokens", JNum(0.0)),
               Lookup(usage, "totalTokens", JNum(0.0)), Lookup(metrics, "latencyMs", JNum(0.0)))));
    } else {
      assert Truthy(info) by { assert "usage" in info.fields; }
      assert !WellShapedMetadata(info.fields);
    }
  }

  /** Any `aws___` tool outside the three documentation tools is shown by the
      rest of its name. */
  lemma AwsToolShownWithoutPrefix(rest: string)
    requires !Substring(AwsPrefix, rest)
    requires !Substring("search_documentation", AwsPrefix + rest)
    requires !Substring("read_documentation", AwsPrefix + rest)
    requires !Substring("recommend", AwsPrefix + rest)
    ensures DisplayName(AwsPrefix + rest) == AwsTool(rest)
  {
    assert (AwsPrefix + rest)[..|AwsPrefix|] == AwsPrefix;
    RemoveAllLeading(AwsPrefix, rest);
  }

  /** The AWS documentation tools are recognised by keyword: search, then
      read, then recommend. */
  lemma AwsDocToolsByKeyword(name: string)
    requires StartsWith(name, AwsPrefix)
    ensures Substring("search_documentation", name) ==> DisplayName(name) == AwsDocSearch
    ensures !Substring("search_documentation", name) && Substring("read_documentation", name) ==>
              DisplayName(name) == AwsDocRead
    ensures !Substring("search_documentation", name) && !Substring("read_documentation", name) && Substring("recommend", name) ==>
              DisplayName(name) == AwsDocRecommend
  {
  }

  /** A tool outside the `aws___` namespace is shown by its own name, whatever
      keywords it contains. */
  lemma OtherToolShownByName(name: string)
    requires !StartsWith(name, AwsPrefix)
    ensures DisplayName(name) == NamedTool(name)
  {
  }
}
