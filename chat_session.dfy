/** The chat page: a session holds the conversation so far; submitting a
    prompt records it, streams the agent's reply through the turn renderer,
    and records the reply once the turn has rendered to the end. */
module ChatSession {
  import opened PyText
  import opened PyJson
  import opened StreamClassifier
  import opened TurnRender
  import opened RenderProperties

  datatype Role = User | Assistant

  datatype ChatMessage = ChatMessage(role: Role, content: string)

  /** The reply a turn over `events` stores: the text buffer after the last
      event and the end-of-turn finalisation; None when rendering raised.  It
      is exactly the visible streamed text, in order. */
  function TurnReply(cfg: Settings, repr: Json -> string, events: seq<Event>): (r: Option<string>)
    ensures r.Some? ==> r.value == TextOf(events)
  {
    InitialWellformed();
    RunAppendsText(cfg, repr, Initial, events);
    match Run(cfg, repr, Initial, events)
    case None => None
    case Some(t) =>
      match Finalize(t)
      case None => None
      case Some(u) => Some(u.fullResponse)
  }

  /** A trailing error event is shown but leaves the stored reply as it was:
      the text received before the failure is kept. */
  lemma ErrorKeepsReply(cfg: Settings, repr: Json -> string, events: seq<Event>, fault: Fault)
    ensures TurnReply(cfg, repr, events + [Error(fault)]) == TurnReply(cfg, repr, events)
  {
    InitialWellformed();
    RunSnoc(cfg, repr, Initial, events, Error(fault));
    match Run(cfg, repr, Initial, events)
    case None =>
    case Some(t) =>
      assert Next(cfg, repr, t, Error(fault)) == Some(t.(errors := t.errors + [fault]));
      ErrorKeepsFinalText(t, fault);
  }

  /** Recording an error changes neither whether the turn finalises nor the
      text it ends with. */
  lemma ErrorKeepsFinalText(t: RenderState, fault: Fault)
    ensures var u := t.(errors := t.errors + [fault]);
            && (Finalize(u).Some? <==> Finalize(t).Some?)
            && (Finalize(t).Some? ==> Finalize(u).value.fullResponse == Finalize(t).value.fullResponse)
  {
    var u := t.(errors := t.errors + [fault]);
    if Finalize(t).Some? {
      assert Finalize(u).value.fullResponse == t.fullResponse == Finalize(t).value.fullResponse;
    }
  }

  /** A turn made only of string text chunks and error events always
      renders to the end and stores a reply. */
  lemma TextTurnCompletes(cfg: Settings, repr: Json -> string, events: seq<Event>)
    requires forall e <- events :: (e.Text? && e.chunk.JStr?) || e.Error?
    ensures Run(cfg, repr, Initial, events).Some?
    ensures Run(cfg, repr, Initial, events).value.metadataInfo == None
    ensures TurnReply(cfg, repr, events).Some?
  {
    TextRunCompletes(cfg, repr, events);
  }

  lemma {:induction false} TextRunCompletes(cfg: Settings, repr: Json -> string, events: seq<Event>)
    requires forall e <- events :: (e.Text? && e.chunk.JStr?) || e.Error?
    ensures Run(cfg, repr, Initial, events).Some?
    ensures Run(cfg, repr, Initial, events).value.metadataInfo == None
    decreases |events|
  {
    InitialWellformed();
    if events != [] {
      var init, last := events[..|events| - 1], events[|events| - 1];
      assert events == init + [last];
      assert last in events;
      TextRunCompletes(cfg, repr, init);
      RunSnoc(cfg, repr, Initial, init, last);
      TextStepKeepsMetadata(cfg, repr, Run(cfg, repr, Initial, init).value, last);
    }
  }

  lemma TextStepKeepsMetadata(cfg: Settings, repr: Json -> string, s: RenderState, e: Event)
    requires Wellformed(s) && ((e.Text? && e.chunk.JStr?) || e.Error?)
    ensures Next(cfg, repr, s, e).Some? && Next(cfg, repr, s, e).value.metadataInfo == s.metadataInfo
  {
  }

  /** The visible text of two string chunks and an error is the two chunks
      joined. */
  lemma TwoChunksText(a: string, b: string, fault: Fault)
    requires !IsBlank(a) && !IsBlank(b)
    ensures TextOf([Text(JStr(a)), Text(JStr(b)), Error(fault)]) == a + b
  {
    var events := [Text(JStr(a)), Text(JStr(b)), Error(fault)];
    var one := [Text(JStr(a))];
    var two := [Text(JStr(a)), Text(JStr(b))];
    assert one[..0] == [];
    assert TextOf(one) == a;
    assert two[..1] == one;
    assert TextOf(two) == a + b;
    assert events[..2] == two;
  }

  /** A stream of two text lines followed by a broken connection yields the
      two texts and one error, and stores the two texts joined. */
  lemma TwoChunksThenFailure(f: Foreign, cfg: Settings, l1: Bytes, l2: Bytes, a: string, b: string, reason: string, shown: string)
    requires ClassifyLine(f, cfg.showRaw, l1) == Done([Text(JStr(a))])
    requires ClassifyLine(f, cfg.showRaw, l2) == Done([Text(JStr(b))])
    requires !IsBlank(a) && !IsBlank(b)
    ensures var events := InvokeAgent(f, cfg.showRaw, Response("text/event-stream", [l1, l2], Some(reason), shown));
            && events == [Text(JStr(a)), Text(JStr(b)), Error(TransportError(reason))]
            && TurnReply(cfg, f.repr, events) == Some(a + b)
  {
    var ct := "text/event-stream";
    var events := [Text(JStr(a)), Text(JStr(b)), Error(TransportError(reason))];
    TwoLinesThenFailure(f, cfg.showRaw, l1, l2, a, b, reason);
    assert OccursAt(ct, ct, 0);
    assert InvokeAgent(f, cfg.showRaw, Response(ct, [l1, l2], Some(reason), shown))
        == EventStream(f, cfg.showRaw, [l1, l2], Some(reason));
    TextTurnCompletes(cfg, f.repr, events);
    TwoChunksText(a, b, TransportError(reason));
  }

  /** The event stream of two text lines and a broken connection. */
  lemma TwoLinesThenFailure(f: Foreign, showRaw: bool, l1: Bytes, l2: Bytes, a: string, b: string, reason: string)
    requires ClassifyLine(f, showRaw, l1) == Done([Text(JStr(a))])
    requires ClassifyLine(f, showRaw, l2) == Done([Text(JStr(b))])
    ensures EventStream(f, showRaw, [l1, l2], Some(reason)) == [Text(JStr(a)), Text(JStr(b)), Error(TransportError(reason))]
  {
    var events := [Text(JStr(a)), Text(JStr(b)), Error(TransportError(reason))];
    assert [l1, l2][1..] == [l2];
    assert [l2][1..] == [];
    assert EventStream(f, showRaw, [l2], Some(reason)) == events[1..];
  }

  class Session {
    var sessionId: string
    var messages: seq<ChatMessage>

    /** A new browser session: a fresh id and no messages. */
    constructor(freshId: string)
      ensures sessionId == freshId && messages == []
    {
      sessionId := freshId;
      messages := [];
    }

    /** The "new session" button: a fresh id and the history cleared. */
    method Reset(freshId: string)
      modifies this
      ensures sessionId == freshId && messages == []
    {
      sessionId := freshId;
      messages := [];
    }

    /** One submitted prompt.  The agent's `response` to it is given and
        rendered to the end; a turn whose rendering raises ends the page run,
        leaving the prompt recorded without a reply. */
    method Converse(f: Foreign, cfg: Settings, prompt: string, response: Response) returns (completed: bool)
      modifies this
      ensures sessionId == old(sessionId)
      ensures var reply := TurnReply(cfg, f.repr, InvokeAgent(f, cfg.showRaw, response));
              && completed == reply.Some?
              && messages == old(messages) + [ChatMessage(User, prompt)]
                             + (if completed then [ChatMessage(Assistant, reply.value)] else [])
    {
      messages := messages + [ChatMessage(User, prompt)];
      var reply;
      completed, reply := RenderTurn(cfg, f.repr, InvokeAgent(f, cfg.showRaw, response));
      if completed {
        messages := messages + [ChatMessage(Assistant, reply)];
      }
    }
  }

  /** One turn: a fresh renderer consumes the events and then finishes the
      turn.  False where an event or the finalisation raises. */
  method RenderTurn(cfg: Settings, repr: Json -> string, events: seq<Event>) returns (ok: bool, reply: string)
    ensures ok <==> TurnReply(cfg, repr, events).Some?
    ensures ok ==> reply == TurnReply(cfg, repr, events).value
  {
    InitialWellformed();
    var renderer := new TurnRenderer(cfg, repr);
    ok := ConsumeEvents(renderer, events);
    if !ok {
      return false, "";
    }
    ok, reply := renderer.Finish();
  }

  /** The render loop: the events in order, one step each, stopping at the
      first that raises. */
  method ConsumeEvents(renderer: TurnRenderer, events: seq<Event>) returns (ok: bool)
    requires renderer.Valid() && renderer.State() == Initial
    modifies renderer
    ensures ok <==> Run(renderer.settings, renderer.repr, Initial, events).Some?
    ensures ok ==> renderer.Valid() && renderer.State() == Run(renderer.settings, renderer.repr, Initial, events).value
  {
    InitialWellformed();
    var cfg, repr := renderer.settings, renderer.repr;
    var i := 0;
    while i < |events|
      invariant 0 <= i <= |events|
      invariant renderer.Valid() && renderer.settings == cfg && renderer.repr == repr
      invariant Run(cfg, repr, Initial, events[..i]) == Some(renderer.State())
    {
      assert events[..i + 1] == events[..i] + [events[i]];
      RunSnoc(cfg, repr, Initial, events[..i], events[i]);
      ok := renderer.Step(events[i]);
      if !ok {
        RunAbortPersists(cfg, repr, Initial, events, i + 1);
        return;
      }
      i := i + 1;
    }
    assert events[..i] == events;
    ok := true;
  }
}
