/** The two ends together: what the agent entrypoint injects is what the chat
    client recognises as a strands tool event. */
module Pipeline {
  import opened PyJson
  import opened StreamClassifier
  import opened ToolDetection

  /** A synthetic event, decoded on the client side, is classified as a
      strands tool event carrying the detected name and the original event. */
  lemma SyntheticIsStrandsTool(repr: Json -> string, name: Json, event: Json)
    ensures ClassifyDecoded(repr, Synthetic(name, event)) == Done([StrandsTool(name, event)])
  {
    var m := Synthetic(name, event).fields;
    assert "init_event_loop" !in m && "start" !in m && "start_event_loop" !in m && "event" !in m;
  }
}
