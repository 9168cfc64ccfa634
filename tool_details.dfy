/** The tool descriptors the agent entrypoint builds from the MCP server's
    tool list, before it starts the agent. */
module ToolDetails {
  import opened PyJson

  /** An MCP tool object.  An attribute the object lacks is None; one it has
      holds whatever value it was given. */
  datatype McpTool = McpTool(toolName: Json, description: Option<Json>, inputSchema: Option<Json>)

  /** One `tool_info` dict: `name`, `description`, and `input_schema` only
      when the tool has one, printed to a string. */
  datatype ToolInfo = ToolInfo(name: Json, description: Json, inputSchema: Option<string>)

  const NoDescription := JStr("No description available")

  /** The normalisation loop.  `tools` is None or empty when the server
      lists nothing; `repr` is Python's `repr`, which `str` applies to a
      value that is not a string. */
  method CollectToolDetails(repr: Json -> string, tools: Option<seq<McpTool>>) returns (details: seq<ToolInfo>)
    ensures tools.None? ==> details == []
    ensures tools.Some? ==> |details| == |tools.value|
    ensures tools.Some? ==> forall i | 0 <= i < |details| ::
              var tool := tools.value[i];
              && details[i].name == tool.toolName
              && details[i].description == (if tool.description.Some? then tool.description.value else NoDescription)
              && (details[i].inputSchema.Some? <==> tool.inputSchema.Some?)
              && (tool.inputSchema.Some? ==> details[i].inputSchema.value == Str(repr, tool.inputSchema.value))
  {
    details := [];
    var list := if tools.Some? then tools.value else [];
    for i := 0 to |list|
      invariant |details| == i
      invariant forall j | 0 <= j < i ::
                  && details[j].name == list[j].toolName
                  && details[j].description == (if list[j].description.Some? then list[j].description.value else NoDescription)
                  && (details[j].inputSchema.Some? <==> list[j].inputSchema.Some?)
                  && (list[j].inputSchema.Some? ==> details[j].inputSchema.value == Str(repr, list[j].inputSchema.value))
    {
      var tool := list[i];
      var info := ToolInfo(tool.toolName, NoDescription, None);
      if tool.description.Some? {
        info := info.(description := tool.description.value);
      }
      if tool.inputSchema.Some? {
        info := info.(inputSchema := Some(Str(repr, tool.inputSchema.value)));
      }
      details := details + [info];
    }
  }
}
