/**
 * The client's catalog (chat_app_mcp.py): discovered tools become proxies
 * (`load_tools_from_mcp`), the agent's system prompt lists them numbered
 * (`create_agent_with_tools`), and the UI lists them as bullets (`create_ui`).
 */
module ToolCatalog {
  import opened Wrappers
  import opened Text
  import opened ToolSchema

  /** A tool as the server's `list_tools` reply describes it. */
  datatype McpTool = McpTool(name: string, description: Option<string>, inputSchema: Option<InputSchema>)

  /** `mcp_tool.description or f"Tool: {mcp_tool.name}"`. */
  function DescriptionOf(t: McpTool): string {
    if t.description.Some? && t.description.value != "" then t.description.value else "Tool: " + t.name
  }

  /** A tool without an `inputSchema` attribute is translated as `{}`. */
  function SchemaOf(t: McpTool): InputSchema {
    t.inputSchema.GetOr(EmptySchema)
  }

  /** `tool` is the proxy `create_dynamic_tool` builds for the discovered tool `t`. */
  ghost predicate IsProxyFor(tool: StructuredTool, t: McpTool) {
    && tool.name == t.name
    && tool.description == DescriptionOf(t)
    && (tool.argsSchema.None? <==> PropertiesOf(SchemaOf(t)) == [])
    && (tool.argsSchema.Some? ==>
          && tool.argsSchema.value.modelName == t.name + "Args"
          && Translates(PropertiesOf(SchemaOf(t)), RequiredOf(SchemaOf(t)), tool.argsSchema.value.fields))
  }

  /**
   * `load_tools_from_mcp`: one proxy per discovered tool, in discovery order,
   * with the same name; a missing or empty description becomes "Tool: <name>".
   */
  method LoadTools(discovered: seq<McpTool>) returns (tools: seq<StructuredTool>)
    ensures |tools| == |discovered|
    ensures forall i :: 0 <= i < |discovered| ==> IsProxyFor(tools[i], discovered[i])
    ensures forall i :: 0 <= i < |discovered| ==>
      (discovered[i].description.None? || discovered[i].description == Some("")) ==>
        tools[i].description == "Tool: " + discovered[i].name
  {
    tools := [];
    var i := 0;
    while i < |discovered|
      invariant 0 <= i <= |discovered|
      invariant |tools| == i
      invariant forall k :: 0 <= k < i ==> IsProxyFor(tools[k], discovered[k])
    {
      var t := discovered[i];
      var proxy := CreateDynamicTool(t.name, DescriptionOf(t), SchemaOf(t));
      tools := tools + [proxy];
      i := i + 1;
    }
  }

  /** The agent's system prompt around the `{tool_list}` placeholder. */
  const PromptHead := "You are a helpful assistant with access to tools via MCP (Model Context Protocol).\n\nAvailable tools:\n"
  const PromptTail := "\n\nWhen users ask questions that require these capabilities, use the appropriate tool.\nAfter receiving a tool response, provide a helpful answer using that information.\nBe friendly and conversational."

  /** `f"{i}. **{tool.name}** - {first line of tool.description}"`. */
  function PromptLine(n: nat, tool: StructuredTool): string {
    NatToString(n) + ". **" + tool.name + "** - " + FirstLine(tool.description)
  }

  /** The loop of `create_agent_with_tools` that numbers the tools from 1. */
  method ToolPromptLines(tools: seq<StructuredTool>) returns (lines: seq<string>)
    ensures lines == Numbered(tools, PromptLine)
  {
    lines := [];
    var i := 0;
    while i < |tools|
      invariant 0 <= i <= |tools|
      invariant lines == Numbered(tools[..i], PromptLine)
    {
      NumberedSnoc(tools, i, PromptLine);
      lines := lines + [PromptLine(i + 1, tools[i])];
      i := i + 1;
    }
    assert tools[..i] == tools;
  }

  /** The agent handle: the tools it may call and its system prompt. */
  datatype Agent = Agent(tools: seq<StructuredTool>, systemPrompt: string)

  /** `create_agent_with_tools`; the language model itself is not part of this model. */
  method CreateAgentWithTools(tools: seq<StructuredTool>) returns (agent: Agent)
    ensures agent.tools == tools
    ensures agent.systemPrompt == PromptHead + Join(Numbered(tools, PromptLine), "\n") + PromptTail
  {
    var lines := ToolPromptLines(tools);
    agent := Agent(tools, PromptHead + Join(lines, "\n") + PromptTail);
  }

  lemma NoNewlineInDigits(n: nat)
    ensures '\n' !in NatToString(n)
  {
  }

  /**
   * The prompt's tool list has one line per tool, in order, when tool names are
   * single-line: splitting the joined list at newlines gives back the lines.
   */
  lemma PromptToolList(tools: seq<StructuredTool>)
    requires tools != []
    requires forall i :: 0 <= i < |tools| ==> '\n' !in tools[i].name
    ensures Split(Join(Numbered(tools, PromptLine), "\n"), '\n') == Numbered(tools, PromptLine)
  {
    var lines := Numbered(tools, PromptLine);
    forall k | 0 <= k < |lines|
      ensures '\n' !in lines[k]
    {
      PromptLineSpec(k + 1, tools[k]);
    }
    JoinThenSplit(lines, '\n');
  }

  /** Line k of the prompt's tool list reads as number k, counting from 1. */
  lemma PromptLinesNumbered(tools: seq<StructuredTool>, k: nat)
    requires k < |tools|
    ensures ReadNumber(Numbered(tools, PromptLine)[k]) == k + 1
  {
    PromptLineNumber(k + 1, tools[k]);
  }

  lemma PromptLineSpec(n: nat, tool: StructuredTool)
    requires '\n' !in tool.name
    ensures '\n' !in PromptLine(n, tool)
  {
    NoNewlineInDigits(n);
    assert '\n' !in FirstLine(tool.description);
  }

  lemma PromptLineNumber(n: nat, tool: StructuredTool)
    ensures ReadNumber(PromptLine(n, tool)) == n
  {
    var rest := ". **" + tool.name + "** - " + FirstLine(tool.description);
    assert PromptLine(n, tool) == NatToString(n) + rest;
    ReadNumberOf(n, rest);
  }

  /** The cleaned description `create_ui` shows for a tool. */
  function UiDescription(description: string): string {
    var first := if description != "" then FirstLine(description) else "No description";
    Strip(Replace(first, '|', '-'))
  }

  /** `f"- **{tool.name}**: {desc}"`. */
  function UiItem(tool: StructuredTool): string {
    "- **" + tool.name + "**: " + UiDescription(tool.description)
  }

  /** The bullets, one per tool in order. */
  function UiItems(tools: seq<StructuredTool>): (r: seq<string>)
    ensures |r| == |tools|
    ensures forall i :: 0 <= i < |tools| ==> r[i] == UiItem(tools[i])
  {
    if tools == [] then [] else UiItems(tools[..|tools| - 1]) + [UiItem(tools[|tools| - 1])]
  }

  const NoToolsAvailable := "- No tools available"

  /**
   * The shown description is a single line with no pipe character (which would
   * break the markdown) and no surrounding whitespace.
   */
  lemma UiDescriptionSpec(description: string)
    ensures '|' !in UiDescription(description)
    ensures '\n' !in UiDescription(description)
    ensures UiDescription(description) != [] ==>
      !IsSpace(UiDescription(description)[0]) && !IsSpace(UiDescription(description)[|UiDescription(description)| - 1])
  {
    var first := if description != "" then FirstLine(description) else "No description";
    assert '\n' !in first;
    var replaced := Replace(first, '|', '-');
    assert '|' !in replaced;
    assert '\n' !in replaced;
    StripKeepsOut(replaced, '|');
    StripKeepsOut(replaced, '\n');
    StripSpec(replaced);
  }

  /**
   * The tool-list markdown of `create_ui`: one bullet per tool joined by
   * newlines, or a fixed line when there are no tools.
   */
  method UiToolList(tools: seq<StructuredTool>) returns (md: string)
    ensures tools == [] ==> md == NoToolsAvailable
    ensures tools != [] ==> md == Join(UiItems(tools), "\n")
  {
    var items := [];
    var i := 0;
    while i < |tools|
      invariant 0 <= i <= |tools|
      invariant items == UiItems(tools[..i])
    {
      assert tools[..i + 1][..i] == tools[..i];
      items := items + [UiItem(tools[i])];
      i := i + 1;
    }
    assert tools[..i] == tools;
    md := if items != [] then Join(items, "\n") else NoToolsAvailable;
  }
}
