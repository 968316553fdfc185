/**
 * The client's tool factory (chat_app_mcp.py, `create_dynamic_tool`): a remote
 * tool's JSON-Schema `{properties, required}` becomes an ordered list of typed
 * argument fields, and the proxy's call path turns the remote result's content
 * parts into one string.
 */
module ToolSchema {
  import opened Wrappers
  import opened Text

  /** The Python types a JSON-Schema type tag is mapped to. */
  datatype PyType = Str | Int | Float | Bool

  /** One entry of a schema's `properties` object: its key, `type` and `description`. */
  datatype PropertySchema = PropertySchema(name: string, typeTag: Option<string>, description: Option<string>)

  predicate DistinctNames(props: seq<PropertySchema>) {
    forall i, j :: 0 <= i < j < |props| ==> props[i].name != props[j].name
  }

  /** The entries of a JSON object in iteration order; an object's keys are distinct. */
  type Properties = props: seq<PropertySchema> | DistinctNames(props) witness []

  /** A tool's `inputSchema`; either key may be absent. */
  datatype InputSchema = InputSchema(properties: Option<Properties>, required: Option<set<string>>)

  /** A tool discovered without any `inputSchema` is translated as `{}`. */
  const EmptySchema := InputSchema(None, None)

  /** Pydantic's `...` (the field must be supplied) versus a `None` default. */
  datatype FieldDefault = RequiredField | NoneDefault

  datatype ArgField = ArgField(name: string, pyType: PyType, default: FieldDefault, description: string)

  /** The generated Pydantic args model: its class name and its fields in order. */
  datatype ArgsModel = ArgsModel(modelName: string, fields: seq<ArgField>)

  /** The LangChain tool the client builds; its callable is `CallMcpTool` below. */
  datatype StructuredTool = StructuredTool(name: string, description: string, argsSchema: Option<ArgsModel>)

  function PropertiesOf(schema: InputSchema): Properties {
    schema.properties.GetOr([])
  }

  function RequiredOf(schema: InputSchema): set<string> {
    schema.required.GetOr({})
  }

  /** The type map with its `str` fallback; a missing tag counts as `"string"`. */
  function PythonType(tag: Option<string>): (t: PyType)
    ensures t == Int <==> tag == Some("integer")
    ensures t == Float <==> tag == Some("number")
    ensures t == Bool <==> tag == Some("boolean")
    ensures t == Str <==> tag !in {Some("integer"), Some("number"), Some("boolean")}
  {
    var key := tag.GetOr("string");
    if key == "string" then Str
    else if key == "integer" then Int
    else if key == "number" then Float
    else if key == "boolean" then Bool
    else Str
  }

  /**
   * `fields` is the translation of `props`: the same keys in the same order,
   * each typed by the type map, required exactly when listed in `required`,
   * with an empty description when the schema gives none.
   */
  ghost predicate Translates(props: seq<PropertySchema>, required: set<string>, fields: seq<ArgField>) {
    && |fields| == |props|
    && (forall i :: 0 <= i < |props| ==> fields[i].name == props[i].name)
    && (forall i :: 0 <= i < |props| ==> (fields[i].default == RequiredField <==> props[i].name in required))
    && (forall i :: 0 <= i < |props| ==> fields[i].pyType == PythonType(props[i].typeTag))
    && (forall i :: 0 <= i < |props| ==> fields[i].description == props[i].description.GetOr(""))
  }

  /** The loop that fills `fields`, one entry per property. */
  method TranslateProperties(props: Properties, required: set<string>) returns (fields: seq<ArgField>)
    ensures Translates(props, required, fields)
  {
    fields := [];
    var i := 0;
    while i < |props|
      invariant 0 <= i <= |props|
      invariant Translates(props[..i], required, fields)
    {
      var prop := props[i];
      var default := if prop.name in required then RequiredField else NoneDefault;
      fields := fields + [ArgField(prop.name, PythonType(prop.typeTag), default, prop.description.GetOr(""))];
      i := i + 1;
    }
    assert props[..i] == props;
  }

  /**
   * `create_dynamic_tool`: a tool with the given name and description whose args
   * model is absent exactly when the schema has no properties.
   */
  method CreateDynamicTool(toolName: string, toolDescription: string, schema: InputSchema)
    returns (tool: StructuredTool)
    ensures tool.name == toolName && tool.description == toolDescription
    ensures tool.argsSchema.None? <==> PropertiesOf(schema) == []
    ensures tool.argsSchema.Some? ==>
      && tool.argsSchema.value.modelName == toolName + "Args"
      && Translates(PropertiesOf(schema), RequiredOf(schema), tool.argsSchema.value.fields)
  {
    var fields := TranslateProperties(PropertiesOf(schema), RequiredOf(schema));
    var argsModel := if fields != [] then Some(ArgsModel(toolName + "Args", fields)) else None;
    tool := StructuredTool(toolName, toolDescription, argsModel);
  }

  /** A content part of a tool result; only text parts carry a `text` attribute. */
  datatype ContentPart = TextContent(text: string) | OtherContent(kind: string)

  const NoTextResult := "No text result"
  const NoResultReturned := "No result returned"
  const SessionNotInitialized := "Error: MCP session not initialized"

  /** The `text` of every text-bearing part, as the extraction loop collects them. */
  function TextsOf(content: seq<ContentPart>): seq<string> {
    if content == [] then []
    else
      var last := content[|content| - 1];
      TextsOf(content[..|content| - 1]) + (if last.TextContent? then [last.text] else [])
  }

  /** Extraction distributes over concatenation, so it keeps the parts' order. */
  lemma {:induction false} TextsOfAppend(a: seq<ContentPart>, b: seq<ContentPart>)
    ensures TextsOf(a + b) == TextsOf(a) + TextsOf(b)
    decreases |b|
  {
    if b != [] {
      var b' := b[..|b| - 1];
      assert (a + b)[..|a + b| - 1] == a + b';
      TextsOfAppend(a, b');
    } else {
      assert a + b == a;
    }
  }

  /**
   * Extraction keeps at most one string per part, finds nothing exactly when no
   * part carries text, and keeps every text when all parts do.
   */
  lemma {:induction false} TextsOfSpec(content: seq<ContentPart>)
    ensures |TextsOf(content)| <= |content|
    ensures TextsOf(content) == [] <==> forall i :: 0 <= i < |content| ==> !content[i].TextContent?
    ensures (forall i :: 0 <= i < |content| ==> content[i].TextContent?) ==>
      TextsOf(content) == seq(|content|, i requires 0 <= i < |content| => content[i].text)
  {
    if content != [] {
      var init := content[..|content| - 1];
      TextsOfSpec(init);
      if TextsOf(content) == [] {
        forall i | 0 <= i < |content| ensures !content[i].TextContent? {
          if i < |init| { assert content[i] == init[i]; }
        }
      }
    }
  }

  /** The string `_call` returns for a result with the given content parts. */
  predicate FlattensTo(content: seq<ContentPart>, s: string) {
    if content == [] then s == NoResultReturned
    else if TextsOf(content) == [] then s == NoTextResult
    else s == Join(TextsOf(content), "\n")
  }

  /**
   * `_call`: the texts of the text-bearing parts joined by newlines, with one
   * placeholder for a result without text parts and another for an empty one.
   */
  method FlattenContent(content: seq<ContentPart>) returns (s: string)
    ensures FlattensTo(content, s)
  {
    if content == [] {
      return NoResultReturned;
    }
    var texts := [];
    var i := 0;
    while i < |content|
      invariant 0 <= i <= |content|
      invariant texts == TextsOf(content[..i])
    {
      var part := content[i];
      assert content[..i + 1][..i] == content[..i];
      if part.TextContent? {
        texts := texts + [part.text];
      }
      i := i + 1;
    }
    assert content[..i] == content;
    s := if texts != [] then Join(texts, "\n") else NoTextResult;
  }

  /** The live client session, or its absence before the handshake completes. */
  datatype Session = Session(endpoint: string)

  /** An argument value the agent supplies; floating point is carried as a real. */
  datatype ArgValue = StrValue(s: string) | IntValue(i: int) | FloatValue(f: real) | BoolValue(b: bool)

  /** The `call_tool` request sent over the session. */
  datatype ToolCall = ToolCall(tool: string, arguments: map<string, ArgValue>)

  /** What a proxy call did: the request it dispatched, if any, and the text it returned. */
  datatype ProxyResult = ProxyResult(dispatched: Option<ToolCall>, text: string)

  /**
   * `call_mcp_tool`: without a session, the fixed error and no request; with one,
   * the tool's own name and the arguments verbatim are dispatched, and the remote
   * `reply` is flattened.
   */
  method CallMcpTool(tool: StructuredTool, session: Option<Session>, kwargs: map<string, ArgValue>,
                     reply: seq<ContentPart>)
    returns (r: ProxyResult)
    ensures session.None? ==> r == ProxyResult(None, SessionNotInitialized)
    ensures session.Some? ==> r.dispatched == Some(ToolCall(tool.name, kwargs)) && FlattensTo(reply, r.text)
  {
    if session.None? {
      return ProxyResult(None, SessionNotInitialized);
    }
    var text := FlattenContent(reply);
    r := ProxyResult(Some(ToolCall(tool.name, kwargs)), text);
  }

  /** The joined text loses nothing when no text contains a newline. */
  lemma JoinedTextsRecoverable(content: seq<ContentPart>)
    requires TextsOf(content) != []
    requires forall i :: 0 <= i < |TextsOf(content)| ==> '\n' !in TextsOf(content)[i]
    ensures Split(Join(TextsOf(content), "\n"), '\n') == TextsOf(content)
  {
    JoinThenSplit(TextsOf(content), '\n');
  }
}
