/** The framework-side values the adapter consumes and produces: canonical
    messages, their content blocks, tool calls and results, tool definitions,
    and the call-result wrapper handed from request building to response
    parsing. Results of foreign library calls the adapter makes on these
    objects are carried as data (see each type). */
module EllTypes {
  import opened Wrappers
  import opened PyValues

  /** An image; `pngBytes` is what saving it in PNG format produces. */
  datatype Image = Image(pngBytes: seq<byte>)

  /** A structured (pydantic) value; `dumpedJson` is its `model_dump_json()`. */
  datatype ParsedValue = ParsedValue(dumpedJson: string)

  /** One content block. The adapter looks at `image`, `text` and `parsed` in
      that order; `kind` is the block's declared `type` tag ("text",
      "image", "tool_call", ...), which the tool-result check reads. */
  datatype ContentBlock = ContentBlock(
    text: Option<string>,
    image: Option<Image>,
    parsed: Option<ParsedValue>,
    kind: string)

  /** A tool call made by the assistant. `paramsJson` is
      `json.dumps(params.model_dump())`, or None when that raises TypeError. */
  datatype ToolCall = ToolCall(toolName: string, toolCallId: string, paramsJson: Option<string>)

  /** The result of running a tool: the call it answers and its content. */
  datatype ToolResult = ToolResult(toolCallId: string, result: seq<ContentBlock>)

  /** A canonical message: its role, its content blocks, and the tool calls
      and tool results it carries. */
  datatype Message = Message(
    role: string,
    content: seq<ContentBlock>,
    toolCalls: seq<ToolCall>,
    toolResults: seq<ToolResult>)

  /** A tool the model may call: its `__name__`, its `__doc__` and the JSON
      schema of its parameter model (`model_json_schema()`). */
  datatype Tool = Tool(name: string, doc: Option<string>, paramsSchema: Value)

  /** What request building hands to response parsing. */
  datatype APICallResult = APICallResult(
    response: Value,
    actualStreaming: bool,
    actualN: Value,
    finalCallParams: map<string, Value>)

  /** A content block holding only text. */
  function TextBlock(t: string): (b: ContentBlock)
    ensures b.text == Some(t) && b.image.None? && b.parsed.None? && b.kind == "text"
  {
    ContentBlock(Some(t), None, None, "text")
  }
}
