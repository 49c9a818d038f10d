/** The transcript's data types, as the provider layer sees them.  Image data, tool arguments and
    usage are carried opaquely. */
module Messages {
  import opened Wrappers

  datatype StopReason = Stop | Length | ToolUse | Error | Aborted

  datatype ToolCall = ToolCall(id: string, name: string, arguments: string, thoughtSignature: Option<string>)

  datatype Block =
    | TextBlock(text: string, textSignature: Option<string>)
    | ThinkingBlock(thinking: string, thinkingSignature: Option<string>, redacted: bool)
    | CallBlock(call: ToolCall)

  /** One piece of a user message or of a tool result. */
  datatype Part = TextPart(text: string) | ImagePart(data: string, mimeType: string)

  datatype UserContent = Plain(text: string) | Blocks(parts: seq<Part>)

  datatype Assistant = Assistant(
    content: seq<Block>, api: string, provider: string, model: string,
    stopReason: StopReason, errorMessage: Option<string>, timestamp: int)

  datatype ToolResult = ToolResult(
    toolCallId: string, toolName: string, content: seq<Part>, isError: bool,
    addedToolNames: Option<seq<string>>, timestamp: int)

  datatype Message =
    | UserMessage(user: UserContent, timestamp: int)
    | AssistantMessage(assistant: Assistant)
    | ToolResultMessage(result: ToolResult)

  /** What the conversions consult about the target model. */
  datatype Model = Model(id: string, api: string, provider: string, acceptsImages: bool)

  /** The tool calls of an assistant message, in order. */
  function CallsOf(blocks: seq<Block>): (calls: seq<ToolCall>) {
    if blocks == [] then []
    else (if blocks[0].CallBlock? then [blocks[0].call] else []) + CallsOf(blocks[1..])
  }

  lemma {:induction false} CallsOfAppend(a: seq<Block>, b: seq<Block>)
    ensures CallsOf(a + b) == CallsOf(a) + CallsOf(b)
  {
    if a == [] {
      assert a + b == b;
    } else {
      assert (a + b)[1..] == a[1..] + b && (a + b)[0] == a[0];
      CallsOfAppend(a[1..], b);
      var head: seq<ToolCall> := if a[0].CallBlock? then [a[0].call] else [];
      assert head + (CallsOf(a[1..]) + CallsOf(b)) == (head + CallsOf(a[1..])) + CallsOf(b);
    }
  }
}
