/**
 * The Anthropic Messages shapes the relay accepts and produces, as its pydantic models declare
 * them: the request, the response message with its content blocks, and the streaming events.
 */
module Claude {
  import opened Wrappers
  import opened Json

  /** A message's `content`: a plain string or a list of content-block dicts. */
  datatype MessageContent = StrContent(text: string) | BlockContent(blocks: seq<Object>)

  datatype Message = Message(role: string, content: MessageContent)

  /**
   * `ClaudeMessagesRequest`.  `system` is kept as the JSON the client sent (absent is `JNull`, a
   * string, or a list of blocks).
   */
  datatype MessagesRequest = MessagesRequest(
    id: Option<string>,
    model: string,
    messages: seq<Message>,
    system: Json,
    maxTokens: Option<int>,
    stopSequences: Option<seq<string>>,
    stream: bool,
    temperature: Option<Decimal>,
    topP: Option<Decimal>,
    topK: Option<int>,
    tools: Option<seq<Object>>,
    toolChoice: Option<Object>,
    responseFormat: Option<Object>)

  datatype Usage = Usage(inputTokens: int, outputTokens: int)

  /** `ClaudeContentBlock`; `kind` is its `type` field. */
  datatype ContentBlock = ContentBlock(kind: string, text: Option<string>, id: Option<string>, name: Option<string>, input: Option<Object>)

  function TextBlock(text: string): ContentBlock {
    ContentBlock("text", Some(text), None, None, None)
  }

  function ToolUseBlock(name: string, input: Object): ContentBlock {
    ContentBlock("tool_use", None, Some(name), Some(name), Some(input))
  }

  /** `ClaudeMessageResponse`; its `type` is always "message", its `role` always "assistant", its `stop_sequence` always None. */
  datatype MessageResponse = MessageResponse(id: string, content: seq<ContentBlock>, model: string, stopReason: Option<string>, usage: Usage)

  /** `ClaudeTextDelta` and `ClaudeInputJsonDelta`. */
  datatype Delta = TextDelta(text: string) | InputJsonDelta(partialJson: string)

  /** The streaming event models, one constructor per event type. */
  datatype Event =
    | MessageStart(message: MessageResponse)
    | ContentBlockStart(index: int, block: ContentBlock)
    | ContentBlockDelta(index: int, delta: Delta)
    | ContentBlockStop(index: int)
    | MessageDelta(stopReason: string, outputTokens: int)
    | MessageStop

  /** The `type` literal of each event model, which is also the SSE event name. */
  function EventName(e: Event): string {
    match e
    case MessageStart(_) => "message_start"
    case ContentBlockStart(_, _) => "content_block_start"
    case ContentBlockDelta(_, _) => "content_block_delta"
    case ContentBlockStop(_) => "content_block_stop"
    case MessageDelta(_, _) => "message_delta"
    case MessageStop => "message_stop"
  }

  /** The block type a delta belongs to. */
  function DeltaKind(d: Delta): string {
    if d.TextDelta? then "text" else "tool_use"
  }

  function UsageJson(u: Usage): Json {
    JObj([Member("input_tokens", JInt(u.inputTokens)), Member("output_tokens", JInt(u.outputTokens))])
  }

  /** `model_dump()` of a content block: every declared field, None included. */
  function BlockJson(b: ContentBlock): Json {
    JObj([Member("type", JStr(b.kind)), Member("text", OptStr(b.text)), Member("id", OptStr(b.id)),
          Member("name", OptStr(b.name)), Member("input", if b.input.Some? then JObj(b.input.value) else JNull)])
  }

  function BlocksJson(bs: seq<ContentBlock>): seq<Json> {
    if bs == [] then [] else [BlockJson(bs[0])] + BlocksJson(bs[1..])
  }

  function MessageJson(m: MessageResponse): Json {
    JObj([Member("id", JStr(m.id)), Member("type", JStr("message")), Member("role", JStr("assistant")),
          Member("content", JArr(BlocksJson(m.content))), Member("model", JStr(m.model)),
          Member("stop_reason", OptStr(m.stopReason)), Member("stop_sequence", JNull), Member("usage", UsageJson(m.usage))])
  }

  function DeltaJson(d: Delta): Json {
    match d
    case TextDelta(t) => JObj([Member("type", JStr("text_delta")), Member("text", JStr(t))])
    case InputJsonDelta(p) => JObj([Member("type", JStr("input_json_delta")), Member("partial_json", JStr(p))])
  }

  /** `model_dump()` of an event model, fields in declaration order. */
  function EventJson(e: Event): Json {
    match e
    case MessageStart(m) => JObj([Member("type", JStr(EventName(e))), Member("message", MessageJson(m))])
    case ContentBlockStart(i, b) => JObj([Member("type", JStr(EventName(e))), Member("index", JInt(i)), Member("content_block", BlockJson(b))])
    case ContentBlockDelta(i, d) => JObj([Member("type", JStr(EventName(e))), Member("index", JInt(i)), Member("delta", DeltaJson(d))])
    case ContentBlockStop(i) => JObj([Member("type", JStr(EventName(e))), Member("index", JInt(i))])
    case MessageDelta(reason, tokens) =>
      JObj([Member("type", JStr(EventName(e))),
            Member("delta", JObj([Member("stop_reason", JStr(reason)), Member("stop_sequence", JNull)])),
            Member("usage", JObj([Member("output_tokens", JInt(tokens))]))])
    case MessageStop => JObj([Member("type", JStr(EventName(e)))])
  }
}
