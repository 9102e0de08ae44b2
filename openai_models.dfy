/**
 * OpenAI's wire shapes, as declared by the relay's pydantic models: chat messages and requests,
 * tool calls, choices, stream deltas, usage and embeddings.
 */
module OpenAI {
  import opened Wrappers
  import opened Json

  datatype FunctionCall = FunctionCall(name: string, arguments: string)

  /**
   * A tool call.  The declared model has `id`, `type` and `function` only; `index` is the field a
   * streamed tool call needs, present here so the corrected stream translation can carry it.
   */
  datatype ToolCall = ToolCall(id: string, kind: string, call: FunctionCall, index: Option<int>)

  /** The `content` union of a chat message: absent, a string, or a list of part dictionaries. */
  datatype MessageContent = NoContent | TextContent(text: string) | PartsContent(parts: seq<Object>)

  datatype ChatMessage = ChatMessage(
    role: string,
    content: MessageContent,
    toolCalls: Option<seq<ToolCall>>,
    toolCallId: Option<string>)

  /** `stop`: one string or a list of them. */
  datatype Stop = StopOne(sequence: string) | StopList(sequences: seq<string>)

  /** `tool_choice`: a mode name or an object naming a function. */
  datatype ToolChoice = ChoiceName(name: string) | ChoiceObject(members: Object)

  datatype ChatRequest = ChatRequest(
    model: string,
    messages: seq<ChatMessage>,
    stream: bool,
    temperature: Option<Decimal>,
    topP: Option<Decimal>,
    maxTokens: Option<int>,
    stop: Option<Stop>,
    frequencyPenalty: Option<Decimal>,
    presencePenalty: Option<Decimal>,
    n: Option<int>,
    seed: Option<int>,
    responseFormat: Option<Object>,
    tools: Option<seq<Object>>,
    toolChoice: Option<ToolChoice>)

  datatype Choice = Choice(index: int, message: ChatMessage, finishReason: Option<string>)

  datatype Delta = Delta(content: Option<string>, toolCalls: Option<seq<ToolCall>>, role: Option<string>)

  datatype StreamChoice = StreamChoice(index: int, delta: Delta, finishReason: Option<string>)

  datatype Usage = Usage(promptTokens: int, completionTokens: int, totalTokens: int)

  datatype ChatResponse = ChatResponse(id: string, kind: string, created: int, model: string, choices: seq<Choice>, usage: Usage)

  datatype StreamResponse = StreamResponse(id: string, kind: string, created: int, model: string, choices: seq<StreamChoice>)

  /** `input` is kept as the JSON the client sent: a string or a list. */
  datatype EmbeddingRequest = EmbeddingRequest(input: Json, model: string)

  datatype EmbeddingData = EmbeddingData(kind: string, embedding: seq<Decimal>, index: int)

  datatype EmbeddingResponse = EmbeddingResponse(kind: string, data: seq<EmbeddingData>, model: string, usage: Usage)
}
