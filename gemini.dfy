/**
 * Gemini's wire shapes, as declared by the pydantic models of the relay: parts, contents,
 * candidates, usage counters, responses and requests.  Only the fields the core reads or writes
 * are kept.
 */
module Gemini {
  import opened Wrappers
  import opened Json

  datatype InlineData = InlineData(mimeType: string, data: string)

  datatype FunctionCall = FunctionCall(name: string, args: Object)

  datatype FunctionResponse = FunctionResponse(name: string, response: Object)

  /** `GeminiPart`; the file, code-execution and signature fields are never set or read by the core. */
  datatype Part = Part(
    text: Option<string>,
    inlineData: Option<InlineData>,
    functionCall: Option<FunctionCall>,
    functionResponse: Option<FunctionResponse>,
    thought: Option<bool>)

  function TextPart(s: string): Part {
    Part(Some(s), None, None, None, None)
  }

  function InlinePart(d: InlineData): Part {
    Part(None, Some(d), None, None, None)
  }

  function CallPart(fc: FunctionCall): Part {
    Part(None, None, Some(fc), None, None)
  }

  function ResponsePart(fr: FunctionResponse): Part {
    Part(None, None, None, Some(fr), None)
  }

  /** `part.text` read as Python truthiness: present and non-empty. */
  predicate HasText(p: Part) {
    p.text.Some? && p.text.value != ""
  }

  datatype Content = Content(role: string, parts: seq<Part>)

  datatype Candidate = Candidate(content: Content, finishReason: Option<string>, index: int)

  datatype Usage = Usage(promptTokenCount: Option<int>, candidatesTokenCount: Option<int>, totalTokenCount: Option<int>)

  /**
   * What a response's `usageMetadata` holds: counters pydantic validated, or a value assigned to
   * the field afterwards, which pydantic stores as it is because the model does not validate
   * assignments.
   */
  datatype UsageField = Validated(counts: Usage) | Raw(value: Json)

  /** A raw value that `if chunk.usageMetadata:` lets through; reading a counter off it raises AttributeError. */
  predicate UnreadableUsage(u: Option<UsageField>) {
    u.Some? && u.value.Raw? && Truthy(u.value.value)
  }

  /**
   * The counters as the adapters read them, `u.<counter>` under `if u:`: validated counters are
   * read, a falsy raw value counts as no usage, and a truthy one has no such attribute.
   */
  function ReadUsage(u: Option<UsageField>): (r: Result<Option<Usage>, Exception>)
    ensures r.Err? <==> UnreadableUsage(u)
    ensures r.Err? ==> r.error == AttributeError
    ensures r.Ok? && r.value.Some? <==> u.Some? && u.value.Validated?
    ensures r.Ok? && r.value.Some? ==> r.value.value == u.value.counts
  {
    match u
    case None => Ok(None)
    case Some(Validated(counts)) => Ok(Some(counts))
    case Some(Raw(j)) => if Truthy(j) then Err(AttributeError) else Ok(None)
  }

  /**
   * The counters of a complete response.  Complete responses come out of `model_validate`, which
   * never leaves a raw value behind, so only validated counters are read here.
   */
  function ValidatedUsage(u: Option<UsageField>): (r: Option<Usage>)
    ensures r.Some? <==> u.Some? && u.value.Validated?
    ensures r.Some? ==> r.value == u.value.counts
  {
    if u.Some? && u.value.Validated? then Some(u.value.counts) else None
  }

  /**
   * A response chunk.  Upstream responses also carry `responseId`, `modelVersion` and `createTime`;
   * the pydantic model does not declare them, the adapters read them.
   */
  datatype Response = Response(
    candidates: seq<Candidate>,
    usageMetadata: Option<UsageField>,
    responseId: Option<string>,
    modelVersion: Option<string>,
    createTime: Option<string>)

  /** The fields the pydantic `GeminiResponse` model declares; reading any other attribute raises AttributeError. */
  const ResponseModelFields: seq<string> := ["candidates", "usageMetadata"]

  function CandidatesOnly(candidates: seq<Candidate>): Response {
    Response(candidates, None, None, None, None)
  }

  datatype FunctionCallingConfig = FunctionCallingConfig(mode: Option<string>, allowedFunctionNames: Option<seq<string>>)

  datatype Request = Request(
    contents: seq<Content>,
    systemInstruction: Option<seq<Part>>,
    tools: Option<seq<Object>>,
    toolConfig: Option<FunctionCallingConfig>,
    safetySettings: Option<seq<Object>>,
    generationConfig: Option<Object>)

  /** `EmbedContentResponse` and `BatchEmbedContentResponse`: the embedding vectors, floats kept opaque. */
  datatype EmbeddingResult =
    | EmbedContentResponse(embedding: seq<Decimal>)
    | BatchEmbedContentResponse(embeddings: seq<seq<Decimal>>)

  /** pydantic's `GeminiResponse.model_validate`: None when the JSON does not fit the model. */
  type ResponseValidator = Json -> Option<Response>
}
