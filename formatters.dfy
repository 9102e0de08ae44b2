/**
 * The response formatters: how each client API receives a streamed chunk and a complete
 * response.  The Gemini and OpenAI formatters are stateless; the Claude formatter owns one
 * `ClaudeStreamer`, created with the formatter, whose state carries over from chunk to chunk.
 */
module Formatters {
  import opened Wrappers
  import opened Json
  import opened Strs
  import opened Gemini
  import OpenAI
  import Claude
  import OpenAIAdapter
  import ClaudeAdapter
  import ClaudeStream
  import Utils

  datatype Kind = BaseFormatter | GeminiFormatter | OpenAIFormatter | OpenAIEmbeddingFormatter | ClaudeFormatter

  // ---------------------------------------------------------------------------------------------
  // Server-sent-event frames

  /** `f"data: {payload}\n\n"`: one complete SSE event carrying a single data line. */
  function DataFrame(payload: string): string {
    "data: " + payload + "\n\n"
  }

  predicate IsDataFrame(frame: string) {
    |frame| >= 8 && StartsWith(frame, "data: ") && EndsWith(frame, "\n\n")
  }

  /** The payload a client reads back from a data frame. */
  function FramePayload(frame: string): string
    requires |frame| >= 8
  {
    frame[6..|frame| - 2]
  }

  lemma DataFrameRoundTrip(payload: string)
    ensures IsDataFrame(DataFrame(payload)) && FramePayload(DataFrame(payload)) == payload
  {
    var f := DataFrame(payload);
    assert f[..6] == "data: ";
    assert f[|f| - 2..] == "\n\n";
    assert f[6..|f| - 2] == payload;
  }

  /**
   * The serialisers the formatters call: `model_dump_json(exclude_unset=True)` of a Gemini
   * response and of an OpenAI chunk, `model_dump_json()` of a Claude event, and the JSON codec.
   */
  datatype Renderers = Renderers(
    geminiJson: Response -> string,
    openAIChunkJson: OpenAI.StreamResponse -> string,
    claudeEventJson: Json -> string,
    codec: Codec)

  // ---------------------------------------------------------------------------------------------
  // Streaming: one chunk, or None at the end of the stream

  /** `GeminiFormatter.format_chunk`: nothing for the end of the stream, one data frame per chunk. */
  function GeminiChunkFrames(chunk: Option<Response>, r: Renderers): (frames: seq<string>)
    ensures chunk.None? ==> frames == []
    ensures chunk.Some? ==> |frames| == 1 && IsDataFrame(frames[0]) && FramePayload(frames[0]) == r.geminiJson(chunk.value)
  {
    if chunk.None? then []
    else
      DataFrameRoundTrip(r.geminiJson(chunk.value));
      [DataFrame(r.geminiJson(chunk.value))]
  }

  /**
   * `OpenAIFormatter.format_chunk`: nothing for the end of the stream; a chunk becomes one data
   * frame of its OpenAI translation, under the context's model and response id (KeyError if the
   * context lacks either).
   */
  function OpenAIChunkFrames(context: map<string, string>, chunk: Option<Response>, r: Renderers, now: int): (frames: Result<seq<string>, Exception>)
    ensures chunk.None? ==> frames == Ok([])
    ensures chunk.Some? ==> (frames.Ok? <==> "model" in context && "response_id" in context)
    ensures chunk.Some? && frames.Ok? ==>
      var translated := OpenAIAdapter.StreamChunkToOpenAI(chunk.value, context["model"], context["response_id"], now, r.codec);
      && |frames.value| == 1 && IsDataFrame(frames.value[0]) && FramePayload(frames.value[0]) == r.openAIChunkJson(translated)
      && translated.id == context["response_id"] && translated.model == context["model"]
  {
    if chunk.None? then Ok([])
    else if "model" !in context || "response_id" !in context then Err(KeyError)
    else
      var translated := OpenAIAdapter.StreamChunkToOpenAI(chunk.value, context["model"], context["response_id"], now, r.codec);
      DataFrameRoundTrip(r.openAIChunkJson(translated));
      Ok([DataFrame(r.openAIChunkJson(translated))])
  }

  /** A Claude formatter needs both context keys at construction. */
  predicate ClaudeContext(context: map<string, string>) {
    "response_id" in context && "model" in context
  }

  /**
   * One `format_chunk` call: the frames it yields before it returns or raises, the exception if it
   * raises, and the Claude streamer's state after it.
   */
  datatype Step = Step(frames: seq<string>, failure: Option<Exception>, state: ClaudeStream.StreamerState)

  /**
   * What `format_chunk` yields for each kind of formatter.  The base class and the embedding
   * formatter, which does not override it, raise NotImplementedError; the OpenAI formatter raises
   * KeyError on an incomplete context; the Claude formatter raises AttributeError when it must read
   * a truthy raw usage value, after the frames of the events before that read.
   */
  function FormatterStep(kind: Kind, context: map<string, string>, s: ClaudeStream.StreamerState, chunk: Option<Response>, r: Renderers, now: int)
    : (out: Step)
    requires kind == ClaudeFormatter ==> ClaudeContext(context)
    ensures kind != ClaudeFormatter ==> out.state == s
    ensures kind == BaseFormatter || kind == OpenAIEmbeddingFormatter ==> out == Step([], Some(NotImplementedError), s)
    ensures kind == GeminiFormatter ==> out.failure.None?
    ensures kind == OpenAIFormatter ==> (out.failure.Some? <==> chunk.Some? && !("model" in context && "response_id" in context))
    ensures kind == ClaudeFormatter ==>
      var step := ClaudeStream.FormatChunkSpec(s, chunk, context["response_id"], context["model"], r.codec.dumps);
      out == Step(ClaudeStream.Frames(step.events, r.claudeEventJson), step.failure, step.state)
    ensures forall k :: 0 <= k < |out.frames| ==> EndsWith(out.frames[k], "\n\n")
  {
    match kind
    case BaseFormatter => Step([], Some(NotImplementedError), s)
    case OpenAIEmbeddingFormatter => Step([], Some(NotImplementedError), s)
    case GeminiFormatter => Step(GeminiChunkFrames(chunk, r), None, s)
    case OpenAIFormatter =>
      var frames := OpenAIChunkFrames(context, chunk, r, now);
      if frames.Err? then Step([], Some(frames.error), s) else Step(frames.value, None, s)
    case ClaudeFormatter =>
      var step := ClaudeStream.FormatChunkSpec(s, chunk, context["response_id"], context["model"], r.codec.dumps);
      ClaudeFramesTerminated(step.events, r.claudeEventJson);
      Step(ClaudeStream.Frames(step.events, r.claudeEventJson), step.failure, step.state)
  }

  /** Every Claude event frame ends with the blank line that completes an SSE event. */
  lemma ClaudeFramesTerminated(es: seq<Claude.Event>, render: Json -> string)
    ensures forall k :: 0 <= k < |es| ==> EndsWith(ClaudeStream.Frames(es, render)[k], "\n\n")
  {
    forall k | 0 <= k < |es|
      ensures EndsWith(ClaudeStream.Frames(es, render)[k], "\n\n")
    {
      var f := ClaudeStream.FormatEvent(es[k], render);
      ClaudeStream.FramesAt(es, render, k);
      assert f[|f| - 2..] == "\n\n";
    }
  }

  // ---------------------------------------------------------------------------------------------
  // Complete responses

  /** What reaches `format_response`: a chat response or an embedding result. */
  datatype Upstream = ChatUpstream(response: Response) | EmbeddingUpstream(result: EmbeddingResult)

  /** The client's original request, as each route passes it. */
  datatype Original =
    | OpenAIChat(chat: OpenAI.ChatRequest)
    | OpenAIEmbedding(embedding: OpenAI.EmbeddingRequest)
    | ClaudeMessages(messages: Claude.MessagesRequest)
    | NativeRequest

  datatype Formatted =
    | Unchanged(upstream: Upstream)
    | ChatCompletion(completion: OpenAI.ChatResponse)
    | Embeddings(embeddings: OpenAI.EmbeddingResponse)
    | ClaudeMessage(message: Claude.MessageResponse)

  /** The argument types each formatter's `format_response` is declared for. */
  predicate Accepts(kind: Kind, upstream: Upstream, original: Original) {
    match kind
    case OpenAIFormatter => upstream.ChatUpstream? && original.OpenAIChat?
    case OpenAIEmbeddingFormatter => upstream.EmbeddingUpstream? && original.OpenAIEmbedding?
    case ClaudeFormatter => upstream.ChatUpstream? && original.ClaudeMessages?
    case _ => true
  }

  // ---------------------------------------------------------------------------------------------
  // The formatter object

  class Formatter {
    const kind: Kind
    const context: map<string, string>
    /** The streamer a Claude formatter owns; null for every other kind. */
    const streamer: ClaudeStream.ClaudeStreamer?

    predicate Valid() {
      if kind == ClaudeFormatter then
        && streamer != null && ClaudeContext(context)
        && streamer.responseId == context["response_id"] && streamer.model == context["model"]
      else streamer == null
    }

    /** The Claude streamer's state; the initial state stands in for formatters without one. */
    function StreamState(): ClaudeStream.StreamerState
      reads this, streamer
    {
      if streamer != null then streamer.State() else ClaudeStream.Initial
    }

    constructor(kind: Kind, context: map<string, string>)
      requires kind == ClaudeFormatter ==> ClaudeContext(context)
      ensures this.kind == kind && this.context == context && Valid()
      ensures kind == ClaudeFormatter ==> fresh(streamer)
      ensures StreamState() == ClaudeStream.Initial
    {
      this.kind := kind;
      this.context := context;
      if kind == ClaudeFormatter {
        streamer := new ClaudeStream.ClaudeStreamer(context["response_id"], context["model"]);
      } else {
        streamer := null;
      }
    }

    /** `format_chunk`, for whichever kind this formatter is: the frames it yields, then the exception it raises, if any. */
    method FormatChunk(chunk: Option<Response>, r: Renderers, now: int) returns (frames: seq<string>, failure: Option<Exception>)
      requires Valid()
      modifies streamer
      ensures Step(frames, failure, StreamState()) == FormatterStep(kind, context, old(StreamState()), chunk, r, now)
    {
      frames := [];
      failure := None;
      match kind {
        case BaseFormatter =>
          failure := Some(NotImplementedError);
        case OpenAIEmbeddingFormatter =>
          failure := Some(NotImplementedError);
        case GeminiFormatter =>
          frames := GeminiChunkFrames(chunk, r);
        case OpenAIFormatter =>
          var out := OpenAIChunkFrames(context, chunk, r, now);
          if out.Err? {
            failure := Some(out.error);
          } else {
            frames := out.value;
          }
        case ClaudeFormatter =>
          frames, failure := streamer.FormatChunk(chunk, r.codec.dumps, r.claudeEventJson);
      }
    }

    /**
     * `format_response`: the base class and the Gemini formatter hand the response back as it
     * is; the OpenAI, embedding and Claude formatters translate it for their client.
     */
    method FormatResponse(upstream: Upstream, original: Original, codec: Codec, uuidHex: string, now: int,
                          parseIso: string -> Option<int>) returns (out: Formatted)
      requires Accepts(kind, upstream, original) && Utils.IsUuidHex(uuidHex)
      ensures kind == BaseFormatter || kind == GeminiFormatter ==> out == Unchanged(upstream)
      ensures kind == OpenAIFormatter ==>
        out == ChatCompletion(OpenAIAdapter.ResponseToOpenAI(upstream.response, original.chat, codec, uuidHex, now, parseIso))
      ensures kind == OpenAIEmbeddingFormatter ==>
        && out.Embeddings? && out.embeddings.model == original.embedding.model
        && (upstream.result.BatchEmbedContentResponse? ==> |out.embeddings.data| == |upstream.result.embeddings|)
      ensures kind == ClaudeFormatter ==>
        out == ClaudeMessage(ClaudeAdapter.ResponseToClaudeSpec(upstream.response, original.messages, uuidHex))
    {
      match kind {
        case BaseFormatter =>
          out := Unchanged(upstream);
        case GeminiFormatter =>
          out := Unchanged(upstream);
        case OpenAIFormatter =>
          out := ChatCompletion(OpenAIAdapter.ResponseToOpenAI(upstream.response, original.chat, codec, uuidHex, now, parseIso));
        case OpenAIEmbeddingFormatter =>
          var e := OpenAIAdapter.ResponseToOpenAIEmbedding(upstream.result, original.embedding);
          out := Embeddings(e);
        case ClaudeFormatter =>
          var m := ClaudeAdapter.GeminiResponseToClaude(upstream.response, original.messages, uuidHex);
          out := ClaudeMessage(m);
      }
    }
  }

  /** Formatter construction: a Claude formatter reads `response_id` and `model` from its context. */
  method NewFormatter(kind: Kind, context: map<string, string>) returns (r: Result<Formatter, Exception>)
    ensures r.Err? <==> kind == ClaudeFormatter && !ClaudeContext(context)
    ensures r.Err? ==> r.error == KeyError
    ensures r.Ok? ==> fresh(r.value) && r.value.Valid() && r.value.kind == kind && r.value.context == context
    ensures r.Ok? ==> r.value.StreamState() == ClaudeStream.Initial
  {
    if kind == ClaudeFormatter && !ClaudeContext(context) {
      return Err(KeyError);
    }
    var f := new Formatter(kind, context);
    return Ok(f);
  }
}
