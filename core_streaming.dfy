/**
 * The current streaming pipeline: the parser that turns the upstream's server-sent-event lines
 * into Gemini response chunks, and the processor that feeds those chunks to a formatter and
 * frames the end of the stream.
 */
module CoreStreaming {
  import opened Wrappers
  import opened Json
  import opened Strs
  import opened Gemini
  import opened Formatters
  import ClaudeStream
  import Claude

  // ---------------------------------------------------------------------------------------------
  // Parsing the upstream lines

  /**
   * The decoders the parser relies on: `json.loads` (None on a decode error), pydantic's
   * `GeminiResponse.model_validate`, and the validation of a usage value when a
   * `GeminiResponse(candidates=[], usageMetadata=...)` is built (None on a validation error).
   */
  datatype Decoders = Decoders(loads: string -> Option<Json>, validate: ResponseValidator, validateUsage: Json -> Option<Option<Usage>>)

  /** Usage validated when a response is built around it. */
  function ValidatedField(u: Option<Usage>): Option<UsageField> {
    if u.Some? then Some(Validated(u.value)) else None
  }

  /**
   * A top-level `usageMetadata` fills in the inner response's only when that one has none; the
   * assignment is not validated, so the response holds the outer value as it is, whatever it is.
   */
  function CarryUsage(outer: Object, resp: Response): (r: Response)
    ensures r.candidates == resp.candidates
    ensures resp.usageMetadata.Some? || !HasKey(outer, "usageMetadata") ==> r == resp
    ensures resp.usageMetadata.None? && HasKey(outer, "usageMetadata") ==>
      r == resp.(usageMetadata := Some(Raw(Lookup(outer, "usageMetadata").value)))
  {
    if HasKey(outer, "usageMetadata") && resp.usageMetadata.None? then resp.(usageMetadata := Some(Raw(GetOrNull(outer, "usageMetadata"))))
    else resp
  }

  /**
   * The three strategies for one decoded object: the object itself as a response, else its
   * `response` member (with the usage carried over), else a usage-only chunk.  A value that
   * fails validation gives nothing; a membership test or an index on a value that does not
   * support it raises TypeError, which the parser does not catch.
   */
  function Interpret(obj: Json, d: Decoders): (r: Result<Option<Response>, Exception>)
    ensures d.validate(obj).Some? ==> r == Ok(d.validate(obj))
    ensures r.Err? ==> r.error == TypeError
  {
    match d.validate(obj)
    case Some(resp) => Ok(Some(resp))
    case None =>
      var wrapped :- PyContains(obj, "response");
      if wrapped then
        var inner :- Subscript(obj, "response");
        match d.validate(inner)
        case None => Ok(None)
        case Some(resp) => Ok(Some(CarryUsage(obj.members, resp)))
      else
        var hasUsage :- PyContains(obj, "usageMetadata");
        if !hasUsage then Ok(None)
        else
          var usage :- Subscript(obj, "usageMetadata");
          match d.validateUsage(usage)
          case None => Ok(None)
          case Some(u) => Ok(Some(Response([], ValidatedField(u), None, None, None)))
  }

  /** The payload of a line: after stripping, what follows `data:`, stripped again. */
  function LinePayload(line: string): Option<string> {
    var stripped := Strip(line);
    if line == [] || !StartsWith(stripped, "data:") then None else Some(Strip(stripped[5..]))
  }

  /** One line of `_parse_google_sse`: the chunk it yields, if any. */
  function ParseLine(line: string, d: Decoders): (r: Result<Option<Response>, Exception>)
    ensures LinePayload(line).None? ==> r == Ok(None)
    ensures LinePayload(line) == Some("") ==> r == Ok(None)
    ensures LinePayload(line).Some? && d.loads(LinePayload(line).value).None? ==> r == Ok(None)
    ensures r.Err? ==> r.error == TypeError
  {
    match LinePayload(line)
    case None => Ok(None)
    case Some(data) =>
      if data == [] then Ok(None)
      else
        match d.loads(data)
        case None => Ok(None)
        case Some(obj) => Interpret(obj, d)
  }

  /** The chunks a run of lines yields, and the exception that ended it early, if one did. */
  datatype Parsed = Parsed(chunks: seq<Response>, failure: Option<Exception>)

  /** One line's outcome in front of what the following lines give: a raised exception ends the run. */
  function Next(line: Result<Option<Response>, Exception>, rest: Parsed): (r: Parsed)
    ensures |r.chunks| <= |rest.chunks| + 1
    ensures r.failure.Some? ==> (line.Err? && r.failure.value == line.error) || (line.Ok? && r.failure == rest.failure)
  {
    match line
    case Err(e) => Parsed([], Some(e))
    case Ok(None) => rest
    case Ok(Some(resp)) => Parsed([resp] + rest.chunks, rest.failure)
  }

  function ParseLinesSpec(lines: seq<string>, d: Decoders): (r: Parsed)
    ensures |r.chunks| <= |lines|
    ensures r.failure.Some? ==> r.failure.value == TypeError
  {
    if lines == [] then Parsed([], None) else Next(ParseLine(lines[0], d), ParseLinesSpec(lines[1..], d))
  }

  /** The chunks already yielded in front of a run. */
  function After(done: seq<Response>, p: Parsed): Parsed {
    Parsed(done + p.chunks, p.failure)
  }

  lemma AfterNext(done: seq<Response>, line: Result<Option<Response>, Exception>, rest: Parsed)
    ensures After(done, Next(line, rest)) ==
      match line
      case Err(e) => Parsed(done, Some(e))
      case Ok(None) => After(done, rest)
      case Ok(Some(resp)) => After(done + [resp], rest)
  {
    if line.Ok? && line.value.Some? {
      assert done + ([line.value.value] + rest.chunks) == (done + [line.value.value]) + rest.chunks;
    }
    if line.Err? {
      assert done + [] == done;
    }
  }

  lemma ParseLinesStep(lines: seq<string>, i: nat, d: Decoders)
    requires i < |lines|
    ensures ParseLinesSpec(lines[i..], d) == Next(ParseLine(lines[i], d), ParseLinesSpec(lines[i + 1..], d))
  {
    assert lines[i..][0] == lines[i];
    assert lines[i..][1..] == lines[i + 1..];
  }

  /** `_parse_google_sse`: the line loop, giving what it yields and what it raises. */
  method ParseGoogleSse(lines: seq<string>, d: Decoders) returns (r: Parsed)
    ensures r == ParseLinesSpec(lines, d)
  {
    var chunks: seq<Response> := [];
    assert lines[0..] == lines;
    assert After([], ParseLinesSpec(lines, d)) == ParseLinesSpec(lines, d);
    for i := 0 to |lines|
      invariant ParseLinesSpec(lines, d) == After(chunks, ParseLinesSpec(lines[i..], d))
    {
      var line := ParseLine(lines[i], d);
      ParseLinesStep(lines, i, d);
      AfterNext(chunks, line, ParseLinesSpec(lines[i + 1..], d));
      if line.Err? {
        return Parsed(chunks, Some(line.error));
      }
      if line.value.Some? {
        chunks := chunks + [line.value.value];
      }
    }
    assert lines[|lines|..] == [];
    assert chunks + [] == chunks;
    return Parsed(chunks, None);
  }

  /** Lines that are blank, lack the `data:` prefix or carry an empty payload yield nothing and raise nothing. */
  lemma {:induction false} IgnoredLinesYieldNothing(lines: seq<string>, d: Decoders)
    requires forall k :: 0 <= k < |lines| ==> LinePayload(lines[k]).None? || LinePayload(lines[k]) == Some("")
    ensures ParseLinesSpec(lines, d) == Parsed([], None)
  {
    if lines != [] {
      assert forall k :: 0 <= k < |lines[1..]| ==> lines[1..][k] == lines[k + 1];
      IgnoredLinesYieldNothing(lines[1..], d);
    }
  }

  /** Malformed JSON, and JSON that fits none of the strategies, is skipped: only TypeError escapes, never a decode or validation error. */
  lemma MalformedLineSkipped(line: string, d: Decoders)
    requires LinePayload(line).Some? && d.loads(LinePayload(line).value).None?
    ensures ParseLinesSpec([line], d) == Parsed([], None)
  {
    var lines := [line];
    assert lines[0] == line && lines[1..] == [];
    var rest := ParseLinesSpec(lines[1..], d);
    assert rest == Parsed([], None);
    assert ParseLinesSpec(lines, d) == Next(ParseLine(line, d), rest);
  }

  /** The wrapped form: the `response` member, with the outer usage filling in a missing one. */
  lemma WrappedResponseCarriesUsage(outer: Object, inner: Response, d: Decoders)
    requires d.validate(JObj(outer)).None? && HasKey(outer, "response") && d.validate(Lookup(outer, "response").value) == Some(inner)
    requires inner.usageMetadata.None? && HasKey(outer, "usageMetadata")
    ensures Interpret(JObj(outer), d) == Ok(Some(inner.(usageMetadata := Some(Raw(Lookup(outer, "usageMetadata").value)))))
  {
  }

  /** An object that is neither a response nor wrapped but has usage gives a chunk with no candidates. */
  lemma UsageOnlyChunk(outer: Object, u: Option<Usage>, d: Decoders)
    requires d.validate(JObj(outer)).None? && !HasKey(outer, "response") && HasKey(outer, "usageMetadata")
    requires d.validateUsage(Lookup(outer, "usageMetadata").value) == Some(u)
    ensures Interpret(JObj(outer), d) == Ok(Some(Response([], ValidatedField(u), None, None, None)))
  {
  }

  // ---------------------------------------------------------------------------------------------
  // The processor

  const ErrorPrefix: string := "An unexpected error occurred during streaming: "
  const DoneFrame: string := "data: [DONE]"

  /** The error frame's JSON: `{"error": {"message": ...}}`, `describe` being Python's `str` of the exception. */
  function ErrorPayload(e: Exception, describe: Exception -> string): Json {
    JObj([Member("error", JObj([Member("message", JStr(ErrorPrefix + describe(e)))]))])
  }

  /** What formatting a run of chunks yields, the exception that stopped it if any, and the streamer's state after it. */
  datatype Run = Run(frames: seq<string>, error: Option<Exception>, state: ClaudeStream.StreamerState)

  /** One chunk's outcome in front of the run of the chunks after it: an exception ends the run after the frames yielded before it. */
  function Continue(step: Step, rest: Run): Run {
    if step.failure.Some? then Run(step.frames, step.failure, step.state) else Run(step.frames + rest.frames, rest.error, rest.state)
  }

  function ChunksRun(kind: Kind, context: map<string, string>, s: ClaudeStream.StreamerState, chunks: seq<Response>, r: Renderers, now: int): (run: Run)
    requires kind == ClaudeFormatter ==> ClaudeContext(context)
    ensures kind != ClaudeFormatter ==> run.state == s
    ensures forall k :: 0 <= k < |run.frames| ==> EndsWith(run.frames[k], "\n\n")
    decreases chunks
  {
    if chunks == [] then Run([], None, s)
    else
      var step := FormatterStep(kind, context, s, Some(chunks[0]), r, now);
      Continue(step, ChunksRun(kind, context, step.state, chunks[1..], r, now))
  }

  lemma ChunksRunStep(kind: Kind, context: map<string, string>, s: ClaudeStream.StreamerState, chunks: seq<Response>, i: nat, r: Renderers, now: int)
    requires kind == ClaudeFormatter ==> ClaudeContext(context)
    requires i < |chunks|
    ensures var step := FormatterStep(kind, context, s, Some(chunks[i]), r, now);
      ChunksRun(kind, context, s, chunks[i..], r, now) == Continue(step, ChunksRun(kind, context, step.state, chunks[i + 1..], r, now))
  {
    assert chunks[i..][0] == chunks[i];
    assert chunks[i..][1..] == chunks[i + 1..];
  }

  /** One step of the loop over the chunks, with `done` the frames already yielded. */
  lemma ChunksRunAdvance(kind: Kind, context: map<string, string>, s: ClaudeStream.StreamerState, chunks: seq<Response>, i: nat,
                         done: seq<string>, r: Renderers, now: int)
    requires kind == ClaudeFormatter ==> ClaudeContext(context)
    requires i < |chunks|
    ensures var step := FormatterStep(kind, context, s, Some(chunks[i]), r, now);
      AfterFrames(done, ChunksRun(kind, context, s, chunks[i..], r, now)) ==
        if step.failure.Some? then Run(done + step.frames, step.failure, step.state)
        else AfterFrames(done + step.frames, ChunksRun(kind, context, step.state, chunks[i + 1..], r, now))
  {
    var step := FormatterStep(kind, context, s, Some(chunks[i]), r, now);
    ChunksRunStep(kind, context, s, chunks, i, r, now);
    AfterContinue(done, step, ChunksRun(kind, context, step.state, chunks[i + 1..], r, now));
  }

  /** The frames already yielded in front of a run. */
  function AfterFrames(done: seq<string>, run: Run): Run {
    Run(done + run.frames, run.error, run.state)
  }

  lemma AfterContinue(done: seq<string>, step: Step, rest: Run)
    ensures AfterFrames(done, Continue(step, rest)) ==
      if step.failure.Some? then Run(done + step.frames, step.failure, step.state) else AfterFrames(done + step.frames, rest)
  {
    if step.failure.None? {
      AppendAssoc(done, step.frames, rest.frames);
    }
  }

  /**
   * The frames before the trailer: every chunk's frames, then the end-of-stream flush, unless an
   * exception (from the formatter or from the upstream stream) cut the run short.
   */
  function BodyRun(kind: Kind, context: map<string, string>, s: ClaudeStream.StreamerState, chunks: seq<Response>,
                   failure: Option<Exception>, r: Renderers, now: int): (run: Run)
    requires kind == ClaudeFormatter ==> ClaudeContext(context)
    ensures forall k :: 0 <= k < |run.frames| ==> EndsWith(run.frames[k], "\n\n")
  {
    var run := ChunksRun(kind, context, s, chunks, r, now);
    if run.error.Some? then run
    else if failure.Some? then Run(run.frames, failure, run.state)
    else
      var flush := FormatterStep(kind, context, run.state, None, r, now);
      Run(run.frames + flush.frames, flush.failure, flush.state)
  }

  /**
   * `StreamProcessor.process` as written: the body, then one error frame if an exception
   * stopped it, then `data: [DONE]` for an OpenAI formatter.  Neither of the last two frames
   * ends with the blank line that completes a server-sent event.
   */
  function ProcessAsWritten(kind: Kind, context: map<string, string>, s: ClaudeStream.StreamerState, chunks: seq<Response>,
                            failure: Option<Exception>, r: Renderers, now: int, describe: Exception -> string): (out: seq<string>)
    requires kind == ClaudeFormatter ==> ClaudeContext(context)
    ensures kind == OpenAIFormatter ==> out != [] && out[|out| - 1] == DoneFrame
  {
    var body := BodyRun(kind, context, s, chunks, failure, r, now);
    body.frames
      + (if body.error.Some? then ["data: " + r.codec.dumps(ErrorPayload(body.error.value, describe))] else [])
      + (if kind == OpenAIFormatter then [DoneFrame] else [])
  }

  /** The same pipeline with the error and `[DONE]` frames completed by a blank line, as the formatters' frames are. */
  function ProcessSpec(kind: Kind, context: map<string, string>, s: ClaudeStream.StreamerState, chunks: seq<Response>,
                       failure: Option<Exception>, r: Renderers, now: int, describe: Exception -> string): (out: seq<string>)
    requires kind == ClaudeFormatter ==> ClaudeContext(context)
  {
    var body := BodyRun(kind, context, s, chunks, failure, r, now);
    body.frames
      + (if body.error.Some? then [DataFrame(r.codec.dumps(ErrorPayload(body.error.value, describe)))] else [])
      + (if kind == OpenAIFormatter then [DataFrame("[DONE]")] else [])
  }

  /** Every frame the corrected processor yields is a complete server-sent event. */
  lemma ProcessFramesTerminated(kind: Kind, context: map<string, string>, s: ClaudeStream.StreamerState, chunks: seq<Response>,
                                failure: Option<Exception>, r: Renderers, now: int, describe: Exception -> string)
    requires kind == ClaudeFormatter ==> ClaudeContext(context)
    ensures var out := ProcessSpec(kind, context, s, chunks, failure, r, now, describe);
      forall k :: 0 <= k < |out| ==> EndsWith(out[k], "\n\n")
  {
    var body := BodyRun(kind, context, s, chunks, failure, r, now);
    var error := if body.error.Some? then [DataFrame(r.codec.dumps(ErrorPayload(body.error.value, describe)))] else [];
    var done := if kind == OpenAIFormatter then [DataFrame("[DONE]")] else [];
    if body.error.Some? {
      DataFrameRoundTrip(r.codec.dumps(ErrorPayload(body.error.value, describe)));
    }
    DataFrameRoundTrip("[DONE]");
    TerminatedAppend(body.frames, error);
    TerminatedAppend(body.frames + error, done);
  }

  predicate Terminated(frames: seq<string>) {
    forall k :: 0 <= k < |frames| ==> EndsWith(frames[k], "\n\n")
  }

  lemma TerminatedAppend(a: seq<string>, b: seq<string>)
    requires Terminated(a) && Terminated(b)
    ensures Terminated(a + b)
  {
    forall k | 0 <= k < |a + b| ensures EndsWith((a + b)[k], "\n\n") {
      if k >= |a| {
        assert (a + b)[k] == b[k - |a|];
      }
    }
  }

  /**
   * As written, an OpenAI stream that fails ends with the error frame and `data: [DONE]` with no
   * line break between them: a client reads one data line, the error JSON followed by the text
   * `data: [DONE]`, and never completes that event.
   */
  lemma ErrorAndDoneRunTogether(context: map<string, string>, chunks: seq<Response>, failure: Exception, r: Renderers,
                                now: int, describe: Exception -> string)
    requires ChunksRun(OpenAIFormatter, context, ClaudeStream.Initial, chunks, r, now).error.None?
    requires '\n' !in r.codec.dumps(ErrorPayload(failure, describe))
    ensures var out := ProcessAsWritten(OpenAIFormatter, context, ClaudeStream.Initial, chunks, Some(failure), r, now, describe);
      && |out| >= 2
      && out[|out| - 2] + out[|out| - 1] == "data: " + r.codec.dumps(ErrorPayload(failure, describe)) + DoneFrame
      && '\n' !in out[|out| - 2] + out[|out| - 1]
  {
    var joined := "data: " + r.codec.dumps(ErrorPayload(failure, describe)) + DoneFrame;
    assert forall k :: 0 <= k < |joined| ==> joined[k] != '\n' by {
      var dumped := r.codec.dumps(ErrorPayload(failure, describe));
      forall k | 0 <= k < |joined| ensures joined[k] != '\n' {
        if 6 <= k < 6 + |dumped| {
          assert joined[k] == dumped[k - 6];
        }
      }
    }
  }

  /** Without an exception, the chunks' frames come first, in order, and the end-of-stream flush exactly once after them. */
  lemma CleanRunFlushesOnce(kind: Kind, context: map<string, string>, s: ClaudeStream.StreamerState, chunks: seq<Response>,
                            r: Renderers, now: int)
    requires kind == ClaudeFormatter ==> ClaudeContext(context)
    requires ChunksRun(kind, context, s, chunks, r, now).error.None?
    ensures var run := ChunksRun(kind, context, s, chunks, r, now);
      var flush := FormatterStep(kind, context, run.state, None, r, now);
      BodyRun(kind, context, s, chunks, None, r, now) == Run(run.frames + flush.frames, flush.failure, flush.state)
  {
  }

  /** An OpenAI stream always ends with the `[DONE]` frame, even after an error; no other stream carries it as its trailer. */
  lemma DoneOnlyForOpenAI(kind: Kind, context: map<string, string>, s: ClaudeStream.StreamerState, chunks: seq<Response>,
                          failure: Option<Exception>, r: Renderers, now: int, describe: Exception -> string)
    requires kind == ClaudeFormatter ==> ClaudeContext(context)
    ensures var out := ProcessSpec(kind, context, s, chunks, failure, r, now, describe);
      var body := BodyRun(kind, context, s, chunks, failure, r, now);
      && (kind == OpenAIFormatter ==> out[|out| - 1] == DataFrame("[DONE]"))
      && (kind != OpenAIFormatter ==> |out| == |body.frames| + (if body.error.Some? then 1 else 0))
      && out[..|body.frames|] == body.frames
  {
  }

  /** An embedding formatter cannot stream: its first chunk, or the flush, raises, and the client gets a single error frame. */
  lemma EmbeddingStreamIsOneError(context: map<string, string>, chunks: seq<Response>, failure: Option<Exception>,
                                  r: Renderers, now: int, describe: Exception -> string)
    ensures ProcessSpec(OpenAIEmbeddingFormatter, context, ClaudeStream.Initial, chunks, failure, r, now, describe)
      == [DataFrame(r.codec.dumps(ErrorPayload(if chunks == [] && failure.Some? then failure.value else NotImplementedError, describe)))]
  {
  }

  // ---------------------------------------------------------------------------------------------
  // The Claude stream, end to end

  function Somes(chunks: seq<Response>): (r: seq<Option<Response>>)
    ensures |r| == |chunks| && forall k :: 0 <= k < |chunks| ==> r[k] == Some(chunks[k])
  {
    if chunks == [] then [] else [Some(chunks[0])] + Somes(chunks[1..])
  }

  /**
   * A Claude formatter's frames over a run of chunks are the streamer's events over the whole run,
   * its state carrying across chunks, and the run stops at the chunk that raises.
   */
  lemma {:induction false} ClaudeChunksAreOneRun(context: map<string, string>, s: ClaudeStream.StreamerState, chunks: seq<Response>, r: Renderers, now: int)
    requires ClaudeContext(context)
    ensures var run := ChunksRun(ClaudeFormatter, context, s, chunks, r, now);
      var spec := ClaudeStream.RunSpec(s, Somes(chunks), context["response_id"], context["model"], r.codec.dumps);
      && run.error == spec.failure && run.state == spec.state && run.frames == ClaudeStream.Frames(spec.events, r.claudeEventJson)
    decreases chunks
  {
    if chunks != [] {
      var first := ClaudeStream.FormatChunkSpec(s, Some(chunks[0]), context["response_id"], context["model"], r.codec.dumps);
      assert Somes(chunks)[1..] == Somes(chunks[1..]);
      if first.failure.None? {
        ClaudeChunksAreOneRun(context, first.state, chunks[1..], r, now);
        var rest := ClaudeStream.RunSpec(first.state, Somes(chunks[1..]), context["response_id"], context["model"], r.codec.dumps);
        ClaudeStream.FramesAppend(first.events, rest.events, r.claudeEventJson);
      }
    }
  }

  /**
   * A Claude stream with no upstream exception is the streamer's run over every chunk and the
   * final flush: its frames are that run's events, then one error frame when a chunk raised.  The
   * events follow the Messages streaming protocol, up to the exception if there is one.
   */
  lemma ClaudeStreamWellFormed(context: map<string, string>, chunks: seq<Response>, r: Renderers, now: int, describe: Exception -> string)
    requires ClaudeContext(context)
    ensures var spec := ClaudeStream.RunSpec(ClaudeStream.Initial, Somes(chunks) + [None], context["response_id"], context["model"], r.codec.dumps);
      && ProcessSpec(ClaudeFormatter, context, ClaudeStream.Initial, chunks, None, r, now, describe) ==
           ClaudeStream.Frames(spec.events, r.claudeEventJson)
           + (if spec.failure.Some? then [DataFrame(r.codec.dumps(ErrorPayload(spec.failure.value, describe)))] else [])
      && ClaudeStream.Accepts(ClaudeStream.ProtocolStart, spec.events).Some?
  {
    var id := context["response_id"];
    var model := context["model"];
    ClaudeChunksAreOneRun(context, ClaudeStream.Initial, chunks, r, now);
    RunSnoc(ClaudeStream.Initial, Somes(chunks), None, id, model, r.codec.dumps);
    var run := ClaudeStream.RunSpec(ClaudeStream.Initial, Somes(chunks), id, model, r.codec.dumps);
    if run.failure.None? {
      var last := ClaudeStream.FormatChunkSpec(run.state, None, id, model, r.codec.dumps);
      ClaudeStream.FramesAppend(run.events, last.events, r.claudeEventJson);
    }
    ClaudeStream.StreamIsWellFormed(Somes(chunks) + [None], id, model, r.codec.dumps);
  }

  /** A run over one more chunk is the run followed by that chunk's step, unless the run raised. */
  lemma {:induction false} RunSnoc(s: ClaudeStream.StreamerState, chunks: seq<Option<Response>>, last: Option<Response>,
                                   responseId: string, model: string, dumps: Json -> string)
    ensures var run := ClaudeStream.RunSpec(s, chunks, responseId, model, dumps);
      ClaudeStream.RunSpec(s, chunks + [last], responseId, model, dumps) ==
        ClaudeStream.AndThen(run, ClaudeStream.FormatChunkSpec(run.state, last, responseId, model, dumps))
    decreases chunks
  {
    if chunks == [] {
      assert [] + [last] == [last];
      assert [last][1..] == [];
      var first := ClaudeStream.FormatChunkSpec(s, last, responseId, model, dumps);
      assert first.events + [] == first.events;
      assert [] + first.events == first.events;
    } else {
      var first := ClaudeStream.FormatChunkSpec(s, chunks[0], responseId, model, dumps);
      assert (chunks + [last])[0] == chunks[0];
      assert (chunks + [last])[1..] == chunks[1..] + [last];
      if first.failure.None? {
        var rest := ClaudeStream.RunSpec(first.state, chunks[1..], responseId, model, dumps);
        var step := ClaudeStream.FormatChunkSpec(rest.state, last, responseId, model, dumps);
        RunSnoc(first.state, chunks[1..], last, responseId, model, dumps);
        AppendAssoc(first.events, rest.events, step.events);
      }
    }
  }

  /**
   * A stream whose first content chunk carries a truthy raw usage value (a wrapped chunk whose
   * outer `usageMetadata` was assigned as it is) reaches a Claude client as one error frame: the
   * streamer raises AttributeError reading the prompt count before it announces the message.
   */
  lemma RawUsageFailsClaudeStream(context: map<string, string>, chunk: Response, rest: seq<Response>, r: Renderers, now: int,
                                  describe: Exception -> string)
    requires ClaudeContext(context)
    requires chunk.candidates != [] && UnreadableUsage(chunk.usageMetadata)
    ensures ProcessSpec(ClaudeFormatter, context, ClaudeStream.Initial, [chunk] + rest, None, r, now, describe)
      == [DataFrame(r.codec.dumps(ErrorPayload(AttributeError, describe)))]
  {
    var chunks := [chunk] + rest;
    assert chunks[0] == chunk && chunks[1..] == rest;
    var first := ClaudeStream.FormatChunkSpec(ClaudeStream.Initial, Some(chunk), context["response_id"], context["model"], r.codec.dumps);
    ClaudeStream.FormatChunkRaises(ClaudeStream.Initial, Some(chunk), context["response_id"], context["model"], r.codec.dumps);
    assert first.events == [];
  }

  /** `StreamProcessor`: a formatter driven over the chunks of an upstream stream. */
  class StreamProcessor {
    const formatter: Formatter

    constructor(formatter: Formatter)
      ensures this.formatter == formatter
    {
      this.formatter := formatter;
    }

    /** `process`'s loop over the chunks: their frames in order, until the formatter raises. */
    method FormatChunks(chunks: seq<Response>, r: Renderers, now: int) returns (out: seq<string>, error: Option<Exception>)
      requires formatter.Valid()
      modifies formatter.streamer
      ensures Run(out, error, formatter.StreamState()) == ChunksRun(formatter.kind, formatter.context, old(formatter.StreamState()), chunks, r, now)
    {
      ghost var s0 := formatter.StreamState();
      var kind := formatter.kind;
      var context := formatter.context;
      out := [];
      assert chunks[0..] == chunks;
      assert AfterFrames([], ChunksRun(kind, context, s0, chunks, r, now)) == ChunksRun(kind, context, s0, chunks, r, now);
      for i := 0 to |chunks|
        invariant formatter.Valid()
        invariant ChunksRun(kind, context, s0, chunks, r, now) == AfterFrames(out, ChunksRun(kind, context, formatter.StreamState(), chunks[i..], r, now))
      {
        ChunksRunAdvance(kind, context, formatter.StreamState(), chunks, i, out, r, now);
        var frames, failure := formatter.FormatChunk(Some(chunks[i]), r, now);
        out := out + frames;
        if failure.Some? {
          return out, failure;
        }
      }
      assert chunks[|chunks|..] == [];
      assert out + [] == out;
      return out, None;
    }

    /**
     * `process`: each chunk's frames in arrival order, then the flush; an exception from the
     * formatter or the upstream (`failure`, raised after the chunks it delivered) becomes one
     * error frame; `[DONE]` closes an OpenAI stream.
     */
    method Process(chunks: seq<Response>, failure: Option<Exception>, r: Renderers, now: int, describe: Exception -> string)
      returns (out: seq<string>)
      requires formatter.Valid()
      modifies formatter.streamer
      ensures out == ProcessSpec(formatter.kind, formatter.context, old(formatter.StreamState()), chunks, failure, r, now, describe)
      ensures formatter.StreamState() == BodyRun(formatter.kind, formatter.context, old(formatter.StreamState()), chunks, failure, r, now).state
    {
      ghost var body := BodyRun(formatter.kind, formatter.context, formatter.StreamState(), chunks, failure, r, now);
      var error: Option<Exception>;
      out, error := FormatChunks(chunks, r, now);
      if error.None? && failure.Some? {
        error := failure;
      }
      if error.None? {
        var frames, flushFailure := formatter.FormatChunk(None, r, now);
        out := out + frames;
        error := flushFailure;
      }
      assert out == body.frames && error == body.error && formatter.StreamState() == body.state;
      if error.Some? {
        out := out + [DataFrame(r.codec.dumps(ErrorPayload(error.value, describe)))];
      }
      if formatter.kind == OpenAIFormatter {
        out := out + [DataFrame("[DONE]")];
      }
    }
  }
}
