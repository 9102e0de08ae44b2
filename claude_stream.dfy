/**
 * `ClaudeStreamer`: turns a stream of Gemini chunks into Anthropic's server-sent events.  The
 * streamer remembers whether `message_start` went out, the index and type of the open content
 * block, and whether the stream is finished.
 *
 * The state machine is specified by `FormatChunkSpec` over `StreamerState`; the class's methods
 * are proved to follow it.  Independently, `Protocol` is the event grammar of the Messages
 * streaming API (one `message_start` first, content blocks opened, filled and closed one at a time
 * with consecutive indices, then `message_delta` and `message_stop`), and every run of the
 * streamer is proved to be accepted by it.
 */
module ClaudeStream {
  import opened Wrappers
  import opened Json
  import opened Gemini
  import Claude
  import ClaudeAdapter

  // ---------------------------------------------------------------------------------------------
  // Frames

  /** `_format_event`: the SSE frame of one event, its data rendered by `model_dump_json`. */
  function FormatEvent(e: Claude.Event, render: Json -> string): string {
    "event: " + Claude.EventName(e) + "\ndata: " + render(Claude.EventJson(e)) + "\n\n"
  }

  /** The frames of a sequence of events, in order. */
  function Frames(es: seq<Claude.Event>, render: Json -> string): (r: seq<string>)
    ensures |r| == |es|
  {
    if es == [] then [] else [FormatEvent(es[0], render)] + Frames(es[1..], render)
  }

  /** The frame at each position is that event's frame. */
  lemma {:induction false} FramesAt(es: seq<Claude.Event>, render: Json -> string, k: nat)
    requires k < |es|
    ensures Frames(es, render)[k] == FormatEvent(es[k], render)
  {
    if k > 0 {
      FramesAt(es[1..], render, k - 1);
    }
  }

  /** Framing distributes over concatenation. */
  lemma {:induction false} FramesAppend(a: seq<Claude.Event>, b: seq<Claude.Event>, render: Json -> string)
    ensures Frames(a + b, render) == Frames(a, render) + Frames(b, render)
  {
    if a == [] {
      assert a + b == b;
    } else {
      var head := [FormatEvent(a[0], render)];
      assert (a + b)[0] == a[0];
      assert (a + b)[1..] == a[1..] + b;
      calc {
        Frames(a + b, render);
        head + Frames(a[1..] + b, render);
        { FramesAppend(a[1..], b, render); }
        head + (Frames(a[1..], render) + Frames(b, render));
        (head + Frames(a[1..], render)) + Frames(b, render);
      }
    }
  }

  /** Each frame names its event, and the event's payload carries that same name as its `type`. */
  lemma FrameNamesEvent(e: Claude.Event, render: Json -> string)
    ensures var name := Claude.EventName(e);
      && FormatEvent(e, render)[..7 + |name| + 1] == "event: " + name + "\n"
      && Claude.EventJson(e).JObj? && Lookup(Claude.EventJson(e).members, "type") == Some(JStr(name))
  {
    var name := Claude.EventName(e);
    assert FormatEvent(e, render) == ("event: " + name + "\n") + ("data: " + render(Claude.EventJson(e)) + "\n\n");
  }

  // ---------------------------------------------------------------------------------------------
  // The state machine

  datatype StreamerState = StreamerState(isFinished: bool, contentBlockIndex: nat, lastBlockType: Option<string>, messageStarted: bool)

  const Initial: StreamerState := StreamerState(false, 0, None, false)

  /** The events a step emits and the state it leaves. */
  datatype Emitted = Emitted(state: StreamerState, events: seq<Claude.Event>)

  /** Emit `more` after what `first` emitted. */
  function Then(first: Emitted, more: Emitted): Emitted {
    Emitted(more.state, first.events + more.events)
  }

  /**
   * A step that may raise: the events it yielded before returning or raising, the state it left,
   * and the exception, if one cut it short.
   */
  datatype Stepped = Stepped(state: StreamerState, events: seq<Claude.Event>, failure: Option<Exception>)

  function Completed(e: Emitted): Stepped {
    Stepped(e.state, e.events, None)
  }

  /** `more` after `first`, unless `first` raised. */
  function AndThen(first: Stepped, more: Stepped): Stepped {
    if first.failure.Some? then first else Stepped(more.state, first.events + more.events, more.failure)
  }

  /** `chunk.usageMetadata` read under `if chunk and chunk.usageMetadata`. */
  function ChunkUsage(chunk: Option<Response>): Result<Option<Usage>, Exception> {
    if chunk.None? then Ok(None) else ReadUsage(chunk.value.usageMetadata)
  }

  /** The prompt token count of a chunk, 0 when it has none; AttributeError when its usage is a truthy raw value. */
  function InputTokens(chunk: Option<Response>): (r: Result<int, Exception>)
    ensures r.Err? <==> chunk.Some? && UnreadableUsage(chunk.value.usageMetadata)
    ensures r.Err? ==> r.error == AttributeError
    ensures r.Ok? && r.value != 0 ==>
      chunk.Some? && chunk.value.usageMetadata.Some? && chunk.value.usageMetadata.value.Validated?
      && chunk.value.usageMetadata.value.counts.promptTokenCount == Some(r.value)
  {
    match ChunkUsage(chunk)
    case Err(e) => Err(e)
    case Ok(None) => Ok(0)
    case Ok(Some(u)) => Ok(u.promptTokenCount.GetOr(0))
  }

  /**
   * `_ensure_message_started`: the first call marks the message started and announces an empty
   * assistant message, later calls emit nothing.  The flag is set before the token count is read,
   * so a call that raises still leaves the message marked as started.
   */
  function EnsureStarted(s: StreamerState, chunk: Option<Response>, responseId: string, model: string): (r: Stepped)
    ensures r.state == s.(messageStarted := true)
    ensures s.messageStarted ==> r.events == [] && r.failure.None?
    ensures r.failure.Some? <==> !s.messageStarted && InputTokens(chunk).Err?
    ensures r.failure.Some? ==> r.events == [] && r.failure == Some(InputTokens(chunk).error)
    ensures !s.messageStarted && r.failure.None? ==>
      r.events == [Claude.MessageStart(Claude.MessageResponse(responseId, [], model, None, Claude.Usage(InputTokens(chunk).value, 0)))]
  {
    if s.messageStarted then Stepped(s, [], None)
    else
      match InputTokens(chunk)
      case Err(e) => Stepped(s.(messageStarted := true), [], Some(e))
      case Ok(n) => Stepped(s.(messageStarted := true),
        [Claude.MessageStart(Claude.MessageResponse(responseId, [], model, None, Claude.Usage(n, 0)))], None)
  }

  /** The block a part belongs to: its type, the block that opens it, and the delta that carries the part. */
  datatype PartBlock = PartBlock(kind: string, start: Claude.ContentBlock, delta: Claude.Delta)

  /** Text first, else a function call (its arguments JSON-encoded by `dumps`), else nothing. */
  function BlockOf(p: Part, dumps: Json -> string): (r: Option<PartBlock>)
    ensures r.Some? ==> r.value.start.kind == r.value.kind == Claude.DeltaKind(r.value.delta)
    ensures r.Some? ==> r.value.kind in {"text", "tool_use"}
    ensures r.None? <==> !HasText(p) && p.functionCall.None?
  {
    if HasText(p) then Some(PartBlock("text", Claude.ContentBlock("text", Some(""), None, None, None), Claude.TextDelta(p.text.value)))
    else if p.functionCall.Some? then
      var fc := p.functionCall.value;
      Some(PartBlock("tool_use", Claude.ContentBlock("tool_use", None, Some(fc.name), Some(fc.name), Some([])),
                     Claude.InputJsonDelta(dumps(JObj(fc.args)))))
    else None
  }

  /** Close the open block when its type differs from `kind`: its stop goes out and the index moves on. */
  function CloseOther(s: StreamerState, kind: string): Emitted {
    if s.lastBlockType.Some? && s.lastBlockType.value != kind then
      Emitted(s.(contentBlockIndex := s.contentBlockIndex + 1, lastBlockType := None), [Claude.ContentBlockStop(s.contentBlockIndex)])
    else Emitted(s, [])
  }

  /** Open a block of type `kind` when none is open. */
  function OpenIfNone(s: StreamerState, kind: string, start: Claude.ContentBlock): Emitted {
    if s.lastBlockType.None? then
      Emitted(s.(lastBlockType := Some(kind)), [Claude.ContentBlockStart(s.contentBlockIndex, start)])
    else Emitted(s, [])
  }

  /** One part of a chunk: switch blocks if needed, then the part's delta on the current block. */
  function PartStep(s: StreamerState, p: Part, dumps: Json -> string): (r: Emitted)
    ensures r.state.isFinished == s.isFinished && r.state.messageStarted == s.messageStarted
  {
    match BlockOf(p, dumps)
    case None => Emitted(s, [])
    case Some(b) =>
      var closed := CloseOther(s, b.kind);
      var withBlock := Then(closed, OpenIfNone(closed.state, b.kind, b.start));
      Then(withBlock, Emitted(withBlock.state, [Claude.ContentBlockDelta(withBlock.state.contentBlockIndex, b.delta)]))
  }

  function PartsStep(s: StreamerState, parts: seq<Part>, dumps: Json -> string): (r: Emitted)
    ensures r.state.isFinished == s.isFinished && r.state.messageStarted == s.messageStarted
    decreases parts
  {
    if parts == [] then Emitted(s, [])
    else
      var first := PartStep(s, parts[0], dumps);
      Then(first, PartsStep(first.state, parts[1..], dumps))
  }

  /** The chunk has a first candidate (whose content the parts are read from). */
  predicate HasContent(chunk: Option<Response>) {
    chunk.Some? && chunk.value.candidates != []
  }

  /** The end of the stream: no chunk, or a first candidate with a finish reason. */
  predicate IsFinal(chunk: Option<Response>) {
    chunk.None? || (chunk.value.candidates != [] && chunk.value.candidates[0].finishReason.Some? && chunk.value.candidates[0].finishReason.value != "")
  }

  /** The stop reason the chunk itself gives: its first candidate's mapped finish reason, "end_turn" without one. */
  function ChunkStopReason(chunk: Option<Response>): string {
    if chunk.Some? && chunk.value.candidates != [] then ClaudeAdapter.MapFinishReason(chunk.value.candidates[0].finishReason) else "end_turn"
  }

  /** The candidates token count of a chunk, 0 when it has none; AttributeError when its usage is a truthy raw value. */
  function OutputTokens(chunk: Option<Response>): (r: Result<int, Exception>)
    ensures r.Err? <==> chunk.Some? && UnreadableUsage(chunk.value.usageMetadata)
    ensures r.Err? ==> r.error == AttributeError
    ensures r.Ok? && r.value != 0 ==>
      chunk.Some? && chunk.value.usageMetadata.Some? && chunk.value.usageMetadata.value.Validated?
      && chunk.value.usageMetadata.value.counts.candidatesTokenCount == Some(r.value)
  {
    match ChunkUsage(chunk)
    case Err(e) => Err(e)
    case Ok(None) => Ok(0)
    case Ok(Some(u)) => Ok(u.candidatesTokenCount.GetOr(0))
  }

  /** The stop reason sent: "tool_use" while a tool block is open, the chunk's own reason otherwise. */
  function StopReason(s: StreamerState, chunk: Option<Response>): string {
    if s.lastBlockType == Some("tool_use") then "tool_use" else ChunkStopReason(chunk)
  }

  /**
   * The end of the stream: finished, started if need be, the output count read, then the open
   * block closed and the message delta and stop.
   */
  function FinishStep(s: StreamerState, chunk: Option<Response>, responseId: string, model: string): Stepped {
    var started := EnsureStarted(s.(isFinished := true), chunk, responseId, model);
    var close := if s.lastBlockType.Some? then [Claude.ContentBlockStop(s.contentBlockIndex)] else [];
    match OutputTokens(chunk)
    case Err(e) => AndThen(started, Stepped(started.state, [], Some(e)))
    case Ok(n) => AndThen(started, Stepped(started.state, close + [Claude.MessageDelta(StopReason(s, chunk), n), Claude.MessageStop], None))
  }

  /** The content of a chunk: message started, then the first candidate's parts. */
  function ContentStep(s: StreamerState, chunk: Option<Response>, responseId: string, model: string, dumps: Json -> string): Stepped {
    if HasContent(chunk) then
      var started := EnsureStarted(s, chunk, responseId, model);
      AndThen(started, Completed(PartsStep(started.state, chunk.value.candidates[0].content.parts, dumps)))
    else Stepped(s, [], None)
  }

  /** `format_chunk`: nothing once finished; otherwise the content, then the end of the stream if this chunk is final. */
  function FormatChunkSpec(s: StreamerState, chunk: Option<Response>, responseId: string, model: string, dumps: Json -> string): Stepped {
    if s.isFinished then Stepped(s, [], None)
    else
      var content := ContentStep(s, chunk, responseId, model, dumps);
      if IsFinal(chunk) then AndThen(content, FinishStep(content.state, chunk, responseId, model)) else content
  }

  /** A whole stream: the chunks in order, `None` standing for the end-of-stream call, up to the first exception. */
  function RunSpec(s: StreamerState, chunks: seq<Option<Response>>, responseId: string, model: string, dumps: Json -> string): Stepped
    decreases chunks
  {
    if chunks == [] then Stepped(s, [], None)
    else
      var first := FormatChunkSpec(s, chunks[0], responseId, model, dumps);
      AndThen(first, RunSpec(first.state, chunks[1..], responseId, model, dumps))
  }

  // ---------------------------------------------------------------------------------------------
  // The streamer

  class ClaudeStreamer {
    const responseId: string
    const model: string
    var isFinished: bool
    var contentBlockIndex: nat
    var lastBlockType: Option<string>
    var messageStarted: bool

    function State(): StreamerState
      reads this
    {
      StreamerState(isFinished, contentBlockIndex, lastBlockType, messageStarted)
    }

    constructor(responseId: string, model: string)
      ensures this.responseId == responseId && this.model == model
      ensures State() == Initial
    {
      this.responseId := responseId;
      this.model := model;
      isFinished := false;
      contentBlockIndex := 0;
      lastBlockType := None;
      messageStarted := false;
    }

    /** `_ensure_message_started`, giving the events it yields and the exception it raises, if any. */
    method EnsureMessageStarted(chunk: Option<Response>) returns (events: seq<Claude.Event>, failure: Option<Exception>)
      modifies this
      ensures Stepped(State(), events, failure) == EnsureStarted(old(State()), chunk, responseId, model)
    {
      events := [];
      failure := None;
      if !messageStarted {
        messageStarted := true;
        var inputTokens := InputTokens(chunk);
        if inputTokens.Err? {
          failure := Some(inputTokens.error);
          return;
        }
        events := [Claude.MessageStart(Claude.MessageResponse(responseId, [], model, None, Claude.Usage(inputTokens.value, 0)))];
      }
    }

    /** One part, as the body of `format_chunk`'s loop, giving the events it yields. */
    method FormatPart(p: Part, dumps: Json -> string) returns (events: seq<Claude.Event>)
      modifies this
      ensures Emitted(State(), events) == PartStep(old(State()), p, dumps)
    {
      events := [];
      var block := BlockOf(p, dumps);
      if block.None? {
        return;
      }
      var b := block.value;
      if lastBlockType.Some? && lastBlockType.value != b.kind {
        events := events + [Claude.ContentBlockStop(contentBlockIndex)];
        contentBlockIndex := contentBlockIndex + 1;
        lastBlockType := None;
      }
      if lastBlockType.None? {
        events := events + [Claude.ContentBlockStart(contentBlockIndex, b.start)];
        lastBlockType := Some(b.kind);
      }
      events := events + [Claude.ContentBlockDelta(contentBlockIndex, b.delta)];
    }

    /** The parts of the first candidate, in order: `format_chunk`'s loop. */
    method FormatParts(parts: seq<Part>, dumps: Json -> string) returns (events: seq<Claude.Event>)
      modifies this
      ensures Emitted(State(), events) == PartsStep(old(State()), parts, dumps)
    {
      events := [];
      ghost var s0 := State();
      assert parts[0..] == parts;
      for i := 0 to |parts|
        invariant var rest := PartsStep(State(), parts[i..], dumps);
          PartsStep(s0, parts, dumps) == Emitted(rest.state, events + rest.events)
      {
        PartsStepAt(State(), parts, i, dumps);
        var more := FormatPart(parts[i], dumps);
        AppendAssoc(events, more, PartsStep(State(), parts[i + 1..], dumps).events);
        events := events + more;
      }
      assert parts[|parts|..] == [];
      assert events + [] == events;
    }

    /** The end of the stream: the events after the content of a final chunk, and the exception it raises, if any. */
    method Finish(chunk: Option<Response>) returns (events: seq<Claude.Event>, failure: Option<Exception>)
      modifies this
      ensures Stepped(State(), events, failure) == FinishStep(old(State()), chunk, responseId, model)
    {
      ghost var s0 := State();
      isFinished := true;
      events, failure := EnsureMessageStarted(chunk);
      if failure.Some? {
        return;
      }
      var outputTokens := 0;
      var stopReason := "end_turn";
      if chunk.Some? {
        var counts := ReadUsage(chunk.value.usageMetadata);
        if counts.Err? {
          failure := Some(counts.error);
          return;
        }
        if counts.value.Some? {
          outputTokens := counts.value.value.candidatesTokenCount.GetOr(0);
        }
        if chunk.value.candidates != [] {
          stopReason := ClaudeAdapter.MapFinishReason(chunk.value.candidates[0].finishReason);
        }
      }
      assert stopReason == ChunkStopReason(chunk) && Ok(outputTokens) == OutputTokens(chunk);
      if lastBlockType.Some? {
        if lastBlockType.value == "tool_use" {
          stopReason := "tool_use";
        }
        events := events + [Claude.ContentBlockStop(contentBlockIndex)];
      }
      events := events + [Claude.MessageDelta(stopReason, outputTokens), Claude.MessageStop];
    }

    /**
     * `format_chunk`: the frames it yields, which are its events rendered by `_format_event` in
     * order, and the exception it raises after them, if any.
     */
    method FormatChunk(chunk: Option<Response>, dumps: Json -> string, render: Json -> string)
      returns (frames: seq<string>, failure: Option<Exception>)
      modifies this
      ensures var r := FormatChunkSpec(old(State()), chunk, responseId, model, dumps);
        State() == r.state && frames == Frames(r.events, render) && failure == r.failure
    {
      var events: seq<Claude.Event> := [];
      failure := None;
      if !isFinished {
        var hasContent := chunk.Some? && chunk.value.candidates != [];
        var isFinal := chunk.None? || (chunk.value.candidates != [] && chunk.value.candidates[0].finishReason.Some?
                                       && chunk.value.candidates[0].finishReason.value != "");
        if hasContent {
          events, failure := EnsureMessageStarted(chunk);
          if failure.None? {
            var more := FormatParts(chunk.value.candidates[0].content.parts, dumps);
            events := events + more;
          }
        }
        if isFinal && failure.None? {
          var more;
          more, failure := Finish(chunk);
          events := events + more;
        }
      }
      frames := Frames(events, render);
    }
  }

  lemma PartsStepAt(s: StreamerState, parts: seq<Part>, i: nat, dumps: Json -> string)
    requires i < |parts|
    ensures PartsStep(s, parts[i..], dumps) == Then(PartStep(s, parts[i], dumps), PartsStep(PartStep(s, parts[i], dumps).state, parts[i + 1..], dumps))
  {
    assert parts[i..][0] == parts[i];
    assert parts[i..][1..] == parts[i + 1..];
  }

  // ---------------------------------------------------------------------------------------------
  // What the state machine promises

  /** Once finished, the streamer emits nothing more, whatever chunks follow. */
  lemma {:induction false} FinishedStaysSilent(s: StreamerState, chunks: seq<Option<Response>>, responseId: string, model: string, dumps: Json -> string)
    requires s.isFinished
    ensures RunSpec(s, chunks, responseId, model, dumps) == Stepped(s, [], None)
  {
    if chunks != [] {
      FinishedStaysSilent(s, chunks[1..], responseId, model, dumps);
    }
  }

  /**
   * A final chunk whose counters can be read finishes the stream, and its last two events are
   * `message_delta` then `message_stop`; the stop reason is "tool_use" when a tool block was still
   * open, the chunk's own reason otherwise.
   */
  lemma FinalChunkCloses(s: StreamerState, chunk: Option<Response>, responseId: string, model: string, dumps: Json -> string)
    requires !s.isFinished && IsFinal(chunk)
    ensures var r := FormatChunkSpec(s, chunk, responseId, model, dumps);
      && (r.failure.None? <==> OutputTokens(chunk).Ok?)
      && (r.failure.None? ==>
        && r.state.isFinished && |r.events| >= 2
        && r.events[|r.events| - 2] == Claude.MessageDelta(
             if r.state.lastBlockType == Some("tool_use") then "tool_use" else ChunkStopReason(chunk), OutputTokens(chunk).value)
        && r.events[|r.events| - 1] == Claude.MessageStop)
  {
  }

  /**
   * `format_chunk` raises exactly when it must read the counters of a chunk whose usage is a
   * truthy raw value: to announce the message on its first content chunk, or to end the message
   * on a final chunk.  The exception is AttributeError.
   */
  lemma FormatChunkRaises(s: StreamerState, chunk: Option<Response>, responseId: string, model: string, dumps: Json -> string)
    ensures var r := FormatChunkSpec(s, chunk, responseId, model, dumps);
      && (r.failure.Some? <==>
            !s.isFinished && HasContent(chunk) && UnreadableUsage(chunk.value.usageMetadata) && (!s.messageStarted || IsFinal(chunk)))
      && (r.failure.Some? ==> r.failure.value == AttributeError)
  {
  }

  /**
   * A part joins the open block when it has the same type; otherwise the open block (if any) is
   * stopped, the index moves on by exactly one, and a new block starts at that index.  The delta
   * always carries the current index.
   */
  lemma PartStepBlocks(s: StreamerState, p: Part, dumps: Json -> string)
    requires BlockOf(p, dumps).Some?
    ensures var b := BlockOf(p, dumps).value;
      var r := PartStep(s, p, dumps);
      var i := s.contentBlockIndex;
      && r.state.lastBlockType == Some(b.kind)
      && (s.lastBlockType == Some(b.kind) ==> r.events == [Claude.ContentBlockDelta(i, b.delta)] && r.state.contentBlockIndex == i)
      && (s.lastBlockType.None? ==>
            r.events == [Claude.ContentBlockStart(i, b.start), Claude.ContentBlockDelta(i, b.delta)] && r.state.contentBlockIndex == i)
      && (s.lastBlockType.Some? && s.lastBlockType != Some(b.kind) ==>
            r.events == [Claude.ContentBlockStop(i), Claude.ContentBlockStart(i + 1, b.start), Claude.ContentBlockDelta(i + 1, b.delta)]
            && r.state.contentBlockIndex == i + 1)
  {
  }

  /**
   * Two function calls in a row share one `tool_use` block: it is opened with the first call's
   * name and both calls' arguments go out as deltas on it; the second name is never sent.
   */
  lemma ConsecutiveCallsShareBlock(s: StreamerState, f1: FunctionCall, f2: FunctionCall, dumps: Json -> string)
    requires s.lastBlockType.None?
    ensures PartsStep(s, [CallPart(f1), CallPart(f2)], dumps).events == [
      Claude.ContentBlockStart(s.contentBlockIndex, Claude.ContentBlock("tool_use", None, Some(f1.name), Some(f1.name), Some([]))),
      Claude.ContentBlockDelta(s.contentBlockIndex, Claude.InputJsonDelta(dumps(JObj(f1.args)))),
      Claude.ContentBlockDelta(s.contentBlockIndex, Claude.InputJsonDelta(dumps(JObj(f2.args))))]
  {
    var parts := [CallPart(f1), CallPart(f2)];
    var first := PartStep(s, parts[0], dumps);
    PartStepBlocks(s, parts[0], dumps);
    PartStepBlocks(first.state, parts[1], dumps);
    assert parts[1..] == [CallPart(f2)];
    assert parts[1..][1..] == [];
    var second := PartStep(first.state, parts[1], dumps);
    assert PartsStep(first.state, parts[1..], dumps) == Then(second, Emitted(second.state, []));
  }

  // ---------------------------------------------------------------------------------------------
  // The event protocol

  datatype Phase = Streaming | Closing | Closed

  datatype OpenBlock = OpenBlock(index: nat, kind: string)

  /**
   * Where a client reading the stream stands: whether the message has started, the open block,
   * the index the next block must carry, and whether `message_delta` or `message_stop` went out.
   */
  datatype Protocol = Protocol(started: bool, open: Option<OpenBlock>, next: nat, phase: Phase)

  const ProtocolStart: Protocol := Protocol(false, None, 0, Streaming)

  /**
   * The events the Messages streaming API allows next: `message_start` once, before anything
   * else; a block starts only when none is open and with the next index; deltas go to the open
   * block and match its type; `message_delta` only with no block open, then `message_stop`, then
   * nothing.
   */
  function Accept(p: Protocol, e: Claude.Event): Option<Protocol> {
    match p.phase
    case Closed => None
    case Closing => if e.MessageStop? then Some(p.(phase := Closed)) else None
    case Streaming =>
      match e
      case MessageStart(_) => if p.started then None else Some(p.(started := true))
      case ContentBlockStart(i, block) =>
        if p.started && p.open.None? && i == p.next then Some(p.(open := Some(OpenBlock(p.next, block.kind)), next := p.next + 1)) else None
      case ContentBlockDelta(i, d) =>
        if p.open.Some? && p.open.value.index == i && p.open.value.kind == Claude.DeltaKind(d) then Some(p) else None
      case ContentBlockStop(i) => if p.open.Some? && p.open.value.index == i then Some(p.(open := None)) else None
      case MessageDelta(_, _) => if p.started && p.open.None? then Some(p.(phase := Closing)) else None
      case MessageStop => None
  }

  /** Where a client stands after `es`, or None when some event is out of place. */
  function Accepts(p: Protocol, es: seq<Claude.Event>): Option<Protocol>
    decreases es
  {
    if es == [] then Some(p)
    else
      var q := Accept(p, es[0]);
      if q.None? then None else Accepts(q.value, es[1..])
  }

  lemma {:induction false} AcceptsAppend(p: Protocol, a: seq<Claude.Event>, b: seq<Claude.Event>)
    ensures Accepts(p, a + b) == if Accepts(p, a).None? then None else Accepts(Accepts(p, a).value, b)
    decreases a
  {
    if a == [] {
      assert a + b == b;
    } else {
      assert (a + b)[0] == a[0];
      assert (a + b)[1..] == a[1..] + b;
      var q := Accept(p, a[0]);
      if q.Some? {
        AcceptsAppend(q.value, a[1..], b);
      }
    }
  }

  /** What a client has seen of a streamer in state `s`. */
  function Abs(s: StreamerState): Protocol {
    Protocol(s.messageStarted,
      if s.lastBlockType.Some? && !s.isFinished then Some(OpenBlock(s.contentBlockIndex, s.lastBlockType.value)) else None,
      if s.lastBlockType.Some? then s.contentBlockIndex + 1 else s.contentBlockIndex,
      if s.isFinished then Closed else Streaming)
  }

  /** A block is only open, and the stream only finished, after the message has started. */
  predicate Consistent(s: StreamerState) {
    (s.lastBlockType.Some? || s.isFinished) ==> s.messageStarted
  }

  lemma PartStepFollowsProtocol(s: StreamerState, p: Part, dumps: Json -> string)
    requires s.messageStarted && !s.isFinished
    ensures Accepts(Abs(s), PartStep(s, p, dumps).events) == Some(Abs(PartStep(s, p, dumps).state))
  {
    var block := BlockOf(p, dumps);
    if block.Some? {
      var b := block.value;
      PartStepBlocks(s, p, dumps);
      var r := PartStep(s, p, dumps);
      var i := s.contentBlockIndex;
      var delta := Claude.ContentBlockDelta(r.state.contentBlockIndex, b.delta);
      var atDelta := Abs(r.state);
      assert Accept(atDelta, delta) == Some(atDelta);
      assert Accepts(atDelta, [delta]) == Some(atDelta);
      if s.lastBlockType.None? {
        var start := Claude.ContentBlockStart(i, b.start);
        assert Accept(Abs(s), start) == Some(atDelta);
        assert r.events == [start] + [delta];
        AcceptsAppend(Abs(s), [start], [delta]);
      } else if s.lastBlockType != Some(b.kind) {
        var stop := Claude.ContentBlockStop(i);
        var start := Claude.ContentBlockStart(i + 1, b.start);
        var closed := Abs(s).(open := None);
        assert Accept(Abs(s), stop) == Some(closed);
        assert Accept(closed, start) == Some(atDelta);
        assert r.events == [stop] + ([start] + [delta]);
        AcceptsAppend(closed, [start], [delta]);
        AcceptsAppend(Abs(s), [stop], [start] + [delta]);
      }
    }
  }

  lemma {:induction false} PartsStepFollowsProtocol(s: StreamerState, parts: seq<Part>, dumps: Json -> string)
    requires s.messageStarted && !s.isFinished
    ensures Accepts(Abs(s), PartsStep(s, parts, dumps).events) == Some(Abs(PartsStep(s, parts, dumps).state))
    decreases parts
  {
    if parts != [] {
      var first := PartStep(s, parts[0], dumps);
      PartStepFollowsProtocol(s, parts[0], dumps);
      PartsStepFollowsProtocol(first.state, parts[1..], dumps);
      AcceptsAppend(Abs(s), first.events, PartsStep(first.state, parts[1..], dumps).events);
    }
  }

  /** The end of the stream is accepted; when it does not raise, it leaves a client where the state says. */
  lemma FinishStepFollowsProtocol(s: StreamerState, chunk: Option<Response>, responseId: string, model: string)
    requires Consistent(s) && !s.isFinished
    ensures var r := FinishStep(s, chunk, responseId, model);
      && Accepts(Abs(s), r.events).Some?
      && (r.failure.None? ==> Accepts(Abs(s), r.events) == Some(Abs(r.state)))
  {
    var r := FinishStep(s, chunk, responseId, model);
    var started := EnsureStarted(s.(isFinished := true), chunk, responseId, model);
    var p0 := Abs(s);
    var p1 := p0.(started := true);
    if started.failure.None? {
      assert Accepts(p0, started.events) == Some(p1);
      if OutputTokens(chunk).Err? {
        assert r.events == started.events + [];
      } else {
        var close := if s.lastBlockType.Some? then [Claude.ContentBlockStop(s.contentBlockIndex)] else [];
        var ending := [Claude.MessageDelta(StopReason(s, chunk), OutputTokens(chunk).value), Claude.MessageStop];
        assert r.events == started.events + (close + ending);
        var p2 := p1.(open := None);
        assert Accepts(p1, close) == Some(p2);
        var p3 := p2.(phase := Closing);
        assert Accept(p2, ending[0]) == Some(p3);
        assert ending[1..] == [Claude.MessageStop];
        assert Accepts(p3, ending[1..]) == Some(p3.(phase := Closed));
        assert Accepts(p2, ending) == Some(p2.(phase := Closed));
        AcceptsAppend(p1, close, ending);
        AcceptsAppend(p0, started.events, close + ending);
      }
    }
  }

  /**
   * What one chunk yields is accepted; when the chunk does not raise, a client stands where the
   * new state says.
   */
  lemma FormatChunkFollowsProtocol(s: StreamerState, chunk: Option<Response>, responseId: string, model: string, dumps: Json -> string)
    requires Consistent(s)
    ensures var r := FormatChunkSpec(s, chunk, responseId, model, dumps);
      && Accepts(Abs(s), r.events).Some?
      && (r.failure.None? ==> Accepts(Abs(s), r.events) == Some(Abs(r.state)) && Consistent(r.state))
  {
    if !s.isFinished {
      var content := ContentStep(s, chunk, responseId, model, dumps);
      if HasContent(chunk) {
        var started := EnsureStarted(s, chunk, responseId, model);
        if started.failure.None? {
          assert Accepts(Abs(s), started.events) == Some(Abs(started.state));
          PartsStepFollowsProtocol(started.state, chunk.value.candidates[0].content.parts, dumps);
          AcceptsAppend(Abs(s), started.events, PartsStep(started.state, chunk.value.candidates[0].content.parts, dumps).events);
        }
      }
      assert Accepts(Abs(s), content.events).Some?;
      assert content.failure.None? ==> Accepts(Abs(s), content.events) == Some(Abs(content.state)) && Consistent(content.state);
      if IsFinal(chunk) && content.failure.None? {
        FinishStepFollowsProtocol(content.state, chunk, responseId, model);
        AcceptsAppend(Abs(s), content.events, FinishStep(content.state, chunk, responseId, model).events);
      }
    }
  }

  /** A run's events are accepted; a run that does not raise leaves a client where the final state says. */
  lemma {:induction false} RunFollowsProtocol(s: StreamerState, chunks: seq<Option<Response>>, responseId: string, model: string, dumps: Json -> string)
    requires Consistent(s)
    ensures var r := RunSpec(s, chunks, responseId, model, dumps);
      && Accepts(Abs(s), r.events).Some?
      && (r.failure.None? ==> Accepts(Abs(s), r.events) == Some(Abs(r.state)) && Consistent(r.state))
    decreases chunks
  {
    if chunks != [] {
      var first := FormatChunkSpec(s, chunks[0], responseId, model, dumps);
      FormatChunkFollowsProtocol(s, chunks[0], responseId, model, dumps);
      if first.failure.None? {
        RunFollowsProtocol(first.state, chunks[1..], responseId, model, dumps);
        AcceptsAppend(Abs(s), first.events, RunSpec(first.state, chunks[1..], responseId, model, dumps).events);
      }
    }
  }

  /**
   * Whatever chunks arrive, a fresh streamer's events are a well-formed Messages event stream, or,
   * when a chunk raises, the beginning of one.
   */
  lemma StreamIsWellFormed(chunks: seq<Option<Response>>, responseId: string, model: string, dumps: Json -> string)
    ensures Accepts(ProtocolStart, RunSpec(Initial, chunks, responseId, model, dumps).events).Some?
  {
    RunFollowsProtocol(Initial, chunks, responseId, model, dumps);
  }

  /** After `message_start`, no accepted stream holds a second one. */
  lemma {:induction false} NoSecondStart(p: Protocol, es: seq<Claude.Event>)
    requires p.started && Accepts(p, es).Some?
    ensures forall k :: 0 <= k < |es| ==> !es[k].MessageStart?
    decreases es
  {
    if es != [] {
      NoSecondStart(Accept(p, es[0]).value, es[1..]);
      assert forall k :: 1 <= k < |es| ==> es[k] == es[1..][k - 1];
    }
  }

  /** An accepted stream opens with `message_start` and holds no other. */
  lemma MessageStartFirstAndOnce(es: seq<Claude.Event>)
    requires es != [] && Accepts(ProtocolStart, es).Some?
    ensures es[0].MessageStart?
    ensures forall k :: 1 <= k < |es| ==> !es[k].MessageStart?
  {
    NoSecondStart(Accept(ProtocolStart, es[0]).value, es[1..]);
    assert forall k :: 1 <= k < |es| ==> es[k] == es[1..][k - 1];
  }

  /** A stream that reaches the end closes with `message_delta` then `message_stop`, and nothing after. */
  lemma {:induction false} ClosedStreamEnding(p: Protocol, es: seq<Claude.Event>)
    requires p.phase == Streaming && Accepts(p, es).Some? && Accepts(p, es).value.phase == Closed
    ensures |es| >= 2 && es[|es| - 2].MessageDelta? && es[|es| - 1] == Claude.MessageStop
    decreases es
  {
    var q := Accept(p, es[0]).value;
    if q.phase == Streaming {
      ClosedStreamEnding(q, es[1..]);
    } else {
      assert es[0].MessageDelta? && q.phase == Closing;
      var q2 := Accept(q, es[1]).value;
      assert es[1] == Claude.MessageStop && q2.phase == Closed;
      assert es[1..][1..] == es[2..];
      assert Accepts(p, es) == Accepts(q2, es[2..]);
      if |es| > 2 {
        assert false;
      }
    }
  }
}
