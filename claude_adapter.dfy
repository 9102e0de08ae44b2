/**
 * The Anthropic Messages adapter: a Claude request becomes a Gemini request, and a complete
 * Gemini response becomes a Claude message.  Streaming is in module ClaudeStream.
 */
module ClaudeAdapter {
  import opened Wrappers
  import opened Json
  import opened Strs
  import opened Gemini
  import Claude
  import Utils

  // ---------------------------------------------------------------------------------------------
  // Finish reasons

  /** `_map_gemini_to_claude_finish_reason`. */
  function MapFinishReason(reason: Option<string>): (r: string)
    ensures reason.None? || reason.value == "" || reason.value == "STOP" ==> r == "end_turn"
    ensures reason == Some("MAX_TOKENS") ==> r == "max_tokens"
    ensures reason == Some("TOOL_USE") ==> r == "tool_use"
    ensures reason.Some? && reason.value !in {"", "STOP", "MAX_TOKENS", "TOOL_USE"} ==> r == "stop"
    ensures r in {"end_turn", "max_tokens", "tool_use", "stop"}
  {
    if reason.None? || reason.value == "" then "end_turn"
    else if reason.value == "STOP" then "end_turn"
    else if reason.value == "MAX_TOKENS" then "max_tokens"
    else if reason.value == "TOOL_USE" then "tool_use"
    else "stop"
  }

  // ---------------------------------------------------------------------------------------------
  // Request content

  /**
   * The Gemini part of one Claude content block.  Text becomes a text part, `tool_use` a function
   * call (arguments `input`, `{}` when absent), `tool_result` a function response carrying the
   * block's `content`; other block types give no part.  A field of the wrong type fails the part
   * model's validation.
   */
  function BlockPart(block: Object): (r: Result<Option<Part>, Exception>)
    ensures GetOrNull(block, "type") == JStr("text") && Get(block, "text", JStr("")).JStr? ==>
      r == Ok(Some(TextPart(Get(block, "text", JStr("")).s)))
    ensures GetOrNull(block, "type") == JStr("tool_use") ==>
      var name := GetOrNull(block, "name");
      var input := Get(block, "input", JObj([]));
      r == if name.JStr? && input.JObj? then Ok(Some(CallPart(FunctionCall(name.s, input.members)))) else Err(ValidationError)
    ensures GetOrNull(block, "type") == JStr("tool_result") ==>
      var id := GetOrNull(block, "tool_use_id");
      r == if id.JStr? then Ok(Some(ResponsePart(FunctionResponse(id.s, [Member("content", GetOrNull(block, "content"))])))) else Err(ValidationError)
    ensures GetOrNull(block, "type") !in {JStr("text"), JStr("tool_use"), JStr("tool_result")} ==> r == Ok(None)
  {
    var kind := GetOrNull(block, "type");
    if kind == JStr("text") then
      match Get(block, "text", JStr(""))
      case JStr(t) => Ok(Some(TextPart(t)))
      case JNull => Ok(Some(Part(None, None, None, None, None)))
      case _ => Err(ValidationError)
    else if kind == JStr("tool_use") then
      var name := GetOrNull(block, "name");
      var input := Get(block, "input", JObj([]));
      if name.JStr? && input.JObj? then Ok(Some(CallPart(FunctionCall(name.s, input.members)))) else Err(ValidationError)
    else if kind == JStr("tool_result") then
      var id := GetOrNull(block, "tool_use_id");
      if id.JStr? then Ok(Some(ResponsePart(FunctionResponse(id.s, [Member("content", GetOrNull(block, "content"))]))))
      else Err(ValidationError)
    else Ok(None)
  }

  function BlocksPartsSpec(blocks: seq<Object>): (r: Result<seq<Part>, Exception>)
    ensures r.Ok? ==> |r.value| <= |blocks|
  {
    if blocks == [] then Ok([]) else Prepend(BlockPart(blocks[0]), BlocksPartsSpec(blocks[1..]))
  }

  /** `_transform_claude_content`: a string is one text part; a block list gives one part per recognised block. */
  function ContentPartsSpec(content: Claude.MessageContent): (r: Result<seq<Part>, Exception>)
    ensures content.StrContent? ==> r == Ok([TextPart(content.text)])
  {
    match content
    case StrContent(s) => Ok([TextPart(s)])
    case BlockContent(blocks) => BlocksPartsSpec(blocks)
  }

  lemma BlocksStep(blocks: seq<Object>, i: nat)
    requires i < |blocks|
    ensures BlocksPartsSpec(blocks[i..]) == Prepend(BlockPart(blocks[i]), BlocksPartsSpec(blocks[i + 1..]))
  {
    assert blocks[i..][0] == blocks[i];
    assert blocks[i..][1..] == blocks[i + 1..];
  }

  /** `_transform_claude_content` as the loop it is. */
  method TransformClaudeContent(content: Claude.MessageContent) returns (r: Result<seq<Part>, Exception>)
    ensures r == ContentPartsSpec(content)
  {
    if content.StrContent? {
      return Ok([TextPart(content.text)]);
    }
    var blocks := content.blocks;
    var parts: seq<Part> := [];
    assert blocks[0..] == blocks;
    var spec := BlocksPartsSpec(blocks);
    if spec.Ok? {
      assert [] + spec.value == spec.value;
    }
    var i := 0;
    while i < |blocks|
      invariant 0 <= i <= |blocks|
      invariant BlocksPartsSpec(blocks) == AfterDone(parts, BlocksPartsSpec(blocks[i..]))
    {
      var part := BlockPart(blocks[i]);
      BlocksStep(blocks, i);
      AfterPrepend(parts, part, BlocksPartsSpec(blocks[i + 1..]));
      if part.Err? {
        return Err(part.error);
      }
      if part.value.Some? {
        parts := parts + [part.value.value];
      } else {
        assert parts + [] == parts;
      }
      i := i + 1;
    }
    assert blocks[i..] == [];
    assert parts + [] == parts;
    return Ok(parts);
  }

  /** Text blocks carrying strings map one to one, in order, onto text parts. */
  lemma {:induction false} TextBlocksOneToOne(blocks: seq<Object>)
    requires forall k :: 0 <= k < |blocks| ==> GetOrNull(blocks[k], "type") == JStr("text") && Get(blocks[k], "text", JStr("")).JStr?
    ensures BlocksPartsSpec(blocks).Ok?
    ensures |BlocksPartsSpec(blocks).value| == |blocks|
    ensures forall k :: 0 <= k < |blocks| ==> BlocksPartsSpec(blocks).value[k] == TextPart(Get(blocks[k], "text", JStr("")).s)
  {
    if blocks != [] {
      TextBlocksOneToOne(blocks[1..]);
      assert forall k :: 1 <= k < |blocks| ==> blocks[k] == blocks[1..][k - 1];
    }
  }

  // ---------------------------------------------------------------------------------------------
  // Request messages

  /** Some block of the message is a `tool_result`. */
  predicate IsToolResponse(content: Claude.MessageContent) {
    content.BlockContent? && exists k :: 0 <= k < |content.blocks| && GetOrNull(content.blocks[k], "type") == JStr("tool_result")
  }

  /** A message's Gemini role: "tool" when it answers a tool call, then assistant→model, anything else→user. */
  function ClaudeRole(m: Claude.Message): (r: string)
    ensures IsToolResponse(m.content) <==> r == "tool"
    ensures !IsToolResponse(m.content) ==> (r == "model" <==> m.role == "assistant")
  {
    if IsToolResponse(m.content) then "tool" else if m.role == "assistant" then "model" else "user"
  }

  /** One message's content, or nothing when the message has no parts. */
  function MessageContentSpec(m: Claude.Message): (r: Result<Option<Content>, Exception>)
    ensures r.Ok? && r.value.Some? ==> r.value.value.parts != [] && r.value.value.role == ClaudeRole(m)
    ensures r.Ok? <==> ContentPartsSpec(m.content).Ok?
    ensures r.Ok? ==> (r.value.None? <==> ContentPartsSpec(m.content).value == [])
  {
    var parts :- ContentPartsSpec(m.content);
    if parts == [] then Ok(None) else Ok(Some(Content(ClaudeRole(m), parts)))
  }

  function ContentsSpec(messages: seq<Claude.Message>): (r: Result<seq<Content>, Exception>)
    ensures r.Ok? ==> |r.value| <= |messages|
  {
    if messages == [] then Ok([]) else Prepend(MessageContentSpec(messages[0]), ContentsSpec(messages[1..]))
  }

  lemma ContentsStep(messages: seq<Claude.Message>, i: nat)
    requires i < |messages|
    ensures ContentsSpec(messages[i..]) == Prepend(MessageContentSpec(messages[i]), ContentsSpec(messages[i + 1..]))
  {
    assert messages[i..][0] == messages[i];
    assert messages[i..][1..] == messages[i + 1..];
  }

  /** A string message always gives one content holding exactly its text. */
  lemma StringMessageKept(m: Claude.Message)
    requires m.content.StrContent?
    ensures MessageContentSpec(m) == Ok(Some(Content(if m.role == "assistant" then "model" else "user", [TextPart(m.content.text)])))
  {
  }

  // ---------------------------------------------------------------------------------------------
  // Request

  /** The system instruction: a string verbatim, anything else as its JSON text, nothing when falsy. */
  function SystemInstruction(system: Json, codec: Codec): (r: Option<seq<Part>>)
    ensures r.Some? <==> Truthy(system)
    ensures Truthy(system) && system.JStr? ==> r == Some([TextPart(system.s)])
    ensures Truthy(system) && !system.JStr? ==> r == Some([TextPart(codec.dumps(system))])
  {
    if !Truthy(system) then None
    else Some([TextPart(if system.JStr? then system.s else codec.dumps(system))])
  }

  /** The sampling settings the request sets, the unset ones left out. */
  function BaseConfig(req: Claude.MessagesRequest): Object {
    DropNone(ConfigCandidates(req))
  }

  /** The generation config: the sampling settings, then the JSON MIME type when a JSON object is requested. */
  function GenerationConfig(req: Claude.MessagesRequest): Object {
    if JsonObjectRequested(req) then Put(BaseConfig(req), "responseMimeType", JStr("application/json")) else BaseConfig(req)
  }

  function StopSequencesJson(stops: Option<seq<string>>): Json {
    if stops.None? then JNull else JArr(StrsJson(stops.value))
  }

  function StrsJson(ss: seq<string>): seq<Json> {
    if ss == [] then [] else [JStr(ss[0])] + StrsJson(ss[1..])
  }

  predicate JsonObjectRequested(req: Claude.MessagesRequest) {
    req.responseFormat.Some? && req.responseFormat.value != [] && GetOrNull(req.responseFormat.value, "type") == JStr("json_object")
  }

  function ConfigCandidates(req: Claude.MessagesRequest): Object {
    [Member("maxOutputTokens", OptInt(req.maxTokens)),
     Member("temperature", OptFloat(req.temperature)),
     Member("topP", OptFloat(req.topP)),
     Member("topK", OptInt(req.topK)),
     Member("stopSequences", StopSequencesJson(req.stopSequences))]
  }

  /** The MIME type is set exactly when a JSON object is requested. */
  lemma JsonMimeIff(req: Claude.MessagesRequest)
    ensures HasKey(GenerationConfig(req), "responseMimeType") <==> JsonObjectRequested(req)
  {
    NoKeyOutside(BaseConfig(req), "responseMimeType");
  }

  /** A set `max_tokens` reaches Gemini as `maxOutputTokens`. */
  lemma MaxOutputTokensSent(req: Claude.MessagesRequest)
    requires req.maxTokens.Some?
    ensures Lookup(GenerationConfig(req), "maxOutputTokens") == Some(JInt(req.maxTokens.value))
  {
    var ms := ConfigCandidates(req);
    assert BaseConfig(req) == DropNone(ms) == [ms[0]] + DropNone(ms[1..]);
  }

  /** An unset `max_tokens` leaves `maxOutputTokens` out. */
  lemma MaxOutputTokensOmitted(req: Claude.MessagesRequest)
    requires req.maxTokens.None?
    ensures !HasKey(GenerationConfig(req), "maxOutputTokens")
  {
    var c := ConfigCandidates(req);
    forall k | 0 <= k < |c| && c[k].key == "maxOutputTokens" ensures c[k].value == JNull {
      assert c[k].key[0] == 'm';
    }
    DropNoneKeyGone(c, "maxOutputTokens");
    NoKeyOutside(BaseConfig(req), "maxOutputTokens");
    assert Lookup(BaseConfig(req), "maxOutputTokens").None?;
    assert "responseMimeType"[0] != "maxOutputTokens"[0];
  }

  /** A Claude tool as a Gemini function declaration: `input_schema` becomes `parameters`. */
  function Declaration(tool: Object): Json {
    JObj([Member("name", GetOrNull(tool, "name")), Member("description", GetOrNull(tool, "description")),
          Member("parameters", GetOrNull(tool, "input_schema"))])
  }

  function Declarations(tools: seq<Object>): (r: seq<Json>)
    ensures |r| == |tools|
    ensures forall k :: 0 <= k < |tools| ==> r[k] == Declaration(tools[k])
  {
    if tools == [] then [] else [Declaration(tools[0])] + Declarations(tools[1..])
  }

  /** The Gemini tools list: one `functionDeclarations` entry holding every tool, or nothing without tools. */
  function GeminiTools(tools: Option<seq<Object>>): (r: Option<seq<Object>>)
    ensures r.None? <==> tools.None? || tools.value == []
    ensures r.Some? ==> r.value == [[Member("functionDeclarations", JArr(Declarations(tools.value)))]]
  {
    if tools.None? || tools.value == [] then None
    else Some([[Member("functionDeclarations", JArr(Declarations(tools.value)))]])
  }

  /**
   * `claude_request_to_gemini`: the model name and the Gemini request, or the first exception.
   * Message contents are checked first, the tools sanitised afterwards; `tool_choice` is not read.
   */
  function RequestToGeminiSpec(req: Claude.MessagesRequest, codec: Codec, unsupported: seq<string>): (r: Result<(string, Request), Exception>)
    ensures r.Ok? ==> r.value.0 == req.model
    ensures r.Ok? ==> r.value.1.systemInstruction == SystemInstruction(req.system, codec)
    ensures r.Ok? ==> r.value.1.toolConfig.None? && r.value.1.safetySettings.None?
    ensures r.Ok? ==> r.value.1.generationConfig == Some(GenerationConfig(req))
    ensures ContentsSpec(req.messages).Err? ==> r == Err(ContentsSpec(req.messages).error)
  {
    var contents :- ContentsSpec(req.messages);
    var tools :- Utils.SanitizeGeminiTools(GeminiTools(req.tools), unsupported);
    Ok((req.model, Request(contents, SystemInstruction(req.system, codec), tools, None, None, Some(GenerationConfig(req)))))
  }

  /** `claude_request_to_gemini`, collecting the contents with its loop. */
  method ClaudeRequestToGemini(req: Claude.MessagesRequest, codec: Codec, unsupported: seq<string>) returns (r: Result<(string, Request), Exception>)
    ensures r == RequestToGeminiSpec(req, codec, unsupported)
  {
    var messages := req.messages;
    var contents: seq<Content> := [];
    assert messages[0..] == messages;
    var spec := ContentsSpec(messages);
    if spec.Ok? {
      assert [] + spec.value == spec.value;
    }
    var i := 0;
    while i < |messages|
      invariant 0 <= i <= |messages|
      invariant ContentsSpec(messages) == AfterDone(contents, ContentsSpec(messages[i..]))
    {
      var message := messages[i];
      var parts := TransformClaudeContent(message.content);
      var here := MessageContentSpec(message);
      ContentsStep(messages, i);
      AfterPrepend(contents, here, ContentsSpec(messages[i + 1..]));
      if parts.Err? {
        return Err(parts.error);
      }
      if parts.value != [] {
        contents := contents + [Content(ClaudeRole(message), parts.value)];
      } else {
        assert contents + [] == contents;
      }
      i := i + 1;
    }
    assert messages[i..] == [];
    assert contents + [] == contents;
    var tools := Utils.SanitizeGeminiTools(GeminiTools(req.tools), unsupported);
    if tools.Err? {
      return Err(tools.error);
    }
    return Ok((req.model, Request(contents, SystemInstruction(req.system, codec), tools.value, None, None, Some(GenerationConfig(req)))));
  }

  /** A message whose blocks include a `tool_result` is sent with role "tool", whatever its own role. */
  lemma ToolResultMessageRole(m: Claude.Message, k: nat)
    requires m.content.BlockContent? && k < |m.content.blocks| && GetOrNull(m.content.blocks[k], "type") == JStr("tool_result")
    ensures MessageContentSpec(m).Ok? && MessageContentSpec(m).value.Some? ==> MessageContentSpec(m).value.value.role == "tool"
  {
  }

  /** A tool declared with an `input_schema` reaches Gemini with that schema as its `parameters`, name and description kept. */
  lemma InputSchemaRenamed(tools: seq<Object>, k: nat)
    requires k < |tools|
    ensures var decls := GeminiTools(Some(tools)).value[0];
      Lookup(decls, "functionDeclarations") == Some(JArr(Declarations(tools)))
      && Declarations(tools)[k] == JObj([Member("name", GetOrNull(tools[k], "name")), Member("description", GetOrNull(tools[k], "description")),
                                         Member("parameters", GetOrNull(tools[k], "input_schema"))])
  {
  }

  // ---------------------------------------------------------------------------------------------
  // Complete responses

  /** The Claude block of one response part: text first, else a function call with its arguments as `input`. */
  function ResponseBlock(p: Part): (r: Option<Claude.ContentBlock>)
    ensures HasText(p) ==> r == Some(Claude.TextBlock(p.text.value))
    ensures !HasText(p) && p.functionCall.Some? ==> r == Some(Claude.ToolUseBlock(p.functionCall.value.name, p.functionCall.value.args))
    ensures r.None? <==> !HasText(p) && p.functionCall.None?
  {
    if HasText(p) then Some(Claude.TextBlock(p.text.value))
    else if p.functionCall.Some? then Some(Claude.ToolUseBlock(p.functionCall.value.name, p.functionCall.value.args))
    else None
  }

  function ResponseBlocks(parts: seq<Part>): (r: seq<Claude.ContentBlock>)
    ensures |r| <= |parts|
    ensures forall b :: b in r ==> b.kind in {"text", "tool_use"}
  {
    if parts == [] then []
    else (if ResponseBlock(parts[0]).Some? then [ResponseBlock(parts[0]).value] else []) + ResponseBlocks(parts[1..])
  }

  /** The response id: the upstream id, then the request's id, each behind "msg_", then a fresh one. */
  function ClaudeResponseId(responseId: Option<string>, requestId: Option<string>, uuidHex: string): (id: string)
    requires Utils.IsUuidHex(uuidHex)
    ensures StartsWith(id, "msg_")
    ensures responseId.Some? && responseId.value != "" ==> id == "msg_" + responseId.value
    ensures (responseId.None? || responseId.value == "") && requestId.Some? && requestId.value != "" ==> id == "msg_" + requestId.value
    ensures (responseId.None? || responseId.value == "") && (requestId.None? || requestId.value == "") ==> id == "msg_" + uuidHex
  {
    if responseId.Some? && responseId.value != "" then "msg_" + responseId.value
    else if requestId.Some? && requestId.value != "" then "msg_" + requestId.value
    else Utils.GenerateResponseId("msg", uuidHex)
  }

  /** `gemini_response_to_claude` reading the response's id and model version when present. */
  function ResponseToClaudeSpec(resp: Response, req: Claude.MessagesRequest, uuidHex: string): (r: Claude.MessageResponse)
    requires Utils.IsUuidHex(uuidHex)
    ensures r.id == ClaudeResponseId(resp.responseId, req.id, uuidHex)
    ensures resp.candidates == [] <==> r.stopReason.None?
    ensures resp.candidates != [] ==> r.stopReason == Some(MapFinishReason(resp.candidates[0].finishReason))
    ensures resp.candidates == [] ==> r.content == []
    ensures resp.modelVersion.None? || resp.modelVersion.value == "" ==> r.model == req.model
    ensures ValidatedUsage(resp.usageMetadata).None? ==> r.usage == Claude.Usage(0, 0)
  {
    var blocks := if resp.candidates != [] then ResponseBlocks(resp.candidates[0].content.parts) else [];
    var stopReason := if resp.candidates != [] then Some(MapFinishReason(resp.candidates[0].finishReason)) else None;
    var counts := ValidatedUsage(resp.usageMetadata);
    var usage := if counts.Some? then
        Claude.Usage(counts.value.promptTokenCount.GetOr(0), counts.value.candidatesTokenCount.GetOr(0))
      else Claude.Usage(0, 0);
    var model := if resp.modelVersion.Some? && resp.modelVersion.value != "" then resp.modelVersion.value else req.model;
    Claude.MessageResponse(ClaudeResponseId(resp.responseId, req.id, uuidHex), blocks, model, stopReason, usage)
  }

  /** Only the first candidate is read: any further candidates change nothing. */
  lemma FirstCandidateOnly(resp: Response, req: Claude.MessagesRequest, uuidHex: string, others: seq<Candidate>)
    requires Utils.IsUuidHex(uuidHex) && resp.candidates != []
    ensures ResponseToClaudeSpec(resp.(candidates := resp.candidates[..1] + others), req, uuidHex) == ResponseToClaudeSpec(resp, req, uuidHex)
  {
    assert (resp.candidates[..1] + others)[0] == resp.candidates[0];
  }

  /** Parts that all carry text become text blocks, one each, in order. */
  lemma {:induction false} TextPartsBecomeTextBlocks(parts: seq<Part>)
    requires forall k :: 0 <= k < |parts| ==> HasText(parts[k])
    ensures |ResponseBlocks(parts)| == |parts|
    ensures forall k :: 0 <= k < |parts| ==> HasText(parts[k]) && ResponseBlocks(parts)[k] == Claude.TextBlock(parts[k].text.value)
  {
    if parts != [] {
      TextPartsBecomeTextBlocks(parts[1..]);
      assert forall k :: 1 <= k < |parts| ==> parts[k] == parts[1..][k - 1];
    }
  }

  lemma ResponseBlocksStep(parts: seq<Part>, i: nat)
    requires i < |parts|
    ensures ResponseBlocks(parts[i..]) == (if ResponseBlock(parts[i]).Some? then [ResponseBlock(parts[i]).value] else []) + ResponseBlocks(parts[i + 1..])
  {
    assert parts[i..][0] == parts[i];
    assert parts[i..][1..] == parts[i + 1..];
  }

  /** The loop of `gemini_response_to_claude` over the first candidate's parts. */
  method CandidateBlocks(parts: seq<Part>) returns (blocks: seq<Claude.ContentBlock>)
    ensures blocks == ResponseBlocks(parts)
  {
    blocks := [];
    assert parts[0..] == parts;
    for i := 0 to |parts|
      invariant ResponseBlocks(parts) == blocks + ResponseBlocks(parts[i..])
    {
      ResponseBlocksStep(parts, i);
      ghost var rest := ResponseBlocks(parts[i + 1..]);
      if HasText(parts[i]) {
        AppendAssoc(blocks, [Claude.TextBlock(parts[i].text.value)], rest);
        blocks := blocks + [Claude.TextBlock(parts[i].text.value)];
      } else if parts[i].functionCall.Some? {
        var fc := parts[i].functionCall.value;
        AppendAssoc(blocks, [Claude.ToolUseBlock(fc.name, fc.args)], rest);
        blocks := blocks + [Claude.ToolUseBlock(fc.name, fc.args)];
      } else {
        assert [] + rest == rest;
      }
    }
    assert parts[|parts|..] == [];
    assert blocks + [] == blocks;
  }

  /** `gemini_response_to_claude`, collecting the content blocks with its loop. */
  method GeminiResponseToClaude(resp: Response, req: Claude.MessagesRequest, uuidHex: string) returns (r: Claude.MessageResponse)
    requires Utils.IsUuidHex(uuidHex)
    ensures r == ResponseToClaudeSpec(resp, req, uuidHex)
  {
    var blocks: seq<Claude.ContentBlock> := [];
    var stopReason: Option<string> := None;
    if resp.candidates != [] {
      var candidate := resp.candidates[0];
      stopReason := Some(MapFinishReason(candidate.finishReason));
      blocks := CandidateBlocks(candidate.content.parts);
    }
    var usage := Claude.Usage(0, 0);
    var counts := ValidatedUsage(resp.usageMetadata);
    if counts.Some? {
      usage := Claude.Usage(counts.value.promptTokenCount.GetOr(0), counts.value.candidatesTokenCount.GetOr(0));
    }
    var id := ClaudeResponseId(resp.responseId, req.id, uuidHex);
    var model := if resp.modelVersion.Some? && resp.modelVersion.value != "" then resp.modelVersion.value else req.model;
    return Claude.MessageResponse(id, blocks, model, stopReason, usage);
  }

  /**
   * `gemini_response_to_claude` as written: after the content and usage it reads `responseId`,
   * which is not one of `ResponseModelFields`, and the read raises AttributeError.
   */
  function ResponseToClaudeAsWritten(resp: Response, req: Claude.MessagesRequest, uuidHex: string): Result<Claude.MessageResponse, Exception>
    requires Utils.IsUuidHex(uuidHex)
  {
    if "responseId" in ResponseModelFields then Ok(ResponseToClaudeSpec(resp, req, uuidHex)) else Err(AttributeError)
  }

  /** Every complete response fails in the translation as written. */
  lemma ClaudeResponseAsWrittenAlwaysFails(resp: Response, req: Claude.MessagesRequest, uuidHex: string)
    requires Utils.IsUuidHex(uuidHex)
    ensures ResponseToClaudeAsWritten(resp, req, uuidHex) == Err(AttributeError)
  {
    assert ResponseModelFields[0][0] != 'r' && ResponseModelFields[1][0] != 'r';
  }
}
