/**
 * `src/adapters/openai_transformers.py`: OpenAI chat and embedding requests become Gemini
 * requests, and Gemini responses and stream chunks become OpenAI completions.
 *
 * The JSON codec, the clock, the uuid behind generated ids and the ISO-8601 parser are inputs.
 */
module OpenAIAdapter {
  import opened Wrappers
  import opened Json
  import opened Strs
  import opened Gemini
  import OpenAI
  import Utils

  // ---------------------------------------------------------------------------------------------
  // Message parts

  /**
   * The `inlineData` of a base64 data URL: the MIME type is the text after the first ':' of the
   * header (the text before the first ','), cut at the next ':' or ';'; the data is everything
   * after the first ','.  None when there is no ',' or the header has no ':'.
   */
  function ParseImageUrl(url: string): (r: Option<InlineData>)
    ensures r.Some? ==> ',' in url && r.value.data == url[IndexOf(url, ',').value + 1..]
    ensures r.Some? ==> ':' !in r.value.mimeType && ';' !in r.value.mimeType
  {
    match IndexOf(url, ',')
    case None => None
    case Some(comma) =>
      var pieces := Split(url[..comma], ':');
      if |pieces| < 2 then None
      else
        SplitPiecesFree(url[..comma], ':');
        assert pieces[1] in pieces;
        var mime := Split(pieces[1], ';')[0];
        FirstPieceFree(pieces[1], ';');
        Some(InlineData(mime, url[comma + 1..]))
  }

  lemma {:induction false} SplitPiecesFree(s: string, sep: char)
    ensures forall p :: p in Split(s, sep) ==> sep !in p
  {
    match IndexOf(s, sep)
    case None =>
    case Some(i) =>
      SplitPiecesFree(s[i + 1..], sep);
  }

  lemma FirstPieceFree(s: string, sep: char)
    ensures sep !in Split(s, sep)[0]
    ensures forall c :: c in Split(s, sep)[0] ==> c in s
  {
    SplitPiecesFree(s, sep);
    assert Split(s, sep)[0] in Split(s, sep);
  }

  /** `_transform_message_part`: a part dictionary of a message's content list. */
  function TransformMessagePart(part: Object): (r: Result<Option<Part>, Exception>)
    ensures GetOrNull(part, "type") != JStr("text") && GetOrNull(part, "type") != JStr("image_url") ==> r == Ok(None)
    ensures GetOrNull(part, "type") == JStr("text") ==>
      var text := Get(part, "text", JStr(""));
      && (text.JStr? ==> r == Ok(Some(TextPart(text.s))))
      && (text.JNull? ==> r == Ok(Some(Part(None, None, None, None, None))))
      && (!text.JStr? && !text.JNull? ==> r == Err(ValidationError))
    ensures r.Ok? && r.value.Some? && GetOrNull(part, "type") == JStr("image_url") ==>
      var holder := Get(part, "image_url", JObj([]));
      && holder.JObj?
      && var url := GetOrNull(holder.members, "url");
      && url.JStr? && Contains(url.s, ";base64,") && ParseImageUrl(url.s).Some?
      && r.value == Some(InlinePart(ParseImageUrl(url.s).value))
  {
    var partType := GetOrNull(part, "type");
    if partType == JStr("text") then
      match Get(part, "text", JStr(""))
      case JStr(s) => Ok(Some(TextPart(s)))
      case JNull => Ok(Some(Part(None, None, None, None, None)))
      case _ => Err(ValidationError)
    else if partType == JStr("image_url") then
      var url :- DictGet(Get(part, "image_url", JObj([])), "url", JNull);
      if !Truthy(url) then Ok(None)
      else
        var base64 :- PyContains(url, ";base64,");
        if !base64 then Ok(None)
        else if !url.JStr? then Err(AttributeError)
        else
          match ParseImageUrl(url.s)
          case None => Ok(None)
          case Some(d) => Ok(Some(InlinePart(d)))
    else Ok(None)
  }

  /** A URL `scheme:mime;encoding,data` parses back to its MIME type and data. */
  lemma ParseImageUrlInverse(scheme: string, mime: string, encoding: string, data: string)
    requires ':' !in scheme && ',' !in scheme
    requires ':' !in mime && ';' !in mime && ',' !in mime
    requires ':' !in encoding && ',' !in encoding
    ensures ParseImageUrl(scheme + [':'] + mime + [';'] + encoding + [','] + data) == Some(InlineData(mime, data))
  {
    var rest := mime + [';'] + encoding;
    var header := scheme + [':'] + rest;
    var url := header + [','] + data;
    assert url == scheme + [':'] + mime + [';'] + encoding + [','] + data;
    assert ',' !in header;
    IndexOfAfter(header, ',', data);
    assert url[..|header|] == header && url[|header| + 1..] == data;
    SplitAfter(scheme, ':', rest);
    assert ':' !in rest;
    SplitWhole(rest, ':');
    SplitAfter(mime, ';', encoding);
  }

  /** The part dictionary `{"type": "image_url", "image_url": {"url": url}}`. */
  function ImagePart(url: string): Object {
    [Member("type", JStr("image_url")), Member("image_url", JObj([Member("url", JStr(url))]))]
  }

  lemma ImagePartParsed(url: string)
    requires Contains(url, ";base64,")
    ensures TransformMessagePart(ImagePart(url)) == if ParseImageUrl(url).Some? then Ok(Some(InlinePart(ParseImageUrl(url).value))) else Ok(None)
  {
    var part := ImagePart(url);
    assert GetOrNull(part, "type") == JStr("image_url");
    assert "type"[0] != "image_url"[0];
    assert Lookup(part, "image_url") == Lookup(part[1..], "image_url");
    assert Get(part, "image_url", JObj([])) == JObj([Member("url", JStr(url))]);
    assert url != [];
  }

  /** An image part written as a base64 data URL comes back as the MIME type and data it was written from. */
  lemma ImageUrlRoundTrip(mime: string, data: string)
    requires ':' !in mime && ';' !in mime && ',' !in mime
    ensures TransformMessagePart(ImagePart("data:" + mime + ";base64," + data)) == Ok(Some(InlinePart(InlineData(mime, data))))
  {
    var url := "data:" + mime + ";base64," + data;
    assert url == "data" + [':'] + mime + [';'] + "base64" + [','] + data;
    ParseImageUrlInverse("data", mime, "base64", data);
    assert url == ("data:" + mime) + ";base64," + data;
    ContainsInfix("data:" + mime, ";base64,", data);
    ImagePartParsed(url);
  }

  // ---------------------------------------------------------------------------------------------
  // Messages

  /** Gemini's role for an OpenAI role. */
  function GeminiRole(role: string): (r: string)
    ensures r == "model" <==> role == "assistant"
    ensures r == "tool" <==> role == "tool"
    ensures r == "user" <==> role != "assistant" && role != "tool"
  {
    if role == "assistant" then "model" else if role == "tool" then "tool" else "user"
  }

  /** A message's `content` as the JSON it was sent as. */
  function ContentJson(c: OpenAI.MessageContent): Json {
    match c
    case NoContent => JNull
    case TextContent(s) => JStr(s)
    case PartsContent(ps) => JArr(seq(|ps|, i requires 0 <= i < |ps| => JObj(ps[i])))
  }

  /** The parts of a content list, in order, dropping the parts that transform to nothing. */
  function ContentListParts(parts: seq<Object>): (r: Result<seq<Part>, Exception>)
    ensures r.Ok? ==> |r.value| <= |parts|
  {
    if parts == [] then Ok([])
    else
      var first :- TransformMessagePart(parts[0]);
      var rest :- ContentListParts(parts[1..]);
      Ok((if first.Some? then [first.value] else []) + rest)
  }

  /** The `args` a decodable tool call carries: the decoded object, or `{}` when the text does not decode. */
  function ToolCallArgs(tc: OpenAI.ToolCall, codec: Codec): Object {
    match codec.loads(tc.call.arguments)
    case Some(JObj(args)) => args
    case _ => []
  }

  /** The `functionCall` of a tool call; arguments that do not decode become `{}`. */
  function ToolCallPart(tc: OpenAI.ToolCall, codec: Codec): (r: Result<Part, Exception>)
    ensures r.Ok? ==> r.value == CallPart(FunctionCall(tc.call.name, ToolCallArgs(tc, codec)))
    ensures r.Err? <==> codec.loads(tc.call.arguments).Some? && !codec.loads(tc.call.arguments).value.JObj?
    ensures codec.loads(tc.call.arguments).None? ==> r == Ok(CallPart(FunctionCall(tc.call.name, [])))
  {
    match codec.loads(tc.call.arguments)
    case None => Ok(CallPart(FunctionCall(tc.call.name, [])))
    case Some(JObj(args)) => Ok(CallPart(FunctionCall(tc.call.name, args)))
    case Some(_) => Err(ValidationError)
  }

  function ToolCallParts(calls: seq<OpenAI.ToolCall>, codec: Codec): (r: Result<seq<Part>, Exception>)
    ensures r.Ok? ==> |r.value| == |calls|
    ensures r.Ok? ==> forall k :: 0 <= k < |calls| ==> r.value[k] == CallPart(FunctionCall(calls[k].call.name, ToolCallArgs(calls[k], codec)))
  {
    if calls == [] then Ok([])
    else
      var first :- ToolCallPart(calls[0], codec);
      var rest :- ToolCallParts(calls[1..], codec);
      Ok([first] + rest)
  }

  /** The parts of one message before its tool calls. */
  function ContentParts(m: OpenAI.ChatMessage): Result<seq<Part>, Exception> {
    if m.role == "tool" then
      if m.toolCallId.None? then Err(ValidationError)
      else Ok([ResponsePart(FunctionResponse(m.toolCallId.value, [Member("content", ContentJson(m.content))]))])
    else match m.content
      case PartsContent(ps) => ContentListParts(ps)
      case TextContent(s) => Ok([TextPart(s)])
      case NoContent => Ok([])
  }

  /** The tool calls an assistant message carries (`message.tool_calls` read as truthy). */
  function CallsOf(m: OpenAI.ChatMessage): seq<OpenAI.ToolCall> {
    if m.role == "assistant" && m.toolCalls.Some? then m.toolCalls.value else []
  }

  /** One iteration of `_transform_messages`: the content a message becomes, or None when it has no parts. */
  function TransformMessage(m: OpenAI.ChatMessage, codec: Codec): (r: Result<Option<Content>, Exception>)
    ensures r.Ok? && r.value.Some? ==> r.value.value.role == GeminiRole(m.role) && r.value.value.parts != []
  {
    var parts :- ContentParts(m);
    var calls :- ToolCallParts(CallsOf(m), codec);
    if parts + calls == [] then Ok(None) else Ok(Some(Content(GeminiRole(m.role), parts + calls)))
  }

  /** `_transform_messages`: the contents, in message order; the first failure is raised. */
  function TransformMessagesSpec(messages: seq<OpenAI.ChatMessage>, codec: Codec): (r: Result<seq<Content>, Exception>)
    ensures r.Ok? ==> |r.value| <= |messages|
    ensures r.Ok? ==> forall k :: 0 <= k < |r.value| ==> r.value[k].parts != []
  {
    if messages == [] then Ok([])
    else Prepend(TransformMessage(messages[0], codec), TransformMessagesSpec(messages[1..], codec))
  }

  /** `_transform_messages` as the loop it is. */
  method TransformMessages(messages: seq<OpenAI.ChatMessage>, codec: Codec) returns (r: Result<seq<Content>, Exception>)
    ensures r == TransformMessagesSpec(messages, codec)
  {
    var contents: seq<Content> := [];
    assert messages[0..] == messages;
    var spec := TransformMessagesSpec(messages, codec);
    if spec.Ok? {
      assert [] + spec.value == spec.value;
    }
    var i := 0;
    while i < |messages|
      invariant 0 <= i <= |messages|
      invariant TransformMessagesSpec(messages, codec) == AfterDone(contents, TransformMessagesSpec(messages[i..], codec))
    {
      var content := TransformMessage(messages[i], codec);
      MessagesStep(messages, i, codec);
      AfterPrepend(contents, content, TransformMessagesSpec(messages[i + 1..], codec));
      if content.Err? {
        return Err(content.error);
      }
      if content.value.Some? {
        contents := contents + [content.value.value];
      } else {
        assert contents + [] == contents;
      }
      i := i + 1;
    }
    assert messages[i..] == [];
    assert contents + [] == contents;
    return Ok(contents);
  }

  lemma MessagesStep(messages: seq<OpenAI.ChatMessage>, i: nat, codec: Codec)
    requires i < |messages|
    ensures TransformMessagesSpec(messages[i..], codec) == Prepend(TransformMessage(messages[i], codec), TransformMessagesSpec(messages[i + 1..], codec))
  {
    assert messages[i..][0] == messages[i];
    assert messages[i..][1..] == messages[i + 1..];
  }

  /**
   * A tool message becomes exactly one `functionResponse` named by its `tool_call_id` that carries
   * the message content under "content"; without a `tool_call_id` it fails validation.
   */
  lemma ToolMessageResponse(m: OpenAI.ChatMessage, codec: Codec)
    requires m.role == "tool"
    ensures m.toolCallId.None? ==> TransformMessage(m, codec) == Err(ValidationError)
    ensures m.toolCallId.Some? ==>
      TransformMessage(m, codec) == Ok(Some(Content("tool", [ResponsePart(FunctionResponse(m.toolCallId.value, [Member("content", ContentJson(m.content))]))])))
  {
    if m.toolCallId.Some? {
      assert CallsOf(m) == [];
      var parts := [ResponsePart(FunctionResponse(m.toolCallId.value, [Member("content", ContentJson(m.content))]))];
      assert parts + [] == parts;
    }
  }

  lemma TransformMessageOk(m: OpenAI.ChatMessage, codec: Codec)
    requires ContentParts(m).Ok? && ToolCallParts(CallsOf(m), codec).Ok?
    ensures var parts := ContentParts(m).value + ToolCallParts(CallsOf(m), codec).value;
      TransformMessage(m, codec) == if parts == [] then Ok(None) else Ok(Some(Content(GeminiRole(m.role), parts)))
  {
  }

  /** An assistant message's tool calls follow its content parts, one `functionCall` each, in order. */
  lemma AssistantCallsFollowContent(m: OpenAI.ChatMessage, codec: Codec)
    requires m.role == "assistant" && m.toolCalls.Some? && ContentParts(m).Ok? && ToolCallParts(m.toolCalls.value, codec).Ok?
    requires ContentParts(m).value + ToolCallParts(m.toolCalls.value, codec).value != []
    ensures var r := TransformMessage(m, codec);
      var content := ContentParts(m).value;
      && r.Ok? && r.value.Some? && r.value.value.role == "model"
      && r.value.value.parts[..|content|] == content
      && |r.value.value.parts| == |content| + |m.toolCalls.value|
      && forall k :: 0 <= k < |m.toolCalls.value| ==>
           r.value.value.parts[|content| + k].functionCall == Some(FunctionCall(m.toolCalls.value[k].call.name, ToolCallArgs(m.toolCalls.value[k], codec)))
  {
    var content: seq<Part> := ContentParts(m).value;
    var calls: seq<Part> := ToolCallParts(m.toolCalls.value, codec).value;
    assert CallsOf(m) == m.toolCalls.value;
    TransformMessageOk(m, codec);
    assert (content + calls)[..|content|] == content;
    forall k | 0 <= k < |m.toolCalls.value|
      ensures (content + calls)[|content| + k].functionCall == Some(FunctionCall(m.toolCalls.value[k].call.name, ToolCallArgs(m.toolCalls.value[k], codec)))
    {
      assert (content + calls)[|content| + k] == calls[k];
    }
  }

  /**
   * Text messages without tool calls are never dropped: each becomes one content, in order,
   * holding its text as the single part, under the mapped role.
   */
  lemma {:induction false} TextMessagesOneToOne(messages: seq<OpenAI.ChatMessage>, codec: Codec)
    requires forall k :: 0 <= k < |messages| ==> messages[k].content.TextContent? && messages[k].role != "tool" && messages[k].toolCalls.None?
    ensures var r := TransformMessagesSpec(messages, codec);
      && r.Ok? && |r.value| == |messages|
      && forall k :: 0 <= k < |messages| ==>
           r.value[k] == Content(GeminiRole(messages[k].role), [TextPart(messages[k].content.text)])
  {
    if messages != [] {
      var m := messages[0];
      assert CallsOf(m) == [];
      assert [TextPart(m.content.text)] + [] == [TextPart(m.content.text)];
      assert TransformMessage(m, codec) == Ok(Some(Content(GeminiRole(m.role), [TextPart(m.content.text)])));
      TextMessagesOneToOne(messages[1..], codec);
    }
  }

  // ---------------------------------------------------------------------------------------------
  // Generation config, tools and tool choice

  function StopJson(stop: Option<OpenAI.Stop>): Json {
    match stop
    case None => JNull
    case Some(StopOne(s)) => JArr([JStr(s)])
    case Some(StopList(ss)) => JArr(seq(|ss|, i requires 0 <= i < |ss| => JStr(ss[i])))
  }

  /** `response_format` is a non-empty dict whose "type" is "json_object". */
  predicate JsonObjectRequested(responseFormat: Option<Object>) {
    responseFormat.Some? && responseFormat.value != [] && GetOrNull(responseFormat.value, "type") == JStr("json_object")
  }

  /** `_transform_generation_config`: the sampling fields under Gemini's names, without the unset ones. */
  function GenerationConfig(req: OpenAI.ChatRequest): (r: Object)
    ensures forall m :: m in r ==> m.value != JNull
  {
    DropNone(ConfigCandidates(req))
  }

  /** The eight sampling members `GenerationConfig` filters, in order; no key among them starts with `r`. */
  function BaseConfig(req: OpenAI.ChatRequest): (r: seq<Member>)
    ensures |r| == 8
    ensures forall k :: 0 <= k < |r| ==> |r[k].key| > 0 && r[k].key[0] != 'r'
  {
    [Member("temperature", OptFloat(req.temperature)),
     Member("topP", OptFloat(req.topP)),
     Member("maxOutputTokens", OptInt(req.maxTokens)),
     Member("stopSequences", StopJson(req.stop)),
     Member("frequencyPenalty", OptFloat(req.frequencyPenalty)),
     Member("presencePenalty", OptFloat(req.presencePenalty)),
     Member("candidateCount", OptInt(req.n)),
     Member("seed", OptInt(req.seed))]
  }

  /** The members `GenerationConfig` filters, in order. */
  function ConfigCandidates(req: OpenAI.ChatRequest): (r: seq<Member>)
    ensures |r| == if JsonObjectRequested(req.responseFormat) then 9 else 8
    ensures forall k :: 0 <= k < 8 ==> r[k] == BaseConfig(req)[k]
  {
    BaseConfig(req)
    + (if JsonObjectRequested(req.responseFormat) then [Member("responseMimeType", JStr("application/json"))] else [])
  }

  /** The JSON-mode MIME type is set exactly when `response_format` asks for a JSON object. */
  lemma JsonModeIff(req: OpenAI.ChatRequest)
    ensures Member("responseMimeType", JStr("application/json")) in GenerationConfig(req) <==> JsonObjectRequested(req.responseFormat)
  {
    var c := ConfigCandidates(req);
    assert GenerationConfig(req) == DropNone(c);
    if JsonObjectRequested(req.responseFormat) {
      assert c[8] == Member("responseMimeType", JStr("application/json"));
    } else {
      assert c == BaseConfig(req);
    }
  }

  /** A single stop string is sent as a one-element list. */
  lemma StopStringListed(req: OpenAI.ChatRequest, stop: string)
    requires req.stop == Some(OpenAI.StopOne(stop))
    ensures Member("stopSequences", JArr([JStr(stop)])) in GenerationConfig(req)
  {
    var c := ConfigCandidates(req);
    var b := BaseConfig(req);
    assert StopJson(req.stop) == JArr([JStr(stop)]);
    assert b[3] == Member("stopSequences", JArr([JStr(stop)]));
    assert c[3] in c;
  }

  /** `temperature` is sent exactly when it is set, with its value. */
  lemma TemperatureKept(req: OpenAI.ChatRequest)
    ensures req.temperature.Some? ==> Member("temperature", JFloat(req.temperature.value)) in GenerationConfig(req)
    ensures req.temperature.None? ==> forall m :: m in GenerationConfig(req) ==> m.key != "temperature"
  {
    var c := ConfigCandidates(req);
    var b := BaseConfig(req);
    if req.temperature.None? {
      forall k | 0 <= k < |c| && c[k].key == "temperature" ensures c[k].value == JNull {
        assert c[k].key[0] == 't' && c[k].key[1] == 'e';
        if k < 8 {
          assert b[k].key[0] != 't' || b[k].key[1] != 'e' || k == 0;
        }
      }
      DropNoneKeyGone(c, "temperature");
    } else {
      assert b[0] == Member("temperature", JFloat(req.temperature.value));
      assert c[0] in c;
    }
  }

  /** A set `max_tokens` is sent as `maxOutputTokens` with its value. */
  lemma MaxTokensSent(req: OpenAI.ChatRequest)
    requires req.maxTokens.Some?
    ensures Member("maxOutputTokens", JInt(req.maxTokens.value)) in GenerationConfig(req)
  {
    var c := ConfigCandidates(req);
    assert c[2] == Member("maxOutputTokens", JInt(req.maxTokens.value));
  }

  /** An unset `max_tokens` leaves `maxOutputTokens` out. */
  lemma MaxTokensOmitted(req: OpenAI.ChatRequest)
    requires req.maxTokens.None?
    ensures forall m :: m in GenerationConfig(req) ==> m.key != "maxOutputTokens"
  {
    var c := ConfigCandidates(req);
    forall k | 0 <= k < |c| && c[k].key == "maxOutputTokens" ensures c[k].value == JNull {
      assert c[k].key[0] == 'm';
    }
    DropNoneKeyGone(c, "maxOutputTokens");
  }

  /** `[t["function"] for t in tools]`: KeyError for a tool without "function". */
  function FunctionsOf(tools: seq<Object>): (r: Result<seq<Json>, Exception>)
    ensures r.Ok? <==> forall k :: 0 <= k < |tools| ==> HasKey(tools[k], "function")
    ensures r.Ok? ==> |r.value| == |tools| && forall k :: 0 <= k < |tools| ==> r.value[k] == Lookup(tools[k], "function").value
    ensures r.Err? ==> r.error == KeyError
  {
    if tools == [] then Ok([])
    else
      var first :- Subscript(JObj(tools[0]), "function");
      var rest :- FunctionsOf(tools[1..]);
      assert forall k :: 1 <= k < |tools| ==> tools[k] == tools[1..][k - 1];
      Ok([first] + rest)
  }

  /** `_transform_tools`: one `functionDeclarations` entry listing the tools' functions in order. */
  function TransformTools(tools: Option<seq<Object>>): (r: Result<Option<seq<Object>>, Exception>)
    ensures tools.None? || tools.value == [] ==> r == Ok(None)
    ensures tools.Some? && tools.value != [] && FunctionsOf(tools.value).Ok? ==>
      r == Ok(Some([[Member("functionDeclarations", JArr(FunctionsOf(tools.value).value))]]))
    ensures tools.Some? && FunctionsOf(tools.value).Err? ==> r == Err(KeyError)
  {
    if tools.None? || tools.value == [] then Ok(None)
    else
      var decls :- FunctionsOf(tools.value);
      Ok(Some([[Member("functionDeclarations", JArr(decls))]]))
  }

  /** `_transform_tool_config`; a non-string function name fails the request model's validation. */
  function TransformToolConfig(choice: Option<OpenAI.ToolChoice>): (r: Result<Option<FunctionCallingConfig>, Exception>)
    ensures choice == Some(OpenAI.ChoiceName("none")) ==> r == Ok(Some(FunctionCallingConfig(Some("NONE"), None)))
    ensures choice == Some(OpenAI.ChoiceName("auto")) ==> r == Ok(Some(FunctionCallingConfig(Some("AUTO"), None)))
    ensures choice == Some(OpenAI.ChoiceName("required")) ==> r == Ok(Some(FunctionCallingConfig(Some("ANY"), None)))
    ensures choice.None? ==> r == Ok(None)
    ensures choice.Some? && choice.value.ChoiceName? && choice.value.name !in {"none", "auto", "required"} ==> r == Ok(None)
    ensures r.Ok? && r.value.Some? ==> r.value.value.mode.Some? && r.value.value.mode.value in {"NONE", "AUTO", "ANY"}
    ensures r.Ok? && r.value.Some? && r.value.value.allowedFunctionNames.Some? ==>
      && r.value.value.mode == Some("ANY") && |r.value.value.allowedFunctionNames.value| == 1
      && choice.Some? && choice.value.ChoiceObject?
  {
    match choice
    case None => Ok(None)
    case Some(ChoiceName(s)) =>
      if s == "none" then Ok(Some(FunctionCallingConfig(Some("NONE"), None)))
      else if s == "auto" then Ok(Some(FunctionCallingConfig(Some("AUTO"), None)))
      else if s == "required" then Ok(Some(FunctionCallingConfig(Some("ANY"), None)))
      else Ok(None)
    case Some(ChoiceObject(ms)) =>
      if ms == [] then Ok(None)
      else
        var name :- DictGet(Get(ms, "function", JObj([])), "name", JNull);
        if !Truthy(name) then Ok(None)
        else if !name.JStr? then Err(ValidationError)
        else Ok(Some(FunctionCallingConfig(Some("ANY"), Some([name.s]))))
  }

  /** A tool choice naming a function forces a call to exactly that function. */
  lemma NamedFunctionForcesCall(ms: Object, f: Object, name: string)
    requires Lookup(ms, "function") == Some(JObj(f)) && Lookup(f, "name") == Some(JStr(name)) && name != ""
    ensures TransformToolConfig(Some(OpenAI.ChoiceObject(ms))) == Ok(Some(FunctionCallingConfig(Some("ANY"), Some([name]))))
  {
  }

  // ---------------------------------------------------------------------------------------------
  // The request

  /** The index of the first system message. */
  function FirstSystemIndex(messages: seq<OpenAI.ChatMessage>): (r: Option<nat>)
    ensures r.Some? ==> r.value < |messages| && messages[r.value].role == "system"
    ensures r.Some? ==> forall k :: 0 <= k < r.value ==> messages[k].role != "system"
    ensures r.None? <==> forall k :: 0 <= k < |messages| ==> messages[k].role != "system"
  {
    if messages == [] then None
    else if messages[0].role == "system" then Some(0)
    else
      var r := FirstSystemIndex(messages[1..]);
      assert forall k :: 1 <= k < |messages| ==> messages[k] == messages[1..][k - 1];
      if r.Some? then Some(r.value + 1) else None
  }

  /** The system instruction: the first system message's text, when that content is a string. */
  function SystemInstruction(messages: seq<OpenAI.ChatMessage>): Option<seq<Part>> {
    match FirstSystemIndex(messages)
    case None => None
    case Some(i) => if messages[i].content.TextContent? then Some([TextPart(messages[i].content.text)]) else None
  }

  /** The messages left for the contents: all but the first system message. */
  function ConversationMessages(messages: seq<OpenAI.ChatMessage>): seq<OpenAI.ChatMessage> {
    match FirstSystemIndex(messages)
    case None => messages
    case Some(i) => messages[..i] + messages[i + 1..]
  }

  /** The settings `openai_request_to_gemini` reads: the default safety settings and the schema keys Gemini rejects. */
  datatype Settings = Settings(safetySettings: seq<Object>, unsupportedSchemaKeys: seq<string>)

  /** `openai_request_to_gemini`, with its failures in evaluation order. */
  function RequestToGeminiSpec(req: OpenAI.ChatRequest, codec: Codec, settings: Settings): (r: Result<Request, Exception>)
    ensures r.Ok? ==> r.value.safetySettings == Some(settings.safetySettings)
    ensures r.Ok? ==> r.value.systemInstruction == SystemInstruction(req.messages)
    ensures r.Ok? ==> Ok(r.value.contents) == TransformMessagesSpec(ConversationMessages(req.messages), codec)
    ensures r.Ok? ==> r.value.generationConfig == Some(GenerationConfig(req))
  {
    var tools :- TransformTools(req.tools);
    var sanitized :- Utils.SanitizeGeminiTools(tools, settings.unsupportedSchemaKeys);
    var contents :- TransformMessagesSpec(ConversationMessages(req.messages), codec);
    var toolConfig :- TransformToolConfig(req.toolChoice);
    Ok(Request(contents, SystemInstruction(req.messages), sanitized, toolConfig, Some(settings.safetySettings), Some(GenerationConfig(req))))
  }

  /** `openai_request_to_gemini`: find and pop the first system message, then translate. */
  method OpenAIRequestToGemini(req: OpenAI.ChatRequest, codec: Codec, settings: Settings) returns (r: Result<Request, Exception>)
    ensures r == RequestToGeminiSpec(req, codec, settings)
  {
    var systemInstruction: Option<seq<Part>> := None;
    var messages := req.messages;
    var systemIndex := -1;
    var i := 0;
    while i < |messages|
      invariant 0 <= i <= |messages| && systemIndex == -1 && systemInstruction.None?
      invariant forall k :: 0 <= k < i ==> messages[k].role != "system"
    {
      if messages[i].role == "system" {
        if messages[i].content.TextContent? {
          systemInstruction := Some([TextPart(messages[i].content.text)]);
        }
        systemIndex := i;
        break;
      }
      i := i + 1;
    }
    if systemIndex != -1 {
      messages := messages[..systemIndex] + messages[systemIndex + 1..];
    }
    assert messages == ConversationMessages(req.messages) && systemInstruction == SystemInstruction(req.messages);
    var generationConfig := GenerationConfig(req);
    var tools := TransformTools(req.tools);
    if tools.Err? {
      return Err(tools.error);
    }
    var sanitized := Utils.SanitizeGeminiTools(tools.value, settings.unsupportedSchemaKeys);
    if sanitized.Err? {
      return Err(sanitized.error);
    }
    var contents := TransformMessages(messages, codec);
    if contents.Err? {
      return Err(contents.error);
    }
    var toolConfig := TransformToolConfig(req.toolChoice);
    if toolConfig.Err? {
      return Err(toolConfig.error);
    }
    return Ok(Request(contents.value, systemInstruction, sanitized.value, toolConfig.value, Some(settings.safetySettings), Some(generationConfig)));
  }

  /**
   * Only the first system message is taken out of the conversation; a later one is translated like
   * any other message, as a user turn.
   */
  lemma OnlyFirstSystemRemoved(messages: seq<OpenAI.ChatMessage>, i: nat, j: nat)
    requires FirstSystemIndex(messages) == Some(i) && i < j < |messages|
    ensures ConversationMessages(messages)[j - 1] == messages[j]
    ensures |ConversationMessages(messages)| == |messages| - 1
    ensures messages[j].role == "system" ==> GeminiRole(ConversationMessages(messages)[j - 1].role) == "user"
  {
  }

  // ---------------------------------------------------------------------------------------------
  // Finish reasons

  /** `_map_finish_reason`: Gemini's finish reason in OpenAI's words. */
  function MapFinishReason(reason: Option<string>, streaming: bool): (r: Option<string>)
    ensures reason.None? || reason.value == "" ==> r == (if streaming then None else Some("stop"))
    ensures reason == Some("STOP") ==> r == Some("stop")
    ensures reason == Some("MAX_TOKENS") ==> r == Some("length")
    ensures reason == Some("SAFETY") || reason == Some("RECITATION") ==> r == Some("content_filter")
    ensures reason == Some("TOOL_USE") ==> r == Some("tool_calls")
    ensures reason.Some? && reason.value !in {"", "STOP", "MAX_TOKENS", "SAFETY", "RECITATION", "TOOL_USE"} ==> r == Some("stop")
  {
    if reason.None? || reason.value == "" then (if streaming then None else Some("stop"))
    else if reason.value == "STOP" then Some("stop")
    else if reason.value == "MAX_TOKENS" then Some("length")
    else if reason.value == "SAFETY" || reason.value == "RECITATION" then Some("content_filter")
    else if reason.value == "TOOL_USE" then Some("tool_calls")
    else Some("stop")
  }

  /**
   * Every mapped reason is one of OpenAI's four, and a reason is missing only for a streamed
   * candidate that has none.
   */
  lemma FinishReasonRange(reason: Option<string>, streaming: bool)
    ensures MapFinishReason(reason, streaming).Some? ==> MapFinishReason(reason, streaming).value in {"stop", "length", "content_filter", "tool_calls"}
    ensures MapFinishReason(reason, streaming).None? <==> streaming && (reason.None? || reason.value == "")
  {
  }

  // ---------------------------------------------------------------------------------------------
  // Choices

  /** The OpenAI tool call for a Gemini function call: its id is the function name, its arguments the JSON of `args`. */
  function ToolCallOf(fc: FunctionCall, codec: Codec, index: Option<int>): OpenAI.ToolCall {
    OpenAI.ToolCall(fc.name, "function", OpenAI.FunctionCall(fc.name, codec.dumps(JObj(fc.args))), index)
  }

  /** The non-streaming choices of one part: a text choice, then a tool-call choice, each when present. */
  function PartChoices(p: Part, index: int, finish: Option<string>, codec: Codec): (r: seq<OpenAI.Choice>)
    ensures |r| == (if HasText(p) then 1 else 0) + (if p.functionCall.Some? then 1 else 0)
    ensures forall c :: c in r ==> c.index == index && c.finishReason == finish && c.message.role == "assistant"
    ensures p.functionCall.Some? ==>
      r[|r| - 1].message == OpenAI.ChatMessage("assistant", OpenAI.NoContent, Some([ToolCallOf(p.functionCall.value, codec, None)]), None)
    ensures HasText(p) ==> r[0].message.content == OpenAI.TextContent(p.text.value)
  {
    (if HasText(p) then [OpenAI.Choice(index, OpenAI.ChatMessage("assistant", OpenAI.TextContent(p.text.value), None, None), finish)] else [])
    + (if p.functionCall.Some? then
         [OpenAI.Choice(index, OpenAI.ChatMessage("assistant", OpenAI.NoContent, Some([ToolCallOf(p.functionCall.value, codec, None)]), None), finish)]
       else [])
  }

  /** The choices of a candidate's parts, where only the last part's choices carry `finish`. */
  function PartsChoices(parts: seq<Part>, index: int, finish: Option<string>, codec: Codec): (r: seq<OpenAI.Choice>)
    ensures finish.None? ==> forall c :: c in r ==> c.finishReason.None?
    ensures forall c :: c in r ==> c.index == index
  {
    if |parts| == 0 then []
    else if |parts| == 1 then PartChoices(parts[0], index, finish, codec)
    else PartChoices(parts[0], index, None, codec) + PartsChoices(parts[1..], index, finish, codec)
  }

  /** Only the choices made from a candidate's last part carry its finish reason. */
  lemma {:induction false} FinishOnlyOnLastPart(parts: seq<Part>, index: int, finish: Option<string>, codec: Codec)
    requires |parts| >= 1
    ensures PartsChoices(parts, index, finish, codec)
         == PartsChoices(parts[..|parts| - 1], index, None, codec) + PartChoices(parts[|parts| - 1], index, finish, codec)
  {
    var n := |parts|;
    if n == 1 {
      assert PartsChoices(parts[..0], index, None, codec) == [];
    } else {
      var init := parts[..n - 1];
      var first := PartChoices(parts[0], index, None, codec);
      var last := PartChoices(parts[n - 1], index, finish, codec);
      assert parts[1..][..n - 2] == init[1..];
      assert parts[1..][n - 2] == parts[n - 1];
      assert init[0] == parts[0];
      PartsChoicesUnfold(init, index, codec);
      calc {
        PartsChoices(parts, index, finish, codec);
        first + PartsChoices(parts[1..], index, finish, codec);
        { FinishOnlyOnLastPart(parts[1..], index, finish, codec); }
        first + (PartsChoices(init[1..], index, None, codec) + last);
        (first + PartsChoices(init[1..], index, None, codec)) + last;
      }
    }
  }

  /** Without a finish reason, every part's choices are made alike. */
  lemma PartsChoicesUnfold(parts: seq<Part>, index: int, codec: Codec)
    requires |parts| >= 1
    ensures PartsChoices(parts, index, None, codec) == PartChoices(parts[0], index, None, codec) + PartsChoices(parts[1..], index, None, codec)
  {
    if |parts| == 1 {
      assert PartsChoices(parts[1..], index, None, codec) == [];
    }
  }

  /** `_gemini_candidate_to_openai_choices` for a complete response. */
  function CandidateChoices(c: Candidate, codec: Codec): seq<OpenAI.Choice> {
    PartsChoices(c.content.parts, c.index, MapFinishReason(c.finishReason, false), codec)
  }

  function AllChoices(candidates: seq<Candidate>, codec: Codec): seq<OpenAI.Choice> {
    if candidates == [] then [] else CandidateChoices(candidates[0], codec) + AllChoices(candidates[1..], codec)
  }

  /** A part holding only a function call becomes one tool-call choice with no content. */
  lemma ToolCallChoice(p: Part, index: int, finish: Option<string>, codec: Codec)
    requires !HasText(p) && p.functionCall.Some?
    ensures var fc := p.functionCall.value;
      PartChoices(p, index, finish, codec) == [OpenAI.Choice(index,
        OpenAI.ChatMessage("assistant", OpenAI.NoContent,
          Some([OpenAI.ToolCall(fc.name, "function", OpenAI.FunctionCall(fc.name, codec.dumps(JObj(fc.args))), None)]), None), finish)]
  {
  }

  // ---------------------------------------------------------------------------------------------
  // Stream choices

  /** The text delta of a streamed part; the role and finish reason go with it only when the part has no call. */
  function TextDelta(p: Part, index: int, finish: Option<string>): seq<OpenAI.StreamChoice> {
    if HasText(p) then
      [OpenAI.StreamChoice(index,
        OpenAI.Delta(Some(p.text.value), None, if p.functionCall.None? then Some("assistant") else None),
        if p.functionCall.None? then finish else None)]
    else []
  }

  /** The streamed choices of one part, as written: a function call raises ValueError. */
  function StreamPartChoicesAsWritten(p: Part, index: int, finish: Option<string>, codec: Codec): Result<seq<OpenAI.StreamChoice>, Exception> {
    if p.functionCall.Some? then Err(ValueError) else Ok(TextDelta(p, index, finish))
  }

  /** The streamed choices of one part, the function call carrying stream index 0. */
  function StreamPartChoices(p: Part, index: int, finish: Option<string>, codec: Codec): (r: seq<OpenAI.StreamChoice>)
    ensures |r| == (if HasText(p) then 1 else 0) + (if p.functionCall.Some? then 1 else 0)
    ensures p.functionCall.Some? ==>
      r[|r| - 1] == OpenAI.StreamChoice(index, OpenAI.Delta(None, Some([ToolCallOf(p.functionCall.value, codec, Some(0))]), Some("assistant")), finish)
    ensures forall c :: c in r && c.finishReason.Some? ==> c.finishReason == finish
  {
    TextDelta(p, index, finish)
    + (if p.functionCall.Some? then
         [OpenAI.StreamChoice(index, OpenAI.Delta(None, Some([ToolCallOf(p.functionCall.value, codec, Some(0))]), Some("assistant")), finish)]
       else [])
  }

  function StreamPartsChoicesAsWritten(parts: seq<Part>, index: int, finish: Option<string>, codec: Codec): Result<seq<OpenAI.StreamChoice>, Exception> {
    if |parts| == 0 then Ok([])
    else if |parts| == 1 then StreamPartChoicesAsWritten(parts[0], index, finish, codec)
    else
      var first :- StreamPartChoicesAsWritten(parts[0], index, None, codec);
      var rest :- StreamPartsChoicesAsWritten(parts[1..], index, finish, codec);
      Ok(first + rest)
  }

  function StreamPartsChoices(parts: seq<Part>, index: int, finish: Option<string>, codec: Codec): (r: seq<OpenAI.StreamChoice>)
    ensures finish.None? ==> forall c :: c in r ==> c.finishReason.None?
  {
    if |parts| == 0 then []
    else if |parts| == 1 then StreamPartChoices(parts[0], index, finish, codec)
    else StreamPartChoices(parts[0], index, None, codec) + StreamPartsChoices(parts[1..], index, finish, codec)
  }

  function StreamChoicesAsWritten(candidates: seq<Candidate>, codec: Codec): Result<seq<OpenAI.StreamChoice>, Exception> {
    if candidates == [] then Ok([])
    else
      var c := candidates[0];
      var first :- StreamPartsChoicesAsWritten(c.content.parts, c.index, MapFinishReason(c.finishReason, true), codec);
      var rest :- StreamChoicesAsWritten(candidates[1..], codec);
      Ok(first + rest)
  }

  function StreamChoices(candidates: seq<Candidate>, codec: Codec): seq<OpenAI.StreamChoice> {
    if candidates == [] then []
    else
      var c := candidates[0];
      StreamPartsChoices(c.content.parts, c.index, MapFinishReason(c.finishReason, true), codec) + StreamChoices(candidates[1..], codec)
  }

  /** Some part of some candidate holds a function call. */
  predicate HasFunctionCall(candidates: seq<Candidate>) {
    exists k, j :: 0 <= k < |candidates| && 0 <= j < |candidates[k].content.parts| && candidates[k].content.parts[j].functionCall.Some?
  }

  /** `gemini_stream_chunk_to_openai` as written: the `index` assignment on a tool call raises. */
  function StreamChunkToOpenAIAsWritten(chunk: Response, model: string, responseId: string, now: int, codec: Codec)
    : Result<OpenAI.StreamResponse, Exception>
  {
    var choices :- StreamChoicesAsWritten(chunk.candidates, codec);
    Ok(OpenAI.StreamResponse(responseId, "chat.completion.chunk", now, model, choices))
  }

  /** `gemini_stream_chunk_to_openai` with the tool call's stream index in place. */
  function StreamChunkToOpenAI(chunk: Response, model: string, responseId: string, now: int, codec: Codec): (r: OpenAI.StreamResponse)
    ensures r.id == responseId && r.model == model && r.kind == "chat.completion.chunk" && r.created == now
  {
    OpenAI.StreamResponse(responseId, "chat.completion.chunk", now, model, StreamChoices(chunk.candidates, codec))
  }

  lemma {:induction false} StreamPartsAsWrittenAgree(parts: seq<Part>, index: int, finish: Option<string>, codec: Codec)
    ensures var asWritten := StreamPartsChoicesAsWritten(parts, index, finish, codec);
      && (asWritten.Err? <==> exists j :: 0 <= j < |parts| && parts[j].functionCall.Some?)
      && (asWritten.Ok? ==> asWritten.value == StreamPartsChoices(parts, index, finish, codec))
      && (asWritten.Err? ==> asWritten.error == ValueError)
  {
    if |parts| > 1 {
      StreamPartsAsWrittenAgree(parts[1..], index, finish, codec);
      forall j | 1 <= j < |parts| ensures parts[j] == parts[1..][j - 1] { }
    }
  }

  /**
   * The stream translation as written fails with ValueError exactly when a chunk holds a function
   * call; on every other chunk it agrees with the corrected translation.
   */
  lemma {:induction false} StreamChunkFailsOnFunctionCall(candidates: seq<Candidate>, codec: Codec)
    ensures var asWritten := StreamChoicesAsWritten(candidates, codec);
      && (asWritten.Err? <==> HasFunctionCall(candidates))
      && (asWritten.Err? ==> asWritten.error == ValueError)
      && (asWritten.Ok? ==> asWritten.value == StreamChoices(candidates, codec))
  {
    if candidates != [] {
      var c := candidates[0];
      StreamPartsAsWrittenAgree(c.content.parts, c.index, MapFinishReason(c.finishReason, true), codec);
      StreamChunkFailsOnFunctionCall(candidates[1..], codec);
      if HasFunctionCall(candidates[1..]) {
        var k, j :| 0 <= k < |candidates[1..]| && 0 <= j < |candidates[1..][k].content.parts| && candidates[1..][k].content.parts[j].functionCall.Some?;
        assert candidates[k + 1] == candidates[1..][k];
      }
      if HasFunctionCall(candidates) {
        var k, j :| 0 <= k < |candidates| && 0 <= j < |candidates[k].content.parts| && candidates[k].content.parts[j].functionCall.Some?;
        if k > 0 {
          assert candidates[1..][k - 1] == candidates[k];
        }
      }
    }
  }

  // ---------------------------------------------------------------------------------------------
  // Complete responses

  /** The usage block: each count `or 0`, all zero without usage metadata. */
  function UsageOf(u: Option<Usage>): (r: OpenAI.Usage)
    ensures u.None? ==> r == OpenAI.Usage(0, 0, 0)
    ensures u.Some? && u.value.totalTokenCount.Some? ==> r.totalTokens == u.value.totalTokenCount.value
    ensures u.Some? && u.value.promptTokenCount.None? ==> r.promptTokens == 0
  {
    if u.None? then OpenAI.Usage(0, 0, 0)
    else OpenAI.Usage(u.value.promptTokenCount.GetOr(0), u.value.candidatesTokenCount.GetOr(0), u.value.totalTokenCount.GetOr(0))
  }

  /** `s.replace("Z", "+00:00")`. */
  function ReplaceZ(s: string): (r: string)
    ensures 'Z' !in r
    ensures 'Z' !in s ==> r == s
  {
    if s == [] then []
    else (if s[0] == 'Z' then "+00:00" else [s[0]]) + ReplaceZ(s[1..])
  }

  /** The `created` timestamp: the parsed `createTime`, or the current time when it is absent or does not parse. */
  function CreatedTimestamp(createTime: Option<string>, now: int, parseIso: string -> Option<int>): (r: int)
    ensures createTime.None? || createTime.value == "" ==> r == now
    ensures r != now ==> createTime.Some? && parseIso(ReplaceZ(createTime.value)) == Some(r)
  {
    if createTime.Some? && createTime.value != "" then parseIso(ReplaceZ(createTime.value)).GetOr(now) else now
  }

  /**
   * `gemini_response_to_openai` as written: after building the choices and the usage it reads
   * `responseId`, which is not one of `ResponseModelFields`, and the read raises AttributeError.
   */
  function ResponseToOpenAIAsWritten(resp: Response, req: OpenAI.ChatRequest, codec: Codec, uuidHex: string, now: int,
                                     parseIso: string -> Option<int>): Result<OpenAI.ChatResponse, Exception>
    requires Utils.IsUuidHex(uuidHex)
  {
    if "responseId" in ResponseModelFields then Ok(ResponseToOpenAI(resp, req, codec, uuidHex, now, parseIso))
    else Err(AttributeError)
  }

  /** Every complete response fails in the translation as written. */
  lemma ResponseAsWrittenAlwaysFails(resp: Response, req: OpenAI.ChatRequest, codec: Codec, uuidHex: string, now: int,
                                     parseIso: string -> Option<int>)
    requires Utils.IsUuidHex(uuidHex)
    ensures ResponseToOpenAIAsWritten(resp, req, codec, uuidHex, now, parseIso) == Err(AttributeError)
  {
    assert ResponseModelFields[0][0] != 'r' && ResponseModelFields[1][0] != 'r';
  }

  /** `gemini_response_to_openai` reading the response's id, model version and creation time when present. */
  function ResponseToOpenAI(resp: Response, req: OpenAI.ChatRequest, codec: Codec, uuidHex: string, now: int,
                            parseIso: string -> Option<int>): (r: OpenAI.ChatResponse)
    requires Utils.IsUuidHex(uuidHex)
    ensures StartsWith(r.id, "chatcmpl-")
    ensures resp.responseId.Some? && resp.responseId.value != "" ==> r.id[9..] == resp.responseId.value
    ensures resp.modelVersion.None? || resp.modelVersion.value == "" ==> r.model == req.model
    ensures r.kind == "chat.completion" && r.choices == AllChoices(resp.candidates, codec)
    ensures r.usage == UsageOf(ValidatedUsage(resp.usageMetadata))
  {
    var id := if resp.responseId.Some? && resp.responseId.value != "" then "chatcmpl-" + resp.responseId.value
              else Utils.GenerateResponseId("chatcmpl", uuidHex);
    var model := if resp.modelVersion.Some? && resp.modelVersion.value != "" then resp.modelVersion.value else req.model;
    OpenAI.ChatResponse(id, "chat.completion", CreatedTimestamp(resp.createTime, now, parseIso), model,
      AllChoices(resp.candidates, codec), UsageOf(ValidatedUsage(resp.usageMetadata)))
  }

  // ---------------------------------------------------------------------------------------------
  // Embeddings

  /** `{"parts": [{"text": text}]}`. */
  function TextContentJson(text: string): Json {
    JObj([Member("parts", JArr([JObj([Member("text", JStr(text))])]))])
  }

  /** One entry of a batch embedding request. */
  function EmbedRequestFor(model: string, text: string): Json {
    JObj([Member("model", JStr(model)), Member("content", TextContentJson(text))])
  }

  /** The batch entries of an input list: one per string item, in order; other items are skipped. */
  function BatchRequests(inputs: seq<Json>, model: string): (r: seq<Json>)
    ensures |r| <= |inputs|
  {
    if inputs == [] then []
    else (if inputs[0].JStr? then [EmbedRequestFor(model, inputs[0].s)] else []) + BatchRequests(inputs[1..], model)
  }

  /** The string items of an input list, in order. */
  function StringItems(inputs: seq<Json>): seq<string> {
    if inputs == [] then []
    else (if inputs[0].JStr? then [inputs[0].s] else []) + StringItems(inputs[1..])
  }

  /** A batch holds exactly one request per string item, carrying that string, in input order. */
  lemma {:induction false} BatchRequestsMatchStrings(inputs: seq<Json>, model: string)
    ensures |BatchRequests(inputs, model)| == |StringItems(inputs)|
    ensures forall k :: 0 <= k < |StringItems(inputs)| ==> BatchRequests(inputs, model)[k] == EmbedRequestFor(model, StringItems(inputs)[k])
  {
    if inputs != [] {
      BatchRequestsMatchStrings(inputs[1..], model);
    }
  }

  /** `openai_embedding_request_transformer`: the action, the model and the request body. */
  datatype EmbeddingCall = EmbeddingCall(action: string, model: string, body: Object)

  function EmbeddingRequestSpec(req: OpenAI.EmbeddingRequest): (r: Result<EmbeddingCall, Exception>)
    ensures r.Err? <==> !req.input.JArr? && !req.input.JStr?
    ensures r.Ok? ==> r.value.model == req.model && r.value.action in Utils.EmbeddingActions
  {
    match req.input
    case JArr(items) => Ok(EmbeddingCall("batchEmbedContents", req.model, [Member("requests", JArr(BatchRequests(items, req.model)))]))
    case JStr(s) => Ok(EmbeddingCall("embedContent", req.model, [Member("content", TextContentJson(s))]))
    case _ => Err(TypeError)
  }

  /** `openai_embedding_request_transformer`, building the batch with its loop. */
  method EmbeddingRequestTransformer(req: OpenAI.EmbeddingRequest) returns (r: Result<EmbeddingCall, Exception>)
    ensures r == EmbeddingRequestSpec(req)
  {
    if req.input.JArr? {
      var items := req.input.items;
      var requests: seq<Json> := [];
      var i := 0;
      while i < |items|
        invariant 0 <= i <= |items|
        invariant requests + BatchRequests(items[i..], req.model) == BatchRequests(items, req.model)
      {
        assert items[i..][1..] == items[i + 1..];
        if items[i].JStr? {
          requests := requests + [EmbedRequestFor(req.model, items[i].s)];
        }
        i := i + 1;
      }
      assert items[i..] == [];
      assert requests + [] == requests;
      return Ok(EmbeddingCall("batchEmbedContents", req.model, [Member("requests", JArr(requests))]));
    } else if req.input.JStr? {
      return Ok(EmbeddingCall("embedContent", req.model, [Member("content", TextContentJson(req.input.s))]));
    }
    return Err(TypeError);
  }

  /** `gemini_response_to_openai_embedding`: one entry per vector, indexed by position, usage all zero. */
  method ResponseToOpenAIEmbedding(resp: EmbeddingResult, req: OpenAI.EmbeddingRequest) returns (r: OpenAI.EmbeddingResponse)
    ensures r.model == req.model && r.kind == "list" && r.usage == OpenAI.Usage(0, 0, 0)
    ensures resp.EmbedContentResponse? ==> r.data == [OpenAI.EmbeddingData("embedding", resp.embedding, 0)]
    ensures resp.BatchEmbedContentResponse? ==>
      && |r.data| == |resp.embeddings|
      && forall k :: 0 <= k < |r.data| ==> r.data[k] == OpenAI.EmbeddingData("embedding", resp.embeddings[k], k)
  {
    var data: seq<OpenAI.EmbeddingData> := [];
    if resp.EmbedContentResponse? {
      data := data + [OpenAI.EmbeddingData("embedding", resp.embedding, 0)];
    } else {
      for i := 0 to |resp.embeddings|
        invariant |data| == i
        invariant forall k :: 0 <= k < i ==> data[k] == OpenAI.EmbeddingData("embedding", resp.embeddings[k], k)
      {
        data := data + [OpenAI.EmbeddingData("embedding", resp.embeddings[i], i)];
      }
    }
    return OpenAI.EmbeddingResponse("list", data, req.model, OpenAI.Usage(0, 0, 0));
  }
}
