/**
 * The first-generation OpenAI adapter.  It builds the Gemini payload as a plain dict and reads
 * Gemini's answers as plain dicts, so the model works on JSON values and states Python's own
 * failures (AttributeError, TypeError, KeyError) where a value has the wrong shape.  Requests use
 * the same fields as the current OpenAI request model.
 */
module LegacyOpenAI {
  import opened Wrappers
  import opened Json
  import opened Strs
  import OpenAI
  import OpenAIAdapter
  import Utils

  // ---------------------------------------------------------------------------------------------
  // Finish reasons

  /** `_map_finish_reason`: only the three known reasons map; anything else, a missing one included, is None. */
  function MapFinishReason(reason: Json): (r: Option<string>)
    ensures reason == JStr("STOP") ==> r == Some("stop")
    ensures reason == JStr("MAX_TOKENS") ==> r == Some("length")
    ensures reason == JStr("SAFETY") || reason == JStr("RECITATION") ==> r == Some("content_filter")
    ensures reason !in {JStr("STOP"), JStr("MAX_TOKENS"), JStr("SAFETY"), JStr("RECITATION")} ==> r.None?
  {
    if reason == JStr("STOP") then Some("stop")
    else if reason == JStr("MAX_TOKENS") then Some("length")
    else if reason == JStr("SAFETY") || reason == JStr("RECITATION") then Some("content_filter")
    else None
  }

  // ---------------------------------------------------------------------------------------------
  // Request parts

  /** Every role but "assistant" is sent as "user". */
  function LegacyRole(role: string): (r: string)
    ensures r in {"model", "user"}
    ensures r == "model" <==> role == "assistant"
  {
    if role == "assistant" then "model" else "user"
  }

  /**
   * The three splits of an image URL: on ';', then the first piece on ':', then the second on ','.
   * Each must give exactly two pieces, or the image is dropped: the URL is used iff it holds one
   * ';', with one ':' before it and one ',' after it.
   */
  function ImageUrlPieces(url: string): (r: Option<(string, string)>)
    ensures (SplitPieces(url, ';');
      r.Some? <==> Count(url, ';') == 1 && Count(Split(url, ';')[0], ':') == 1 && Count(Split(url, ';')[1], ',') == 1)
    ensures r.Some? ==> ':' !in r.value.0 && ',' !in r.value.1
  {
    var halves := Split(url, ';');
    SplitPieces(url, ';');
    if |halves| != 2 then None
    else
      var header := Split(halves[0], ':');
      var payload := Split(halves[1], ',');
      SplitPieces(halves[0], ':');
      SplitPieces(halves[1], ',');
      if |header| != 2 || |payload| != 2 then None
      else
        SplitPiecesFree(halves[0], ':');
        SplitPiecesFree(halves[1], ',');
        Some((header[1], payload[1]))
  }

  function InlineDataJson(mime: string, data: string): Json {
    JObj([Member("inlineData", JObj([Member("mimeType", JStr(mime)), Member("data", JStr(data))]))])
  }

  /**
   * One item of a list content: text as `{"text": ...}`, a usable image URL as `inlineData`,
   * anything else nothing.  An `image_url` that is not a dict, or a truthy URL that is not a
   * string, raises AttributeError.
   */
  function LegacyPart(part: Object): (r: Result<Option<Json>, Exception>)
    ensures GetOrNull(part, "type") == JStr("text") ==> r == Ok(Some(JObj([Member("text", Get(part, "text", JStr("")))])))
    ensures GetOrNull(part, "type") !in {JStr("text"), JStr("image_url")} ==> r == Ok(None)
  {
    var kind := GetOrNull(part, "type");
    if kind == JStr("text") then Ok(Some(JObj([Member("text", Get(part, "text", JStr("")))])))
    else if kind == JStr("image_url") then
      var url :- DictGet(Get(part, "image_url", JObj([])), "url", JNull);
      if !Truthy(url) then Ok(None)
      else if !url.JStr? then Err(AttributeError)
      else
        match ImageUrlPieces(url.s)
        case None => Ok(None)
        case Some((mime, data)) => Ok(Some(InlineDataJson(mime, data)))
    else Ok(None)
  }

  /** A URL built from its four pieces splits back into the MIME type and the data. */
  lemma ImageUrlPiecesInverse(scheme: string, mime: string, encoding: string, data: string)
    requires ':' !in scheme && ';' !in scheme && ':' !in mime && ';' !in mime
    requires ',' !in encoding && ';' !in encoding && ',' !in data && ';' !in data
    ensures ImageUrlPieces(scheme + [':'] + mime + [';'] + encoding + [','] + data) == Some((mime, data))
  {
    var header := scheme + [':'] + mime;
    var payload := encoding + [','] + data;
    var url := scheme + [':'] + mime + [';'] + encoding + [','] + data;
    assert url == header + [';'] + payload;
    SeparatorAbsent(scheme, ':', mime, ';');
    SeparatorAbsent(encoding, ',', data, ';');
    SplitAfter(header, ';', payload);
    SplitWhole(payload, ';');
    assert Split(url, ';') == [header, payload];
    SplitAfter(scheme, ':', mime);
    SplitWhole(mime, ':');
    assert Split(header, ':') == [scheme, mime];
    SplitAfter(encoding, ',', data);
    SplitWhole(data, ',');
    assert Split(payload, ',') == [encoding, data];
  }

  /** A character absent from both sides and other than the joining one is absent from the join. */
  lemma SeparatorAbsent(a: string, joint: char, b: string, sep: char)
    requires sep !in a && sep !in b && sep != joint
    ensures sep !in a + [joint] + b
  {
    var s := a + [joint] + b;
    forall k | 0 <= k < |s| ensures s[k] != sep {
      if k > |a| {
        assert s[k] == b[k - |a| - 1];
      }
    }
  }

  /** A base64 data URL whose MIME type has no ':' or ';' becomes exactly that inline data. */
  lemma ImageUrlRoundTrip(mime: string, data: string)
    requires ':' !in mime && ';' !in mime && ',' !in data && ';' !in data
    ensures ImageUrlPieces("data:" + mime + ";base64," + data) == Some((mime, data))
  {
    assert "data:" + mime + ";base64," + data == "data" + [':'] + mime + [';'] + "base64" + [','] + data;
    ImageUrlPiecesInverse("data", mime, "base64", data);
  }

  /** A data URL with a parameter before `base64` has a second ';' and is silently dropped. */
  lemma ParameterizedImageUrlDropped(mime: string, param: string, data: string)
    requires ';' !in mime && ';' !in param
    ensures ImageUrlPieces("data:" + mime + ";" + param + ";base64," + data) == None
  {
    var a := "data:" + mime;
    assert ';' !in a by {
      assert forall k :: 0 <= k < 5 ==> a[k] != ';';
      assert forall k :: 5 <= k < |a| ==> a[k] == mime[k - 5];
    }
    var rest := param + ";base64," + data;
    assert "data:" + mime + ";" + param + ";base64," + data == a + [';'] + rest;
    assert rest == param + [';'] + ("base64," + data);
    SplitAfter(a, ';', rest);
    SplitAfter(param, ';', "base64," + data);
  }

  function LegacyPartsSpec(parts: seq<Object>): (r: Result<seq<Json>, Exception>)
    ensures r.Ok? ==> |r.value| <= |parts|
  {
    if parts == [] then Ok([]) else Prepend(LegacyPart(parts[0]), LegacyPartsSpec(parts[1..]))
  }

  lemma PartsStep(parts: seq<Object>, i: nat)
    requires i < |parts|
    ensures LegacyPartsSpec(parts[i..]) == Prepend(LegacyPart(parts[i]), LegacyPartsSpec(parts[i + 1..]))
  {
    assert parts[i..][0] == parts[i];
    assert parts[i..][1..] == parts[i + 1..];
  }

  /** The inner loop of `openai_request_to_gemini` over a list content. */
  method LegacyParts(parts: seq<Object>) returns (r: Result<seq<Json>, Exception>)
    ensures r == LegacyPartsSpec(parts)
  {
    var out: seq<Json> := [];
    assert parts[0..] == parts;
    var spec := LegacyPartsSpec(parts);
    if spec.Ok? {
      assert [] + spec.value == spec.value;
    }
    for i := 0 to |parts|
      invariant LegacyPartsSpec(parts) == AfterDone(out, LegacyPartsSpec(parts[i..]))
    {
      var part := LegacyPart(parts[i]);
      PartsStep(parts, i);
      AfterPrepend(out, part, LegacyPartsSpec(parts[i + 1..]));
      if part.Err? {
        return Err(part.error);
      }
      if part.value.Some? {
        out := out + [part.value.value];
      } else {
        assert out + [] == out;
      }
    }
    assert parts[|parts|..] == [];
    assert out + [] == out;
    return Ok(out);
  }

  // ---------------------------------------------------------------------------------------------
  // Request

  function ContentJson(role: string, parts: seq<Json>): Json {
    JObj([Member("role", JStr(role)), Member("parts", JArr(parts))])
  }

  /** One message's content: always present, even with no parts; a string (or None) becomes one text part. */
  function LegacyContentSpec(m: OpenAI.ChatMessage): (r: Result<Json, Exception>)
    ensures m.content.TextContent? ==> r == Ok(ContentJson(LegacyRole(m.role), [JObj([Member("text", JStr(m.content.text))])]))
    ensures m.content.NoContent? ==> r == Ok(ContentJson(LegacyRole(m.role), [JObj([Member("text", JNull)])]))
  {
    match m.content
    case PartsContent(parts) =>
      var ps :- LegacyPartsSpec(parts);
      Ok(ContentJson(LegacyRole(m.role), ps))
    case TextContent(s) => Ok(ContentJson(LegacyRole(m.role), [JObj([Member("text", JStr(s))])]))
    case NoContent => Ok(ContentJson(LegacyRole(m.role), [JObj([Member("text", JNull)])]))
  }

  /** The contents: one per message, in order. */
  function LegacyContentsSpec(messages: seq<OpenAI.ChatMessage>): (r: Result<seq<Json>, Exception>)
    ensures r.Ok? ==> |r.value| == |messages|
  {
    if messages == [] then Ok([]) else Cons(LegacyContentSpec(messages[0]), LegacyContentsSpec(messages[1..]))
  }

  lemma ContentsStep(messages: seq<OpenAI.ChatMessage>, i: nat)
    requires i < |messages|
    ensures LegacyContentsSpec(messages[i..]) == Cons(LegacyContentSpec(messages[i]), LegacyContentsSpec(messages[i + 1..]))
  {
    assert messages[i..][0] == messages[i];
    assert messages[i..][1..] == messages[i + 1..];
  }

  /** Each content carries its message's role mapping, message by message. */
  lemma {:induction false} ContentsKeepRoles(messages: seq<OpenAI.ChatMessage>)
    requires LegacyContentsSpec(messages).Ok?
    ensures forall k :: 0 <= k < |messages| ==>
      LegacyContentsSpec(messages).value[k].JObj? && Lookup(LegacyContentsSpec(messages).value[k].members, "role") == Some(JStr(LegacyRole(messages[k].role)))
  {
    if messages != [] {
      ContentsKeepRoles(messages[1..]);
      assert forall k :: 1 <= k < |messages| ==> messages[k] == messages[1..][k - 1];
    }
  }

  /**
   * The members the generation config is filtered from: the eight sampling members the second
   * generation sends too, then `responseMimeType`, None unless a JSON object is requested.
   */
  function ConfigCandidates(req: OpenAI.ChatRequest): (r: Object)
    ensures |r| == 9 && r[..8] == OpenAIAdapter.BaseConfig(req)
    ensures r[8].key == "responseMimeType"
    ensures r[8].value != JNull <==> OpenAIAdapter.JsonObjectRequested(req.responseFormat)
  {
    OpenAIAdapter.BaseConfig(req)
    + [Member("responseMimeType", if OpenAIAdapter.JsonObjectRequested(req.responseFormat) then JStr("application/json") else JNull)]
  }

  /** The generation config: the settings the request sets, None values left out. */
  function LegacyGenerationConfig(req: OpenAI.ChatRequest): (r: Object)
    ensures forall m :: m in r ==> m.value != JNull
  {
    DropNone(ConfigCandidates(req))
  }

  /** `responseMimeType` is sent exactly when a JSON object is requested, and then as "application/json". */
  lemma LegacyJsonModeIff(req: OpenAI.ChatRequest)
    ensures Member("responseMimeType", JStr("application/json")) in LegacyGenerationConfig(req) <==> OpenAIAdapter.JsonObjectRequested(req.responseFormat)
    ensures !OpenAIAdapter.JsonObjectRequested(req.responseFormat) ==> forall m :: m in LegacyGenerationConfig(req) ==> m.key != "responseMimeType"
  {
    var c := ConfigCandidates(req);
    forall k | 0 <= k < 8 ensures c[k].key != "responseMimeType" {
      assert c[k] == c[..8][k];
    }
    if !OpenAIAdapter.JsonObjectRequested(req.responseFormat) {
      DropNoneKeyGone(c, "responseMimeType");
    }
  }

  /** Both generations of the translation build the same generation config from a request. */
  lemma SameGenerationConfig(req: OpenAI.ChatRequest)
    ensures LegacyGenerationConfig(req) == OpenAIAdapter.GenerationConfig(req)
  {
    NoneOrAbsent(OpenAIAdapter.BaseConfig(req), "responseMimeType", JStr("application/json"),
                 OpenAIAdapter.JsonObjectRequested(req.responseFormat));
  }

  /** A last member that is None when unset filters to the same dict as one left out when unset. */
  lemma NoneOrAbsent(base: Object, key: string, value: Json, present: bool)
    requires value != JNull
    ensures DropNone(base + [Member(key, if present then value else JNull)]) == DropNone(base + (if present then [Member(key, value)] else []))
  {
    var last := Member(key, if present then value else JNull);
    DropNoneAppend(base, [last]);
    assert [last][1..] == [];
    if !present {
      assert base + [] == base;
      assert DropNone(base) + [] == DropNone(base);
    }
  }

  /** A single stop string is sent as a one-element list. */
  lemma StopStringListed(req: OpenAI.ChatRequest, s: string)
    requires req.stop == Some(OpenAI.StopOne(s))
    ensures Member("stopSequences", JArr([JStr(s)])) in LegacyGenerationConfig(req)
  {
    assert ConfigCandidates(req)[3] == ConfigCandidates(req)[..8][3] == Member("stopSequences", JArr([JStr(s)]));
  }

  /** The payload dict, keys in the order the source writes them. */
  function Payload(contents: seq<Json>, config: Object, safetySettings: seq<Json>, model: string): (r: Object)
    ensures Lookup(r, "contents") == Some(JArr(contents))
    ensures Lookup(r, "generationConfig") == Some(JObj(config))
    ensures Lookup(r, "safetySettings") == Some(JArr(safetySettings))
    ensures Lookup(r, "model") == Some(JStr(model))
  {
    var payload := [Member("contents", JArr(contents)), Member("generationConfig", JObj(config)),
                    Member("safetySettings", JArr(safetySettings)), Member("model", JStr(model))];
    assert payload[0].key[0] != 'g' && payload[0].key[0] != 's' && payload[1].key[0] != 's';
    assert payload[0].key[0] != 'm' && payload[1].key[0] != 'm' && payload[2].key[0] != 'm';
    LookupAt(payload, "generationConfig", 1);
    LookupAt(payload, "safetySettings", 2);
    LookupAt(payload, "model", 3);
    payload
  }

  /** `openai_request_to_gemini` (first generation): contents, generation config, the default safety settings and the model. */
  function RequestToGeminiSpec(req: OpenAI.ChatRequest, safetySettings: seq<Json>): (r: Result<Object, Exception>)
    ensures r.Ok? <==> LegacyContentsSpec(req.messages).Ok?
  {
    var contents :- LegacyContentsSpec(req.messages);
    Ok(Payload(contents, LegacyGenerationConfig(req), safetySettings, req.model))
  }

  /** The loop body of `openai_request_to_gemini`: one message's content. */
  method MessageContent(message: OpenAI.ChatMessage) returns (r: Result<Json, Exception>)
    ensures r == LegacyContentSpec(message)
  {
    var role := LegacyRole(message.role);
    match message.content {
      case PartsContent(parts) =>
        var ps := LegacyParts(parts);
        if ps.Err? {
          return Err(ps.error);
        }
        r := Ok(ContentJson(role, ps.value));
      case TextContent(s) =>
        r := Ok(ContentJson(role, [JObj([Member("text", JStr(s))])]));
      case NoContent =>
        r := Ok(ContentJson(role, [JObj([Member("text", JNull)])]));
    }
  }

  /** `openai_request_to_gemini` (first generation), with its loops. */
  method RequestToGemini(req: OpenAI.ChatRequest, safetySettings: seq<Json>) returns (r: Result<Object, Exception>)
    ensures r == RequestToGeminiSpec(req, safetySettings)
  {
    var messages := req.messages;
    var contents: seq<Json> := [];
    assert messages[0..] == messages;
    var spec := LegacyContentsSpec(messages);
    if spec.Ok? {
      assert [] + spec.value == spec.value;
    }
    for i := 0 to |messages|
      invariant LegacyContentsSpec(messages) == AfterDone(contents, LegacyContentsSpec(messages[i..]))
    {
      var content := MessageContent(messages[i]);
      ContentsStep(messages, i);
      AfterCons(contents, content, LegacyContentsSpec(messages[i + 1..]));
      if content.Err? {
        return Err(content.error);
      }
      contents := contents + [content.value];
    }
    assert messages[|messages|..] == [];
    assert contents + [] == contents;
    return Ok(Payload(contents, LegacyGenerationConfig(req), safetySettings, req.model));
  }

  /**
   * Every message gives exactly one content, so a translated request has as many contents as
   * messages; the generation config, the safety settings and the model go in as they are.
   */
  lemma OneContentPerMessage(req: OpenAI.ChatRequest, safetySettings: seq<Json>)
    requires RequestToGeminiSpec(req, safetySettings).Ok?
    ensures var payload := RequestToGeminiSpec(req, safetySettings).value;
      && Lookup(payload, "contents") == Some(JArr(LegacyContentsSpec(req.messages).value))
      && |LegacyContentsSpec(req.messages).value| == |req.messages|
      && Lookup(payload, "generationConfig") == Some(JObj(LegacyGenerationConfig(req)))
      && Lookup(payload, "safetySettings") == Some(JArr(safetySettings))
      && Lookup(payload, "model") == Some(JStr(req.model))
  {
  }

  // ---------------------------------------------------------------------------------------------
  // Responses, read as plain dicts

  function KeysJson(ms: Object): seq<Json> {
    if ms == [] then [] else [JStr(ms[0].key)] + KeysJson(ms[1..])
  }

  function CharsJson(s: string): seq<Json> {
    if s == [] then [] else [JStr([s[0]])] + CharsJson(s[1..])
  }

  /** Python's `for x in value`: a list's items, a dict's keys, a string's characters; anything else raises TypeError. */
  function PyIter(j: Json): (r: Result<seq<Json>, Exception>)
    ensures j.JArr? ==> r == Ok(j.items)
  {
    match j
    case JArr(items) => Ok(items)
    case JObj(ms) => Ok(KeysJson(ms))
    case JStr(s) => Ok(CharsJson(s))
    case _ => Err(TypeError)
  }

  /** Python's `value[0]` on a non-empty value: a list's first item, a string's first character. */
  function PyFirst(j: Json): Result<Json, Exception>
    requires Truthy(j)
  {
    match j
    case JArr(items) => Ok(items[0])
    case JStr(s) => Ok(JStr([s[0]]))
    case JObj(_) => Err(KeyError)
    case _ => Err(TypeError)
  }

  /** `parts[0].get("text", "") if parts else ""`. */
  function FirstPartText(parts: Json): (r: Result<Json, Exception>)
    ensures !Truthy(parts) ==> r == Ok(JStr(""))
    ensures parts.JArr? && parts.items != [] && parts.items[0].JObj? ==> r == Ok(Get(parts.items[0].members, "text", JStr("")))
  {
    if !Truthy(parts) then Ok(JStr(""))
    else
      var first :- PyFirst(parts);
      DictGet(first, "text", JStr(""))
  }

  /** One candidate as a complete choice: the first part's text as the message content. */
  function CandidateChoice(c: Json): (r: Result<Json, Exception>)
    ensures !c.JObj? ==> r == Err(AttributeError)
  {
    if !c.JObj? then Err(AttributeError)
    else
      var content := Get(c.members, "content", JObj([]));
      var role :- DictGet(content, "role", JStr("model"));
      var parts :- DictGet(content, "parts", JArr([]));
      var text :- FirstPartText(parts);
      Ok(JObj([Member("index", Get(c.members, "index", JInt(0))),
               Member("message", JObj([Member("role", JStr(if Truthy(role) then "assistant" else "user")), Member("content", text)])),
               Member("finish_reason", OptStr(MapFinishReason(GetOrNull(c.members, "finishReason"))))]))
  }

  /** One candidate as a stream choice: the first part's text as the delta. */
  function CandidateDelta(c: Json): (r: Result<Json, Exception>)
    ensures !c.JObj? ==> r == Err(AttributeError)
  {
    if !c.JObj? then Err(AttributeError)
    else
      var parts :- DictGet(Get(c.members, "content", JObj([])), "parts", JArr([]));
      var text :- FirstPartText(parts);
      Ok(JObj([Member("index", Get(c.members, "index", JInt(0))),
               Member("delta", JObj([Member("content", text)])),
               Member("finish_reason", OptStr(MapFinishReason(GetOrNull(c.members, "finishReason"))))]))
  }

  /** `[f(x) for x in xs]` that stops at the first exception. */
  function MapEach(xs: seq<Json>, f: Json -> Result<Json, Exception>): (r: Result<seq<Json>, Exception>)
    ensures r.Ok? ==> |r.value| == |xs| && forall k :: 0 <= k < |xs| ==> f(xs[k]) == Ok(r.value[k])
    ensures r.Err? ==> exists k :: 0 <= k < |xs| && f(xs[k]) == Err(r.error)
  {
    if xs == [] then Ok([]) else Cons(f(xs[0]), MapEach(xs[1..], f))
  }

  lemma MapEachStep(xs: seq<Json>, i: nat, f: Json -> Result<Json, Exception>)
    requires i < |xs|
    ensures MapEach(xs[i..], f) == Cons(f(xs[i]), MapEach(xs[i + 1..], f))
  {
    assert xs[i..][0] == xs[i];
    assert xs[i..][1..] == xs[i + 1..];
  }

  /** The loop over the candidates: one choice per candidate, in order. */
  method CollectChoices(candidates: seq<Json>, f: Json -> Result<Json, Exception>) returns (r: Result<seq<Json>, Exception>)
    ensures r == MapEach(candidates, f)
  {
    var choices: seq<Json> := [];
    assert candidates[0..] == candidates;
    var spec := MapEach(candidates, f);
    if spec.Ok? {
      assert [] + spec.value == spec.value;
    }
    for i := 0 to |candidates|
      invariant MapEach(candidates, f) == AfterDone(choices, MapEach(candidates[i..], f))
    {
      var choice := f(candidates[i]);
      MapEachStep(candidates, i, f);
      AfterCons(choices, choice, MapEach(candidates[i + 1..], f));
      if choice.Err? {
        return Err(choice.error);
      }
      choices := choices + [choice.value];
    }
    assert candidates[|candidates|..] == [];
    assert choices + [] == choices;
    return Ok(choices);
  }

  /** `gemini_response_to_openai` (first generation); the id is a fresh uuid's text, `created` the current time. */
  function ResponseToOpenAISpec(resp: Object, model: string, uuidHex: string, now: int): (r: Result<Json, Exception>)
    requires Utils.IsUuidHex(uuidHex)
    ensures r.Ok? ==> r.value.JObj? && Lookup(r.value.members, "model") == Some(JStr(model))
    ensures !HasKey(resp, "candidates") ==> r.Ok? && Lookup(r.value.members, "choices") == Some(JArr([]))
  {
    var candidates :- PyIter(Get(resp, "candidates", JArr([])));
    var choices :- MapEach(candidates, CandidateChoice);
    var ms := [Member("id", JStr(Utils.UuidText(uuidHex))), Member("object", JStr("chat.completion")), Member("created", JInt(now)),
               Member("model", JStr(model)), Member("choices", JArr(choices))];
    assert ms[0].key[0] != 'm' && ms[1].key[0] != 'm' && ms[2].key[0] != 'm';
    assert ms[0].key[0] != 'c' && ms[1].key[0] != 'c' && ms[2].key[1] != 'h' && ms[3].key[0] != 'c';
    LookupAt(ms, "model", 3);
    LookupAt(ms, "choices", 4);
    Ok(JObj(ms))
  }

  method ResponseToOpenAI(resp: Object, model: string, uuidHex: string, now: int) returns (r: Result<Json, Exception>)
    requires Utils.IsUuidHex(uuidHex)
    ensures r == ResponseToOpenAISpec(resp, model, uuidHex, now)
  {
    var candidates := PyIter(Get(resp, "candidates", JArr([])));
    if candidates.Err? {
      return Err(candidates.error);
    }
    var choices := CollectChoices(candidates.value, CandidateChoice);
    if choices.Err? {
      return Err(choices.error);
    }
    return Ok(JObj([Member("id", JStr(Utils.UuidText(uuidHex))), Member("object", JStr("chat.completion")), Member("created", JInt(now)),
                    Member("model", JStr(model)), Member("choices", JArr(choices.value))]));
  }

  /** `gemini_stream_chunk_to_openai` (first generation): the given id and model, one delta choice per candidate. */
  function StreamChunkToOpenAISpec(chunk: Object, model: string, responseId: string, now: int): (r: Result<Json, Exception>)
    ensures r.Ok? ==> r.value.JObj? && Lookup(r.value.members, "id") == Some(JStr(responseId))
    ensures r.Ok? ==> r.value.JObj? && Lookup(r.value.members, "model") == Some(JStr(model))
  {
    var candidates :- PyIter(Get(chunk, "candidates", JArr([])));
    var choices :- MapEach(candidates, CandidateDelta);
    var ms := [Member("id", JStr(responseId)), Member("object", JStr("chat.completion.chunk")), Member("created", JInt(now)),
               Member("model", JStr(model)), Member("choices", JArr(choices))];
    assert ms[0].key[0] != 'm' && ms[1].key[0] != 'm' && ms[2].key[0] != 'm';
    LookupAt(ms, "model", 3);
    Ok(JObj(ms))
  }

  method StreamChunkToOpenAI(chunk: Object, model: string, responseId: string, now: int) returns (r: Result<Json, Exception>)
    ensures r == StreamChunkToOpenAISpec(chunk, model, responseId, now)
  {
    var candidates := PyIter(Get(chunk, "candidates", JArr([])));
    if candidates.Err? {
      return Err(candidates.error);
    }
    var choices := CollectChoices(candidates.value, CandidateDelta);
    if choices.Err? {
      return Err(choices.error);
    }
    return Ok(JObj([Member("id", JStr(responseId)), Member("object", JStr("chat.completion.chunk")), Member("created", JInt(now)),
                    Member("model", JStr(model)), Member("choices", JArr(choices.value))]));
  }

  /**
   * A well-formed candidate list gives one stream choice per candidate, in order, each carrying
   * its candidate's index and the first part's text.
   */
  lemma StreamChoicePerCandidate(candidates: seq<Json>, k: nat)
    requires MapEach(candidates, CandidateDelta).Ok? && k < |candidates|
    ensures var c := candidates[k];
      c.JObj? && Lookup(MapEach(candidates, CandidateDelta).value[k].members, "index") == Some(Get(c.members, "index", JInt(0)))
  {
    var r := MapEach(candidates, CandidateDelta).value;
    assert CandidateDelta(candidates[k]) == Ok(r[k]);
    DeltaIndex(candidates[k]);
  }

  lemma DeltaIndex(c: Json)
    requires CandidateDelta(c).Ok?
    ensures c.JObj? && CandidateDelta(c).value.JObj?
    ensures Lookup(CandidateDelta(c).value.members, "index") == Some(Get(c.members, "index", JInt(0)))
  {
  }

  /** The legacy and current adapters disagree on unknown reasons: None here, "stop" in the current one. */
  lemma LegacyFinishReasonDiffers()
    ensures MapFinishReason(JStr("OTHER")).None?
    ensures MapFinishReason(JNull).None?
  {
  }
}
