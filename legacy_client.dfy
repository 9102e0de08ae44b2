/**
 * The first-generation upstream client: building the Code Assist request (URL, headers, the
 * `{model, project, request}` envelope), reading the reply (errors, one `data: ` prefix on a
 * complete body, the stream re-framed line by line), and the two payload builders.
 */
module LegacyClient {
  import opened Wrappers
  import opened Json
  import opened Strs
  import opened Gemini
  import Formatters

  const CodeAssistEndpoint: string := "https://cloudcode-pa.googleapis.com"

  function SafetySetting(category: string): Json {
    JObj([Member("category", JStr(category)), Member("threshold", JStr("BLOCK_NONE"))])
  }

  /** Every harm category unblocked. */
  const DefaultSafetySettings: seq<Json> := [
    SafetySetting("HARM_CATEGORY_HARASSMENT"),
    SafetySetting("HARM_CATEGORY_HATE_SPEECH"),
    SafetySetting("HARM_CATEGORY_SEXUALLY_EXPLICIT"),
    SafetySetting("HARM_CATEGORY_DANGEROUS_CONTENT"),
    SafetySetting("HARM_CATEGORY_CIVIC_INTEGRITY")]

  // ---------------------------------------------------------------------------------------------
  // The request

  function Action(streaming: bool): string {
    if streaming then "streamGenerateContent" else "generateContent"
  }

  /** The Code Assist URL for the action; only a streaming call asks for server-sent events. */
  function TargetUrl(streaming: bool): (url: string)
    ensures StartsWith(url, CodeAssistEndpoint + "/v1internal:" + Action(streaming))
    ensures EndsWith(url, "?alt=sse") <==> streaming
  {
    var base := CodeAssistEndpoint + "/v1internal:" + Action(streaming);
    assert base[|base| - 1] == 't';
    var url := if streaming then base + "?alt=sse" else base;
    assert url[..|base|] == base;
    url
  }

  /** What is posted upstream: the URL, the headers and the JSON body. */
  datatype UpstreamCall = UpstreamCall(url: string, headers: Object, body: Object)

  /** The envelope: the payload's model (None if absent), the project, and its request ({} if absent). */
  function Envelope(payload: Object, project: Json): (body: Object)
    ensures Lookup(body, "model") == Some(GetOrNull(payload, "model"))
    ensures Lookup(body, "project") == Some(project)
    ensures Lookup(body, "request") == Some(Get(payload, "request", JObj([])))
    ensures forall m :: m in body ==> m.key in {"model", "project", "request"}
  {
    var body := [Member("model", GetOrNull(payload, "model")), Member("project", project), Member("request", Get(payload, "request", JObj([])))];
    assert body[0].key[0] == 'm' && body[1].key[0] == 'p' && body[2].key[0] == 'r';
    LookupAt(body, "project", 1);
    LookupAt(body, "request", 2);
    body
  }

  /**
   * The request half of `send_gemini_request`: a missing credential and a falsy project id raise
   * before anything is sent.  The project id and the user agent come from calls this model does
   * not make; the onboarding call in between is not modelled.
   */
  function PrepareRequest(hasCredential: bool, token: string, project: Json, payload: Object, streaming: bool, userAgent: string)
    : (r: Result<UpstreamCall, Exception>)
    ensures !hasCredential ==> r == Err(RuntimeError("Invalid credential object provided."))
    ensures hasCredential && !Truthy(project) ==> r == Err(RuntimeError("Failed to get user project ID."))
    ensures r.Ok? <==> hasCredential && Truthy(project)
    ensures r.Ok? ==> r.value.url == TargetUrl(streaming) && r.value.body == Envelope(payload, project)
    ensures r.Ok? ==> Lookup(r.value.headers, "Authorization") == Some(JStr("Bearer " + token))
    ensures r.Ok? ==> Lookup(r.value.headers, "Content-Type") == Some(JStr("application/json"))
    ensures r.Ok? ==> Lookup(r.value.headers, "User-Agent") == Some(JStr(userAgent))
  {
    if !hasCredential then Err(RuntimeError("Invalid credential object provided."))
    else if !Truthy(project) then Err(RuntimeError("Failed to get user project ID."))
    else
      var headers := [Member("Authorization", JStr("Bearer " + token)), Member("Content-Type", JStr("application/json")),
                      Member("User-Agent", JStr(userAgent))];
      assert headers[0].key[0] == 'A' && headers[1].key[0] == 'C' && headers[2].key[0] == 'U';
      LookupAt(headers, "Content-Type", 1);
      LookupAt(headers, "User-Agent", 2);
      Ok(UpstreamCall(TargetUrl(streaming), headers, Envelope(payload, project)))
  }

  // ---------------------------------------------------------------------------------------------
  // The reply

  /** The upstream's answer: the status and the body text; a streamed body is read as its lines. */
  datatype Reply = Reply(status: int, text: string, lines: seq<string>)

  /**
   * The message of a failed call: `error.message` of the JSON body, the body text when that is
   * missing or the body does not decode; a body or `error` that is not a dict raises
   * AttributeError.  `pyStr` is Python's `str` of a message that is not a string.
   */
  function UpstreamErrorMessage(text: string, loads: string -> Option<Json>, pyStr: Json -> string): (r: Result<string, Exception>)
    ensures loads(text).None? ==> r == Ok(text)
    ensures r.Err? ==> r.error == AttributeError
  {
    match loads(text)
    case None => Ok(text)
    case Some(details) =>
      var err :- DictGet(details, "error", JObj([]));
      var message :- DictGet(err, "message", JStr(text));
      Ok(if message.JStr? then message.s else pyStr(message))
  }

  /** One leading `data: ` comes off a complete body, and only one. */
  function StripDataPrefix(text: string): (r: string)
    ensures StartsWith(text, "data: ") ==> "data: " + r == text
    ensures !StartsWith(text, "data: ") ==> r == text
  {
    if StartsWith(text, "data: ") then
      assert text == text[..6] + text[6..];
      text[6..]
    else text
  }

  lemma StripDataPrefixOnce(rest: string)
    ensures StripDataPrefix("data: " + rest) == rest
  {
    assert ("data: " + rest)[..6] == "data: ";
    assert ("data: " + rest)[6..] == rest;
  }

  /**
   * A complete body: decoded after the prefix comes off, its `response` validated and dumped.
   * A decode failure and any later failure raise with their own messages.
   */
  function ReadBody(text: string, loads: string -> Option<Json>, validate: ResponseValidator, dumpJson: Response -> string)
    : (r: Result<string, Exception>)
    ensures loads(StripDataPrefix(text)).None? ==> r == Err(RuntimeError("Failed to decode API response."))
    ensures r.Err? ==> r.error in {RuntimeError("Failed to decode API response."), RuntimeError("Failed to validate API response.")}
    ensures r.Ok? ==> exists obj :: loads(StripDataPrefix(text)) == Some(JObj(obj)) && validate(GetOrNull(obj, "response")).Some?
  {
    match loads(StripDataPrefix(text))
    case None => Err(RuntimeError("Failed to decode API response."))
    case Some(decoded) =>
      if !decoded.JObj? then Err(RuntimeError("Failed to validate API response."))
      else
        match validate(GetOrNull(decoded.members, "response"))
        case None => Err(RuntimeError("Failed to validate API response."))
        case Some(resp) => Ok(dumpJson(resp))
  }

  /** A body sent as one data event reads as the bare JSON would. */
  lemma DataPrefixedBodyReads(json: string, loads: string -> Option<Json>, validate: ResponseValidator, dumpJson: Response -> string)
    requires !StartsWith(json, "data: ")
    ensures ReadBody("data: " + json, loads, validate, dumpJson) == ReadBody(json, loads, validate, dumpJson)
  {
    StripDataPrefixOnce(json);
  }

  /** One line of `_stream_generator`: a `data: ` line whose JSON is a dict with a valid `response` is re-framed; anything else is dropped. */
  function StreamLine(line: string, loads: string -> Option<Json>, validate: ResponseValidator, dumpJson: Response -> string)
    : (r: Option<string>)
    ensures r.Some? <==>
      StartsWith(line, "data: ") && loads(line[6..]).Some? && loads(line[6..]).value.JObj?
      && HasKey(loads(line[6..]).value.members, "response")
      && validate(Lookup(loads(line[6..]).value.members, "response").value).Some?
    ensures r.Some? ==>
      r.value == Formatters.DataFrame(dumpJson(validate(Lookup(loads(line[6..]).value.members, "response").value).value))
      && Formatters.IsDataFrame(r.value)
  {
    if line == [] || !StartsWith(line, "data: ") then None
    else
      match loads(line[6..])
      case None => None
      case Some(obj) =>
        match PyContains(obj, "response")
        case Err(_) => None
        case Ok(false) => None
        case Ok(true) =>
          match Subscript(obj, "response")
          case Err(_) => None
          case Ok(inner) =>
            match validate(inner)
            case None => None
            case Some(resp) =>
              Formatters.DataFrameRoundTrip(dumpJson(resp));
              Some(Formatters.DataFrame(dumpJson(resp)))
  }

  function StreamSpec(lines: seq<string>, loads: string -> Option<Json>, validate: ResponseValidator, dumpJson: Response -> string)
    : (r: seq<string>)
    ensures |r| <= |lines|
    ensures forall k :: 0 <= k < |r| ==> Formatters.IsDataFrame(r[k])
  {
    if lines == [] then []
    else
      var here := StreamLine(lines[0], loads, validate, dumpJson);
      (if here.Some? then [here.value] else []) + StreamSpec(lines[1..], loads, validate, dumpJson)
  }

  lemma StreamSpecStep(lines: seq<string>, i: nat, loads: string -> Option<Json>, validate: ResponseValidator, dumpJson: Response -> string)
    requires i < |lines|
    ensures var here := StreamLine(lines[i], loads, validate, dumpJson);
      StreamSpec(lines[i..], loads, validate, dumpJson) == (if here.Some? then [here.value] else []) + StreamSpec(lines[i + 1..], loads, validate, dumpJson)
  {
    assert lines[i..][0] == lines[i];
    assert lines[i..][1..] == lines[i + 1..];
  }

  /** `_stream_generator`: the line loop; every failure inside it is swallowed. */
  method StreamGenerator(lines: seq<string>, loads: string -> Option<Json>, validate: ResponseValidator, dumpJson: Response -> string)
    returns (out: seq<string>)
    ensures out == StreamSpec(lines, loads, validate, dumpJson)
  {
    out := [];
    assert lines[0..] == lines;
    for i := 0 to |lines|
      invariant StreamSpec(lines, loads, validate, dumpJson) == out + StreamSpec(lines[i..], loads, validate, dumpJson)
    {
      StreamSpecStep(lines, i, loads, validate, dumpJson);
      var here := StreamLine(lines[i], loads, validate, dumpJson);
      ghost var rest := StreamSpec(lines[i + 1..], loads, validate, dumpJson);
      if here.Some? {
        assert out + ([here.value] + rest) == (out + [here.value]) + rest;
        out := out + [here.value];
      } else {
        assert [] + rest == rest;
      }
    }
    assert lines[|lines|..] == [];
    assert out + [] == out;
  }

  /** What the client gets: a JSON body, or the re-framed event stream. */
  datatype Delivered = JsonBody(content: string) | EventStream(frames: seq<string>)

  /** The decoders and serialisers the client relies on. */
  datatype ClientCodec = ClientCodec(loads: string -> Option<Json>, validate: ResponseValidator, dumpJson: Response -> string, pyStr: Json -> string)

  /**
   * `send_gemini_request`, given the reply the upstream sent to the prepared call: a status
   * other than 200 raises with the upstream's message.
   */
  function SendGeminiRequest(hasCredential: bool, token: string, project: Json, payload: Object, streaming: bool, userAgent: string,
                             reply: Reply, c: ClientCodec): (r: Result<Delivered, Exception>)
    ensures r.Ok? ==> reply.status == 200 && (r.value.EventStream? <==> streaming)
  {
    var call :- PrepareRequest(hasCredential, token, project, payload, streaming, userAgent);
    if reply.status != 200 then
      var message :- UpstreamErrorMessage(reply.text, c.loads, c.pyStr);
      Err(RuntimeError(message))
    else if streaming then Ok(EventStream(StreamSpec(reply.lines, c.loads, c.validate, c.dumpJson)))
    else
      var content :- ReadBody(reply.text, c.loads, c.validate, c.dumpJson);
      Ok(JsonBody(content))
  }

  /** A failed call carrying `{"error": {"message": m}}` raises with exactly `m`. */
  lemma UpstreamMessageRaised(hasCredential: bool, token: string, project: Json, payload: Object, streaming: bool, userAgent: string,
                              reply: Reply, c: ClientCodec, m: string)
    requires hasCredential && Truthy(project) && reply.status != 200
    requires c.loads(reply.text) == Some(JObj([Member("error", JObj([Member("message", JStr(m))]))]))
    ensures SendGeminiRequest(hasCredential, token, project, payload, streaming, userAgent, reply, c) == Err(RuntimeError(m))
  {
  }

  // ---------------------------------------------------------------------------------------------
  // Payload builders

  /** The keys `build_gemini_payload_from_openai` carries over into the request. */
  const OpenAIRequestKeys: set<string> :=
    {"contents", "systemInstruction", "cachedContent", "tools", "toolConfig", "safetySettings", "generationConfig"}

  /**
   * The request half of `build_gemini_payload_from_openai`: the listed keys of the payload that
   * are not None, the safety settings defaulting to the unblocked ones and the generation
   * config to {}.
   */
  function OpenAIRequest(payload: Object): (request: Object)
    ensures forall m :: m in request ==> m.value != JNull && m.key in OpenAIRequestKeys
    ensures forall m :: m in request <==> m in OpenAIRequestCandidates(payload) && m.value != JNull
  {
    DropNone(OpenAIRequestCandidates(payload))
  }

  function OpenAIRequestCandidates(payload: Object): (ms: seq<Member>)
    ensures forall m :: m in ms ==> m.key in OpenAIRequestKeys
  {
    [Member("contents", GetOrNull(payload, "contents")),
     Member("systemInstruction", GetOrNull(payload, "systemInstruction")),
     Member("cachedContent", GetOrNull(payload, "cachedContent")),
     Member("tools", GetOrNull(payload, "tools")),
     Member("toolConfig", GetOrNull(payload, "toolConfig")),
     Member("safetySettings", Get(payload, "safetySettings", JArr(DefaultSafetySettings))),
     Member("generationConfig", Get(payload, "generationConfig", JObj([])))]
  }

  /** Where the payload has no such key, the request carries the defaults. */
  lemma OpenAIRequestDefaults(payload: Object)
    ensures !HasKey(payload, "safetySettings") ==> Member("safetySettings", JArr(DefaultSafetySettings)) in OpenAIRequest(payload)
    ensures !HasKey(payload, "generationConfig") ==> Member("generationConfig", JObj([])) in OpenAIRequest(payload)
  {
    var ms := OpenAIRequestCandidates(payload);
    assert ms[5] in ms && ms[6] in ms;
  }

  /** A payload value that is None is dropped; any other carries over unchanged. */
  lemma OpenAIRequestCarriesValues(payload: Object, key: string, v: Json)
    requires key in {"contents", "systemInstruction", "cachedContent", "tools", "toolConfig"}
    requires Lookup(payload, key) == Some(v)
    ensures Member(key, v) in OpenAIRequest(payload) <==> v != JNull
  {
    var ms := OpenAIRequestCandidates(payload);
    assert ms[0] in ms && ms[1] in ms && ms[2] in ms && ms[3] in ms && ms[4] in ms;
  }

  /** The `{model, request}` payload both builders return. */
  function ModelAndRequest(model: Json, request: Object): (r: Object)
    ensures Lookup(r, "model") == Some(model)
    ensures Lookup(r, "request") == Some(JObj(request))
  {
    var r := [Member("model", model), Member("request", JObj(request))];
    assert r[1].key[0] != r[0].key[0];
    LookupAt(r, "request", 1);
    r
  }

  /** `build_gemini_payload_from_openai`: the model (None if absent) beside the request. */
  function PayloadFromOpenAI(payload: Object): (r: Object)
    ensures Lookup(r, "model") == Some(GetOrNull(payload, "model"))
    ensures Lookup(r, "request") == Some(JObj(OpenAIRequest(payload)))
  {
    ModelAndRequest(GetOrNull(payload, "model"), OpenAIRequest(payload))
  }

  /**
   * `build_gemini_payload_from_native`: the request as validated (`validate` gives the dump of
   * the fields that were set, None on a validation error), the default safety settings added
   * when the request did not set any, and the model taken from the path.
   */
  function PayloadFromNative(native: Json, modelFromPath: string, validate: Json -> Option<Object>): (r: Result<Object, Exception>)
    ensures validate(native).None? <==> r == Err(ValidationError)
    ensures r.Ok? ==> Lookup(r.value, "model") == Some(JStr(modelFromPath))
    ensures r.Ok? ==>
      var fields := validate(native).value;
      exists request :: Lookup(r.value, "request") == Some(JObj(request))
        && Lookup(request, "safetySettings")
           == (if HasKey(fields, "safetySettings") then Lookup(fields, "safetySettings") else Some(JArr(DefaultSafetySettings)))
        && forall k :: k != "safetySettings" ==> Lookup(request, k) == Lookup(fields, k)
  {
    match validate(native)
    case None => Err(ValidationError)
    case Some(fields) =>
      var request := if HasKey(fields, "safetySettings") then fields else Put(fields, "safetySettings", JArr(DefaultSafetySettings));
      Ok(ModelAndRequest(JStr(modelFromPath), request))
  }
}
