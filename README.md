# gcli-api core, modelled in Dafny

gcli-api is a proxy that puts OpenAI-, Claude- and Gemini-shaped HTTP APIs in front of Google's
Code Assist backend. This project models the proxy's core logic as Dafny functions, methods and
classes, and proves what each part promises:

- **Inbound password check** (`auth.dfy`):
  - `ProxyAuth` models the current check, `src/core/proxy_auth.py`. `src/core/auth.py` is the same file under a second name, so `ProxyAuth` covers it too.
  - `LegacyAuth` models the first-generation check, `src/auth.py`.
- **Credential pool** (`credential_pool.dfy`):
  - The `CredentialManager` class: the records loaded from the environment and from files, and the round-robin cursor.
  - A specification of the cyclic scan that retires credentials whose refresh is denied.
  - The FastAPI dependency that turns an empty pool into a 503.
- **Credential generator** (`credential_tool.dfy`): the OAuth `state` round-trip, the sanitised e-mail and the output file name.
- **Adapters**: the OpenAI adapter (`openai_adapter.dfy`), the Claude adapter (`claude_adapter.dfy`), the stateful Claude event streamer (`claude_stream.dfy`) and the formatters that choose between them (`formatters.dfy`).
  - The shared request and response types are in `gemini.dfy`, `openai_models.dfy` and `claude_models.dfy`.
- **Streaming**: the current SSE parser and stream processor (`core_streaming.dfy`), and the first-generation streaming pipeline with its thought coalescing (`legacy_streaming.dfy`).
- **First-generation upstream client and translator**: `legacy_client.dfy` and `legacy_openai.dfy`.
- **JSON-tree utilities** (`utils.dfy`): the URL builder, the user agent and platform string, client metadata, redaction, summarising and schema sanitising.
  - The first-generation `src/utils.py` holds the same user agent, platform, metadata and redaction code as `src/utils/utils.py`. The same `Utils` members model both.

## Python semantics made explicit

- JSON values are the `Json` datatype. A dict is an ordered list of members, read with Python's `get`/`in`/`[]` semantics. A value of the wrong kind raises `AttributeError` or `TypeError`, as Python would.
- `json.loads`, pydantic validation and dumping, base64, uuid and the clock are parameters of the functions that use them.
- Loops in the source are `method`s with loop invariants. Each method is proved equal to a recursive specification function, and the properties are proved about that function.
- State updated in place is a `class`: the credential manager, the Claude streamer, the stream processor and the formatter.

## Notes on the code

- **Credential records.** A record carries two flags, `is_valid` and `is_onboarded` (src/credential_manager.py:19-25). The scan of the pool does not lock a record, persist a refreshed token or retry a refresh. A `RefreshError` clears `is_valid`. Any other refresh failure only moves the scan on to the next record (src/credential_manager.py:104-143).
- **Inline credential list.** A credential list given inline that decodes to an empty JSON array counts as the list: no credential files are read after it (src/credential_manager.py:47-60).
- **Inbound password check.** There are three variants: src/auth.py:16-47, src/core/proxy_auth.py:12-47 and src/core/auth.py:10-47. All three are modelled.

## Model

| member | source | states |
|---|---|---|
| Gemini.ReadUsage | src/adapters/claude_transformers.py:189-192 | reading a counter under `if usage:` raises AttributeError iff the value is a truthy unvalidated one; validated counters are read as they are; anything else counts as no usage |
| Gemini.ValidatedUsage | src/adapters/claude_transformers.py:332-334 | the counters of a complete response are present iff they were validated, and are those counters |
| ProxyAuth.PotentialKeys | src/core/proxy_auth.py:16-24 | the query key, x-goog-api-key and x-api-key, plus the Bearer token exactly when the header starts with "Bearer " |
| ProxyAuth.AnyKeyMatches | src/core/proxy_auth.py:27 | true iff some present, non-empty candidate equals the password |
| ProxyAuth.AuthenticateUser | src/core/proxy_auth.py:12-47 | the check admits with True or fails with the 401 carrying `WWW-Authenticate: Basic`, nothing else |
| ProxyAuth.AuthenticateUserAdmits | src/core/proxy_auth.py:12-47 | a request is admitted iff a non-empty key place or the Bearer token equals the password, or the Basic header decodes to a colon-free user, ':', and the password |
| ProxyAuth.BasicPasswordSplit | src/core/proxy_auth.py:31-40 | splitting the decoded Basic text once at the first ':' yields the password iff the text is user ':' password with no ':' in the user |
| ProxyAuth.EmptyPasswordNeedsBasic | src/core/proxy_auth.py:27 | with an empty password no key can match, so without a Basic header the request is refused |
| LegacyAuth.AuthenticateUser | src/auth.py:16-47 | the older check answers "api_key_user" or the Basic user name, or fails with the 401; a user name is only returned after the Basic password matched |
| LegacyAuth.AuthenticateUserAdmits | src/auth.py:16-47 | a non-empty query key or x-goog-api-key equal to the password, or a Bearer token equal to it (even empty), gives "api_key_user"; otherwise the request is admitted exactly when the Basic header decodes to a colon-free user, ':', the password; every other request gets the 401 |
| LegacyAuth.IgnoresXApiKey | src/auth.py:18-31 | the x-api-key header does not affect the older check |
| LegacyAuth.BasicGivesUserName | src/auth.py:34-39 | when no key place matches, a Basic header holding user ':' password is answered with that user name |
| LegacyAuth.EmptyBearerDiffers | src/auth.py:27-30 | with an empty password a bare "Bearer " header is admitted by the older check and refused by the newer one |
| CoreStreaming.CarryUsage | src/core/streaming.py:56-62 | the outer `usageMetadata` is assigned only when the inner response has none, and as it is, unvalidated; the candidates are untouched |
| CoreStreaming.Interpret | src/core/streaming.py:42-87 | a payload that validates as a response is yielded as is; otherwise the wrapped or usage-only forms apply; the only exception that escapes is TypeError |
| CoreStreaming.ParseLine | src/core/streaming.py:31-92 | blank lines, lines without `data:`, empty payloads and undecodable JSON yield nothing and raise nothing; only TypeError escapes |
| CoreStreaming.ParseLinesSpec | src/core/streaming.py:24-92 | at most one chunk per line; a run only ends early on TypeError |
| CoreStreaming.ParseGoogleSse | src/core/streaming.py:24-92 | the line loop yields exactly the chunks, and raises exactly the exception, of the line-by-line specification |
| CoreStreaming.IgnoredLinesYieldNothing | src/core/streaming.py:32-40 | a stream of blank, non-data or empty-payload lines yields no chunk and no error |
| CoreStreaming.MalformedLineSkipped | src/core/streaming.py:89-92 | a line whose JSON does not decode is skipped without an error |
| CoreStreaming.WrappedResponseCarriesUsage | src/core/streaming.py:50-62 | an object wrapping a valid `response` without usage yields that response carrying the outer usage value as it is |
| CoreStreaming.UsageOnlyChunk | src/core/streaming.py:75-78 | an object with usage but no response yields a chunk with no candidates and that usage |
| CoreStreaming.ChunksRun | src/core/streaming.py:114-116 | formatting chunk by chunk yields only complete frames (ending in a blank line); only the Claude formatter changes state |
| CoreStreaming.BodyRun | src/core/streaming.py:113-120 | the body of the stream, chunks then the end-of-stream flush, is made of complete frames |
| CoreStreaming.ProcessAsWritten | src/core/streaming.py:111-132 | the processor as written: an OpenAI stream always ends with `data: [DONE]` |
| CoreStreaming.ErrorAndDoneRunTogether | src/core/streaming.py:129-132 | as written, a failing OpenAI stream ends with the error frame and `data: [DONE]` run together into one unterminated event |
| CoreStreaming.ProcessFramesTerminated | src/core/streaming.py:111-132 | with the trailing frames completed, every frame the processor yields ends with a blank line |
| CoreStreaming.CleanRunFlushesOnce | src/core/streaming.py:114-120 | without an exception the chunks' frames come first, in order, and the end-of-stream flush's frames exactly once after them, with the flush's own failure |
| CoreStreaming.DoneOnlyForOpenAI | src/core/streaming.py:131-132 | an OpenAI stream always ends with the `[DONE]` frame, even after an error; no other stream does |
| CoreStreaming.EmbeddingStreamIsOneError | src/core/streaming.py:113-129 | an embedding formatter cannot stream: the client receives one error frame |
| CoreStreaming.ClaudeChunksAreOneRun | src/core/streaming.py:114-116 | a Claude stream's frames, final state and failure are the one streamer's run over all chunks: its state carries from chunk to chunk, and the run stops at the first exception |
| CoreStreaming.ClaudeStreamWellFormed | src/core/streaming.py:113-120 | a Claude stream without an upstream exception is the streamer's events framed in order, then one error frame iff a chunk raised; those events follow the Messages streaming protocol |
| CoreStreaming.RawUsageFailsClaudeStream | src/core/streaming.py:56-62 | a Claude stream whose first content chunk carries a truthy unvalidated usage value yields only one error frame, for AttributeError |
| CoreStreaming.StreamProcessor.constructor | src/core/streaming.py:107-109 | the processor keeps the formatter it is given |
| CoreStreaming.StreamProcessor.FormatChunks | src/core/streaming.py:114-116 | the chunk loop yields the specification's frames, stops with its exception, and leaves the formatter in its state |
| CoreStreaming.StreamProcessor.Process | src/core/streaming.py:111-132 | the whole pipeline yields the corrected specification's frames: chunks, flush, at most one error frame, and `[DONE]` for OpenAI |
| CredentialPool.OptionalString | src/credential_manager.py:22-23 | an `Optional[str]` field accepts exactly None or a string |
| CredentialPool.CredentialFromInfo | src/credential_manager.py:75-96 | a dict without `refresh_token` is skipped; otherwise the record carries that token, the client id and secret with the configured defaults, is valid and not onboarded |
| CredentialPool.AddAll | src/credential_manager.py:57-59 | the inline list appends at most one valid record per entry |
| CredentialPool.LoadFromEnvSpec | src/credential_manager.py:47-62 | an empty setting is not used; a taken list was a decodable JSON array |
| CredentialPool.FileRecords | src/credential_manager.py:68-73 | one file contributes at most one valid record |
| CredentialPool.LoadFromFilesSpec | src/credential_manager.py:64-73 | the files contribute at most one valid record each |
| CredentialPool.LoadCredentialsSpec | src/credential_manager.py:38-45 | every loaded record is valid |
| CredentialPool.FilesWhenEnvUnusable | src/credential_manager.py:40-43 | an empty, undecodable or non-list setting leaves the files as the only source |
| CredentialPool.EnvListTakesPrecedence | src/credential_manager.py:38-62 | a decodable list whose entries all load is the only source, even when empty |
| CredentialPool.AddAllCompletes | src/credential_manager.py:57-59 | entries that all load are all processed and the list is taken |
| CredentialPool.PartialEnvListThenFiles | src/credential_manager.py:38-62 | a list that fails validation part way keeps the records appended before the failure, and the files are loaded after them |
| CredentialPool.FilesSkipMissingToken | src/credential_manager.py:76-78 | files whose object has no `refresh_token` contribute nothing |
| CredentialPool.Slot | src/credential_manager.py:106-108 | the cursor position after `t` advances stays inside the pool |
| CredentialPool.SlotsDistinct | src/credential_manager.py:105-108 | one round of the loop inspects each entry once |
| CredentialPool.SlotStep | src/credential_manager.py:108 | the loop's `(i + 1) % n` moves to the next slot |
| CredentialPool.Inspect | src/credential_manager.py:110-140 | an entry is handed out iff it is usable; passing over it retires it iff its refresh raised RefreshError, and changes nothing otherwise |
| CredentialPool.ScanFrom | src/credential_manager.py:105-140 | the scan keeps the pool's size and inspects at most one round |
| CredentialPool.FirstUsable | src/credential_manager.py:105-140 | reference definition: the first slot in cyclic order holding a valid entry that is fresh or refreshes |
| CredentialPool.ScanChoosesFirstUsable | src/credential_manager.py:105-144 | the scan hands out exactly the first usable entry in cyclic order from the cursor, and inspects everything before it; with none usable it inspects a whole round |
| CredentialPool.ScanOnlyRetiresDenied | src/credential_manager.py:111-140 | the scan only ever turns `is_valid` off, and only for an expired entry with a refresh token whose refresh raised RefreshError; the entry handed out is valid and unchanged |
| CredentialPool.FreshEntryFirst | src/credential_manager.py:119-121 | a valid entry that has not expired is handed out at once |
| CredentialPool.AllInvalidNoRefresh | src/credential_manager.py:110-112 | a pool of invalid entries consults no refresh and hands out nothing |
| CredentialPool.GetRotatingCredential | src/credential_manager.py:150-158 | no credential becomes a 503; otherwise the credential found is returned |
| CredentialPool.NothingUsableIff503 | src/credential_manager.py:98-158 | for every pool, the empty one included, the dependency answers 503 exactly when no entry is usable; a credential handed out is a usable entry of the pool |
| CredentialPool.CredentialManager.constructor | src/credential_manager.py:32-36 | an empty pool with the cursor at 0, then filled by the load specification |
| CredentialPool.CredentialManager.AddCredentialFromInfo | src/credential_manager.py:75-96 | appends the record the specification builds, or nothing, and leaves the cursor |
| CredentialPool.CredentialManager.LoadFromEnv | src/credential_manager.py:47-62 | appends exactly what the inline-list specification loads |
| CredentialPool.CredentialManager.LoadFile | src/credential_manager.py:68-73 | one file appends exactly its record, or nothing when it is unreadable, skipped or fails |
| CredentialPool.CredentialManager.LoadFromFiles | src/credential_manager.py:64-73 | appends exactly the files' records, in order |
| CredentialPool.CredentialManager.LoadCredentials | src/credential_manager.py:38-45 | appends exactly what the load specification gives |
| CredentialPool.CredentialManager.GetNextCredential | src/credential_manager.py:98-144 | the answer, pool and cursor are those of the rotation specification: None for an empty pool, else one scan of a full round from the cursor |
| CredentialPool.CredentialManager.InspectEntry | src/credential_manager.py:106-141 | one inspection: hands the entry out when usable, otherwise passes over it, retiring it only when its refresh is denied |
| CredentialPool.Rotate | src/credential_manager.py:98-144 | the rotation keeps the pool's size and leaves the cursor on an entry of it |
| CredentialPool.RetiredEntryPassedOver | src/credential_manager.py:124-135 | an expired entry whose refresh raised RefreshError is retired, and the scan goes on from the next slot as if it had been invalid |
| CredentialTool.ReplaceSeparators | src/tools/generate_credentials.py:34 | every '@' and '.' becomes '_', every other character stays, and no '.' is left |
| CredentialTool.RemoveDisallowed | src/tools/generate_credentials.py:35 | what is left is made only of kept characters of the input, and is no longer |
| CredentialTool.SanitizeForFilename | src/tools/generate_credentials.py:30-35 | a missing or empty text gives "unspecified"; otherwise the result is no longer than the text and made only of letters, digits, '_' and '-' |
| CredentialTool.SanitizeIsOnePass | src/tools/generate_credentials.py:34-35 | the two passes equal one character-by-character pass |
| CredentialTool.TwoPassesAreOne | src/tools/generate_credentials.py:34-35 | replacing separators, then dropping disallowed characters, is the one-pass rule |
| CredentialTool.SanitizeIdempotent | src/tools/generate_credentials.py:30-35 | a non-empty sanitised component sanitises to itself |
| CredentialTool.FileCharsFixed | src/tools/generate_credentials.py:34-35 | text made only of file characters passes through unchanged |
| CredentialTool.NonEmptyCanVanish | src/tools/generate_credentials.py:32-35 | a non-empty text of dropped characters sanitises to "" rather than "unspecified" |
| CredentialTool.StateFor | src/tools/generate_credentials.py:74 | the OAuth state is the project id when given, else the discovery marker |
| CredentialTool.StateRoundTrip | src/tools/generate_credentials.py:74-158 | a given project id comes back through the callback; an empty one asks for discovery |
| CredentialTool.CredentialFileName | src/tools/generate_credentials.py:170-172 | the file name starts with "oauth_creds_" and ends with ".json" |
| CredentialTool.FileNameHasOneDot | src/tools/generate_credentials.py:170-172 | the only '.' in the file name is the one of ".json" |
| ClaudeAdapter.MapFinishReason | src/adapters/claude_transformers.py:36-57 | a missing or empty reason and STOP give "end_turn", MAX_TOKENS "max_tokens", TOOL_USE "tool_use", anything else "stop" |
| ClaudeAdapter.BlockPart | src/adapters/claude_transformers.py:69-90 | a text block gives its text part; a tool_use block gives a function call with its name and `input` |
| ClaudeAdapter.BlocksPartsSpec | src/adapters/claude_transformers.py:69-91 | a block list gives at most one part per block |
| ClaudeAdapter.ContentPartsSpec | src/adapters/claude_transformers.py:60-91 | a string content is exactly one text part |
| ClaudeAdapter.TransformClaudeContent | src/adapters/claude_transformers.py:60-91 | the block loop gives exactly the parts, or the failure, of the specification |
| ClaudeAdapter.TextBlocksOneToOne | src/adapters/claude_transformers.py:69-72 | text blocks map one to one, in order, onto text parts with the same text |
| ClaudeAdapter.ClaudeRole | src/adapters/claude_transformers.py:104-111 | the role is "tool" iff some block is a tool_result; otherwise "model" iff the message is from the assistant |
| ClaudeAdapter.MessageContentSpec | src/adapters/claude_transformers.py:103-114 | a message gives one content with its role when it has parts, none when it has no parts |
| ClaudeAdapter.ContentsSpec | src/adapters/claude_transformers.py:102-114 | at most one content per message |
| ClaudeAdapter.StringMessageKept | src/adapters/claude_transformers.py:103-114 | a string message always becomes one content holding exactly its text |
| ClaudeAdapter.SystemInstruction | src/adapters/claude_transformers.py:116-125 | present iff the system value is truthy: a string verbatim, anything else as its JSON text |
| ClaudeAdapter.JsonMimeIff | src/adapters/claude_transformers.py:136-140 | the JSON MIME type is set exactly when a json_object response format is requested |
| ClaudeAdapter.MaxOutputTokensSent | src/adapters/claude_transformers.py:127-134 | a set `max_tokens` reaches Gemini as `maxOutputTokens` |
| ClaudeAdapter.MaxOutputTokensOmitted | src/adapters/claude_transformers.py:134 | an unset `max_tokens` leaves `maxOutputTokens` out |
| ClaudeAdapter.Declarations | src/adapters/claude_transformers.py:144-151 | one function declaration per tool, in order |
| ClaudeAdapter.GeminiTools | src/adapters/claude_transformers.py:142-152 | no tools list iff the request has no tools; otherwise one `functionDeclarations` entry holding every tool |
| ClaudeAdapter.RequestToGeminiSpec | src/adapters/claude_transformers.py:94-163 | the model name is the request's; the system instruction and generation config are as above; no tool config or safety settings are sent |
| ClaudeAdapter.ClaudeRequestToGemini | src/adapters/claude_transformers.py:94-163 | the message loop gives exactly the specification's request |
| ClaudeAdapter.ToolResultMessageRole | src/adapters/claude_transformers.py:104-111 | a message holding a tool_result block is sent with role "tool", whatever its own role |
| ClaudeAdapter.InputSchemaRenamed | src/adapters/claude_transformers.py:144-149 | a tool's `input_schema` reaches Gemini as `parameters`, its name and description kept |
| ClaudeAdapter.ResponseBlock | src/adapters/claude_transformers.py:317-328 | a part with text gives a text block; otherwise a function call gives a tool_use block; otherwise nothing |
| ClaudeAdapter.ResponseBlocks | src/adapters/claude_transformers.py:316-328 | at most one block per part, each a text or tool_use block |
| ClaudeAdapter.ClaudeResponseId | src/adapters/claude_transformers.py:337-342 | the upstream id, else the request's id, behind "msg_", else a fresh "msg_" id |
| ClaudeAdapter.ResponseToClaudeSpec | src/adapters/claude_transformers.py:304-352 | the id as above; a stop reason iff there is a candidate, mapped from the first candidate's finish reason |
| ClaudeAdapter.FirstCandidateOnly | src/adapters/claude_transformers.py:313-314 | candidates after the first change nothing |
| ClaudeAdapter.TextPartsBecomeTextBlocks | src/adapters/claude_transformers.py:317-321 | parts that all carry text become text blocks, one each, in order |
| ClaudeAdapter.CandidateBlocks | src/adapters/claude_transformers.py:316-328 | the loop over the first candidate's parts yields exactly the blocks of the part-by-part specification, in order |
| ClaudeAdapter.GeminiResponseToClaude | src/adapters/claude_transformers.py:304-352 | the part loop gives exactly the specification's message |
| ClaudeAdapter.ClaudeResponseAsWrittenAlwaysFails | src/adapters/claude_transformers.py:337 | as written, reading the undeclared `responseId` makes every complete response fail with AttributeError |
| ClaudeStream.Frames | src/adapters/claude_transformers.py:178-180 | one frame per event, in order |
| ClaudeStream.FramesAt | src/adapters/claude_transformers.py:178-180 | the frame at each position is that event's `event:`/`data:` frame |
| ClaudeStream.InputTokens | src/adapters/claude_transformers.py:189-192 | the prompt count raises AttributeError iff the usage is a truthy unvalidated value; a nonzero count is the validated prompt count |
| ClaudeStream.OutputTokens | src/adapters/claude_transformers.py:274-277 | the output count raises AttributeError iff the usage is a truthy unvalidated value; a nonzero count is the validated candidates count |
| ClaudeStream.FramesAppend | src/adapters/claude_transformers.py:178-180 | framing distributes over concatenation, so chunk-by-chunk framing equals framing the whole run |
| ClaudeStream.FrameNamesEvent | src/adapters/claude_transformers.py:178-180 | each frame's `event:` line names the event, and its payload's `type` carries the same name |
| ClaudeStream.EnsureStarted | src/adapters/claude_transformers.py:182-202 | the message is started afterwards; an unstarted message emits `message_start` with the prompt count, or raises AttributeError with no event iff the usage is unreadable; a started one emits nothing |
| ClaudeStream.BlockOf | src/adapters/claude_transformers.py:226-241 | text gives a text block, else a function call a tool_use block; none iff neither; the start block and the delta have the same type |
| ClaudeStream.PartStep | src/adapters/claude_transformers.py:219-266 | a part never finishes or starts the message |
| ClaudeStream.PartsStep | src/adapters/claude_transformers.py:219-266 | the part loop never finishes or starts the message |
| ClaudeStream.ClaudeStreamer.constructor | src/adapters/claude_transformers.py:169-176 | a streamer with the given id and model, not started, no block open, index 0, not finished |
| ClaudeStream.ClaudeStreamer.EnsureMessageStarted | src/adapters/claude_transformers.py:182-202 | yields the specification's events and failure, and moves to its state (started even when the read raises) |
| ClaudeStream.ClaudeStreamer.FormatPart | src/adapters/claude_transformers.py:220-266 | one iteration of the part loop yields the specification's events and moves to its state |
| ClaudeStream.ClaudeStreamer.FormatParts | src/adapters/claude_transformers.py:219-266 | the part loop yields the specification's events and moves to its state |
| ClaudeStream.ClaudeStreamer.Finish | src/adapters/claude_transformers.py:269-301 | the end of the stream yields the specification's events and failure and moves to its state |
| ClaudeStream.ClaudeStreamer.FormatChunk | src/adapters/claude_transformers.py:204-301 | `format_chunk` yields the specification's events, framed in order, raises its failure, and moves to its state |
| ClaudeStream.FinishedStaysSilent | src/adapters/claude_transformers.py:207-208 | once finished, the streamer emits nothing more, whatever chunks follow |
| ClaudeStream.FinalChunkCloses | src/adapters/claude_transformers.py:269-300 | a final chunk raises iff its output count is unreadable; otherwise it finishes the stream and ends with `message_delta` then `message_stop`, the stop reason "tool_use" while a tool block is open, else the chunk's own |
| ClaudeStream.FormatChunkRaises | src/adapters/claude_transformers.py:182-301 | a chunk raises iff the streamer is not finished, the chunk has content, its usage is a truthy unvalidated value, and the counters are read (the message is not started yet, or the chunk is final); the exception is AttributeError |
| ClaudeStream.PartStepBlocks | src/adapters/claude_transformers.py:243-266 | a part of the open block's type only adds a delta; otherwise the open block is stopped, the index moves on by one, and a new block starts there |
| ClaudeStream.ConsecutiveCallsShareBlock | src/adapters/claude_transformers.py:230-266 | two function calls in a row share one tool_use block opened with the first call's name; the second name is never sent |
| ClaudeStream.AcceptsAppend | src/adapters/claude_transformers.py:204-301 | the event grammar reads a concatenation as one part after the other |
| ClaudeStream.PartStepFollowsProtocol | src/adapters/claude_transformers.py:243-266 | one part's events are accepted by the Messages event grammar, from and to the states the streamer is in |
| ClaudeStream.PartsStepFollowsProtocol | src/adapters/claude_transformers.py:219-266 | the part loop's events are accepted by the event grammar |
| ClaudeStream.FinishStepFollowsProtocol | src/adapters/claude_transformers.py:269-300 | the end-of-stream events are accepted by the event grammar, and without an exception end in the streamer's state |
| ClaudeStream.FormatChunkFollowsProtocol | src/adapters/claude_transformers.py:204-301 | one `format_chunk` call's events are accepted by the event grammar, and without an exception keep the streamer consistent |
| ClaudeStream.RunFollowsProtocol | src/adapters/claude_transformers.py:204-301 | any run of chunks, up to an exception, is accepted by the event grammar |
| ClaudeStream.StreamIsWellFormed | src/adapters/claude_transformers.py:169-301 | whatever chunks arrive, a fresh streamer's events, up to the first exception, form a well-formed Messages event stream |
| ClaudeStream.NoSecondStart | src/adapters/claude_transformers.py:187-188 | after `message_start`, an accepted stream holds no second one |
| ClaudeStream.MessageStartFirstAndOnce | src/adapters/claude_transformers.py:187-202 | an accepted stream opens with `message_start` and holds no other |
| ClaudeStream.ClosedStreamEnding | src/adapters/claude_transformers.py:293-300 | a closed stream ends with `message_delta` then `message_stop`, nothing after |
| OpenAIAdapter.ParseImageUrl | src/adapters/openai_transformers.py:131-132 | the data is everything after the first ','; the MIME type holds no ':' or ';' |
| OpenAIAdapter.TransformMessagePart | src/adapters/openai_transformers.py:116-139 | a part that is neither text nor image_url gives nothing; a text part gives its text |
| OpenAIAdapter.ParseImageUrlInverse | src/adapters/openai_transformers.py:131-132 | a URL `scheme:mime;encoding,data` parses back to exactly its MIME type and data |
| OpenAIAdapter.ImagePartParsed | src/adapters/openai_transformers.py:123-138 | an image part with a base64 URL gives the inline data the URL parses to, and nothing when it does not parse |
| OpenAIAdapter.ImageUrlRoundTrip | src/adapters/openai_transformers.py:123-133 | an image written as a base64 data URL comes back as the MIME type and data it was written from |
| OpenAIAdapter.GeminiRole | src/adapters/openai_transformers.py:146-152 | "model" iff assistant, "tool" iff tool, "user" for every other role |
| OpenAIAdapter.ContentListParts | src/adapters/openai_transformers.py:164-168 | at most one part per content item |
| OpenAIAdapter.ToolCallPart | src/adapters/openai_transformers.py:173-188 | a tool call becomes a function call with its name and decoded arguments; arguments that do not decode become `{}`; decoded non-objects fail validation |
| OpenAIAdapter.ToolCallParts | src/adapters/openai_transformers.py:172-188 | one function call per tool call, in order |
| OpenAIAdapter.TransformMessage | src/adapters/openai_transformers.py:145-191 | a message gives a content only with parts, under its mapped role |
| OpenAIAdapter.TransformMessagesSpec | src/adapters/openai_transformers.py:142-193 | at most one content per message, none of them empty |
| OpenAIAdapter.TransformMessages | src/adapters/openai_transformers.py:142-193 | the message loop gives exactly the specification's contents or failure |
| OpenAIAdapter.ToolMessageResponse | src/adapters/openai_transformers.py:155-163 | a tool message becomes one functionResponse named by its `tool_call_id` carrying the content; without an id it fails validation |
| OpenAIAdapter.TransformMessageOk | src/adapters/openai_transformers.py:154-191 | a message's parts are its content parts followed by its tool calls, and it is dropped iff there are none |
| OpenAIAdapter.AssistantCallsFollowContent | src/adapters/openai_transformers.py:172-188 | an assistant message's tool calls follow its content parts, one function call each, in order |
| OpenAIAdapter.TextMessagesOneToOne | src/adapters/openai_transformers.py:142-193 | text messages without tool calls each become one content, in order, holding their text under the mapped role |
| OpenAIAdapter.GenerationConfig | src/adapters/openai_transformers.py:196-211 | no member of the generation config is None |
| OpenAIAdapter.JsonModeIff | src/adapters/openai_transformers.py:208-209 | the JSON MIME type is set exactly when a json_object response format is requested |
| OpenAIAdapter.StopStringListed | src/adapters/openai_transformers.py:202 | a single stop string is sent as a one-element list |
| OpenAIAdapter.TemperatureKept | src/adapters/openai_transformers.py:198-211 | `temperature` is sent exactly when it is set, with its value |
| OpenAIAdapter.MaxTokensSent | src/adapters/openai_transformers.py:201 | a set `max_tokens` is sent as `maxOutputTokens` |
| OpenAIAdapter.MaxTokensOmitted | src/adapters/openai_transformers.py:211 | an unset `max_tokens` leaves `maxOutputTokens` out |
| OpenAIAdapter.FunctionsOf | src/adapters/openai_transformers.py:220 | every tool's `function`, in order, iff every tool has one; KeyError otherwise |
| OpenAIAdapter.TransformTools | src/adapters/openai_transformers.py:214-220 | no tools gives none; otherwise one `functionDeclarations` entry listing the functions; a tool without `function` raises KeyError |
| OpenAIAdapter.TransformToolConfig | src/adapters/openai_transformers.py:223-254 | "none", "auto" and "required" map to NONE, AUTO and ANY; other strings and no choice give no config |
| OpenAIAdapter.NamedFunctionForcesCall | src/adapters/openai_transformers.py:242-252 | a choice naming a function forces a call to exactly that function |
| OpenAIAdapter.FirstSystemIndex | src/adapters/openai_transformers.py:262-270 | the index of the first system message, none iff there is no system message |
| OpenAIAdapter.RequestToGeminiSpec | src/adapters/openai_transformers.py:257-290 | the default safety settings, the first system message's text, the contents of the other messages and the generation config |
| OpenAIAdapter.OpenAIRequestToGemini | src/adapters/openai_transformers.py:257-290 | the search-and-pop loop gives exactly the specification's request |
| OpenAIAdapter.OnlyFirstSystemRemoved | src/adapters/openai_transformers.py:262-273 | only the first system message is removed; a later one stays and is sent as a user turn |
| OpenAIAdapter.MapFinishReason | src/adapters/openai_transformers.py:419-450 | a missing reason is None when streaming and "stop" otherwise; STOP, MAX_TOKENS, SAFETY/RECITATION and TOOL_USE map to stop, length, content_filter and tool_calls |
| OpenAIAdapter.FinishReasonRange | src/adapters/openai_transformers.py:419-450 | every mapped reason is one of OpenAI's four; a reason is missing only for a streamed candidate without one |
| OpenAIAdapter.PartChoices | src/adapters/openai_transformers.py:314-354 | one choice for text and one for a function call, each with the candidate index, the finish reason and the assistant role |
| OpenAIAdapter.PartsChoices | src/adapters/openai_transformers.py:303-354 | every choice carries the candidate's index; none carries a finish reason when there is none |
| OpenAIAdapter.FinishOnlyOnLastPart | src/adapters/openai_transformers.py:306-312 | only the choices made from the last part carry the finish reason |
| OpenAIAdapter.ToolCallChoice | src/adapters/openai_transformers.py:334-354 | a part holding only a function call becomes one tool-call choice with no content, the call's id being its name |
| OpenAIAdapter.StreamPartChoices | src/adapters/openai_transformers.py:314-346 | one delta for text and one for a function call; a call carries stream index 0 |
| OpenAIAdapter.StreamPartsChoices | src/adapters/openai_transformers.py:303-346 | no streamed choice carries a finish reason when there is none |
| OpenAIAdapter.StreamChunkToOpenAI | src/adapters/openai_transformers.py:402-416 | the stream chunk carries the given id and model, "chat.completion.chunk" and the current time |
| OpenAIAdapter.StreamPartsAsWrittenAgree | src/adapters/openai_transformers.py:341-346 | as written, the streamed parts fail iff one holds a function call, and agree with the corrected choices otherwise |
| OpenAIAdapter.StreamChunkFailsOnFunctionCall | src/adapters/openai_transformers.py:342 | as written, the stream translation fails with ValueError exactly when a chunk holds a function call |
| OpenAIAdapter.UsageOf | src/adapters/openai_transformers.py:365-371 | all zero without usage; each count `or 0` |
| OpenAIAdapter.ReplaceZ | src/adapters/openai_transformers.py:384 | no 'Z' is left, and text without one is unchanged |
| OpenAIAdapter.CreatedTimestamp | src/adapters/openai_transformers.py:380-390 | the parsed `createTime`, or the current time when it is absent or does not parse |
| OpenAIAdapter.ResponseAsWrittenAlwaysFails | src/adapters/openai_transformers.py:373-375 | as written, reading the undeclared `responseId` makes every complete response fail with AttributeError |
| OpenAIAdapter.ResponseToOpenAI | src/adapters/openai_transformers.py:357-399 | the id is "chatcmpl-" and the upstream id when present; the model falls back to the request's |
| OpenAIAdapter.BatchRequests | src/adapters/openai_transformers.py:57-69 | at most one batch entry per input item |
| OpenAIAdapter.BatchRequestsMatchStrings | src/adapters/openai_transformers.py:57-69 | one request per string item, carrying that string, in input order; other items are skipped |
| OpenAIAdapter.EmbeddingRequestSpec | src/adapters/openai_transformers.py:40-83 | fails iff the input is neither a list nor a string; otherwise the request's model and an embedding action |
| OpenAIAdapter.EmbeddingRequestTransformer | src/adapters/openai_transformers.py:40-83 | the batch loop gives exactly the specification's call |
| OpenAIAdapter.ResponseToOpenAIEmbedding | src/adapters/openai_transformers.py:86-113 | one entry per vector, indexed by position, the request's model and zero usage |
| Formatters.DataFrameRoundTrip | src/adapters/formatters.py:50 | a data frame is a complete event, and a client reads back exactly the payload it was built from |
| Formatters.GeminiChunkFrames | src/adapters/formatters.py:45-50 | nothing at the end of the stream; one data frame per chunk carrying the chunk's JSON |
| Formatters.OpenAIChunkFrames | src/adapters/formatters.py:56-64 | nothing at the end of the stream; a chunk gives one frame of its translation iff the context has a model and a response id, KeyError otherwise |
| Formatters.FormatterStep | src/adapters/formatters.py:26-99 | the base and embedding formatters raise NotImplementedError; the Gemini formatter always succeeds; the OpenAI one raises KeyError iff a chunk meets a context without model or response id; the Claude one raises exactly its streamer's exception; only the Claude formatter changes state; every frame is complete |
| Formatters.ClaudeFramesTerminated | src/adapters/claude_transformers.py:178-180 | every Claude event frame ends with the blank line that completes an event |
| Formatters.Formatter.constructor | src/adapters/formatters.py:23-93 | the formatter keeps its context; a Claude formatter owns a fresh streamer in its initial state |
| Formatters.Formatter.FormatChunk | src/adapters/formatters.py:26-99 | yields the frames and the exception, and moves to the streamer state, of the specification for its kind |
| Formatters.Formatter.FormatResponse | src/adapters/formatters.py:33-106 | the base and Gemini formatters return the response unchanged; the others translate it for their client |
| Formatters.NewFormatter | src/adapters/formatters.py:88-93 | construction fails with KeyError iff a Claude formatter's context lacks `response_id` or `model` |
| Utils.BuildGeminiUrl | src/utils/utils.py:10-26 | embedding actions go to the public endpoint under the model; every other action goes to Code Assist, with `?alt=sse` exactly when the lower-cased action contains "stream" |
| Utils.UuidText | src/utils/utils.py:33 | the hyphenated uuid text is 36 characters long |
| Utils.UuidTextRoundTrip | src/utils/utils.py:33 | the hex digits come back out of the hyphenated text unchanged |
| Utils.GenerateResponseId | src/utils/utils.py:29-33 | "msg" gives "msg_" and the hex digits; any other prefix gives the prefix, '-' and the 36-character uuid text |
| Utils.ResponseIdInjective | src/utils/utils.py:29-33 | distinct uuids give distinct ids under the same prefix |
| Utils.GetUserAgent | src/utils/utils.py:36-41 | "GeminiCLI/version (system; arch)" |
| Utils.GetPlatformString | src/utils/utils.py:44-63 | one of the six platform strings, each given exactly by the upper-cased system and whether the machine is ARM64/AARCH64 |
| Utils.GetClientMetadata | src/utils/utils.py:66-72 | exactly four keys: the IDE type, the platform string, the plugin type and the project |
| Utils.RedactMembers | src/utils/utils.py:77-82 | a dict keeps its keys, in order |
| Utils.RedactItems | src/utils/utils.py:83-85 | a list keeps its length |
| Utils.RedactSound | src/utils/utils.py:75-85 | after redaction no "text" or "data" value at any depth is left unmasked, nothing else changes, and a redacted tree is left as it is |
| Utils.RedactIdempotent | src/utils/utils.py:75-85 | redacting twice is redacting once |
| Utils.CreateRedactedPayload | src/utils/utils.py:88-98 | an empty payload gives `{}`; otherwise every secret is masked and everything else kept |
| Utils.SummarizeValueList | src/utils/utils.py:116-120 | the value list's dict keeps its keys, and does not grow |
| Utils.SummarizeValues | src/utils/utils.py:125-131 | a batch item does not grow |
| Utils.SummarizeEach | src/utils/utils.py:123-131 | the batch list keeps its length and does not grow |
| Utils.SummarizeHere | src/utils/utils.py:113-131 | the two rewrites at one dict keep its keys, in order, and do not grow it |
| Utils.SummarizeMembers | src/utils/utils.py:134-135 | the walk keeps a dict's keys, in order |
| Utils.SummarizeItems | src/utils/utils.py:137-139 | the walk keeps a list's length |
| Utils.SummarizeEmbeddingLogs | src/utils/utils.py:101-142 | anything but a dict or a list comes back as is; a dict or list keeps its size |
| Utils.SummarizeSingleEmbedding | src/utils/utils.py:115-120 | a single embedding's value list is replaced by "<N embedding values>" |
| Utils.SummarizeKeepsListFree | src/utils/utils.py:112-139 | a tree holding no list is left unchanged |
| Utils.CondensedSound | src/utils/utils.py:112-131 | the one-pass rewrite leaves no value list under an `embedding` dict or an `embeddings` item, changes nothing outside those places, and leaves a tree without such lists as it is |
| Utils.SummarizeIsCondensed | src/utils/utils.py:112-139 | the in-place walk, which rewrites a dict's embedding lists before walking into its values, equals the one-pass rewrite that turns each such list into "<N embedding values>" |
| Utils.SummarizeEmbeddingLogsSound | src/utils/utils.py:101-142 | every value list under an `embedding` dict or an `embeddings` item becomes "<N embedding values>" with N its length; no such list survives; every other part of the input is kept; an input without such lists comes back unchanged |
| Utils.RemoveKeysMembers | src/utils/utils.py:182-187 | a dict keeps exactly its supported keys |
| Utils.RemoveKeysItems | src/utils/utils.py:188-190 | a list keeps its length |
| Utils.RemoveKeysSound | src/utils/utils.py:181-190 | no unsupported key is left at any depth, and an already clean schema is left as it is |
| Utils.SanitizeDeclaration | src/utils/utils.py:197-199 | only the declaration's `parameters` value is cleaned; a declaration without one is unchanged |
| Utils.SanitizeDeclarations | src/utils/utils.py:197-199 | each declaration is sanitised in place, the list keeping its length |
| Utils.SanitizeDeclarationsValue | src/utils/utils.py:197 | a declaration list keeps its length |
| Utils.SanitizeGeminiTools | src/utils/utils.py:159-201 | no tools gives None; otherwise only the first entry's `functionDeclarations` can change |
| Utils.SanitizeCleansParameters | src/utils/utils.py:192-199 | every declaration with parameters ends with clean parameters, its other members as they were |
| LegacyOpenAI.MapFinishReason | src/openai_transformers.py:120-127 | STOP, MAX_TOKENS and SAFETY/RECITATION map to stop, length and content_filter; anything else, a missing reason included, is None |
| LegacyOpenAI.LegacyFinishReasonDiffers | src/openai_transformers.py:127 | unknown and missing reasons give None here, where the current adapter answers "stop" |
| LegacyOpenAI.LegacyRole | src/openai_transformers.py:15 | "model" iff the role is assistant, "user" for every other role |
| LegacyOpenAI.ImageUrlPieces | src/openai_transformers.py:25-27 | the URL is used iff it holds exactly one ';', the piece before it exactly one ':' and the piece after it exactly one ','; the MIME type then holds no ':' and the data no ',' |
| LegacyOpenAI.LegacyPart | src/openai_transformers.py:19-37 | a text item gives `{"text": ...}`; items of other types give nothing |
| LegacyOpenAI.ImageUrlPiecesInverse | src/openai_transformers.py:25-27 | a URL built from its four pieces splits back into the MIME type and the data |
| LegacyOpenAI.ImageUrlRoundTrip | src/openai_transformers.py:22-35 | a base64 data URL becomes exactly its MIME type and data |
| LegacyOpenAI.ParameterizedImageUrlDropped | src/openai_transformers.py:25-37 | a data URL with a parameter before `base64` has a second ';' and is silently dropped |
| LegacyOpenAI.LegacyPartsSpec | src/openai_transformers.py:18-37 | at most one part per content item |
| LegacyOpenAI.LegacyParts | src/openai_transformers.py:17-37 | the item loop gives exactly the specification's parts or failure |
| LegacyOpenAI.LegacyContentSpec | src/openai_transformers.py:14-40 | a string (or None) content becomes one text part under the mapped role |
| LegacyOpenAI.LegacyContentsSpec | src/openai_transformers.py:13-40 | exactly one content per message |
| LegacyOpenAI.ContentsKeepRoles | src/openai_transformers.py:14-40 | each content carries its own message's mapped role |
| LegacyOpenAI.ConfigCandidates | src/openai_transformers.py:42-58 | the eight sampling members of the second generation, in order, then `responseMimeType`, set iff a JSON object is requested |
| LegacyOpenAI.LegacyGenerationConfig | src/openai_transformers.py:42-61 | no member of the generation config is None |
| LegacyOpenAI.LegacyJsonModeIff | src/openai_transformers.py:55-58 | `responseMimeType` is sent exactly when a JSON object is requested, and then as "application/json" |
| LegacyOpenAI.SameGenerationConfig | src/openai_transformers.py:42-61 | the first generation's generation config is the second generation's, member for member |
| LegacyOpenAI.StopStringListed | src/openai_transformers.py:48-50 | a single stop string is sent as a one-element list |
| LegacyOpenAI.Payload | src/openai_transformers.py:63-68 | the payload holds the contents, the generation config, the safety settings and the model |
| LegacyOpenAI.RequestToGeminiSpec | src/openai_transformers.py:10-68 | the translation succeeds iff every message's content does |
| LegacyOpenAI.MessageContent | src/openai_transformers.py:15-40 | one message becomes the content the specification gives, or the exception its list content raises |
| LegacyOpenAI.RequestToGemini | src/openai_transformers.py:10-68 | the loops give exactly the specification's payload or failure |
| LegacyOpenAI.OneContentPerMessage | src/openai_transformers.py:13-68 | a translated request has as many contents as messages; config, safety settings and model go in as they are |
| LegacyOpenAI.PyIter | src/openai_transformers.py:75 | iterating a list gives its items |
| LegacyOpenAI.FirstPartText | src/openai_transformers.py:80 | empty parts give ""; a list whose first item is a dict gives that item's text, "" by default |
| LegacyOpenAI.CandidateChoice | src/openai_transformers.py:76-87 | a candidate that is not a dict raises AttributeError |
| LegacyOpenAI.CandidateDelta | src/openai_transformers.py:102-110 | a candidate that is not a dict raises AttributeError |
| LegacyOpenAI.MapEach | src/openai_transformers.py:75-87 | one result per item, in order, or the failure of some item |
| LegacyOpenAI.CollectChoices | src/openai_transformers.py:74-87 | the candidate loop gives exactly the specification's choices or failure |
| LegacyOpenAI.ResponseToOpenAISpec | src/openai_transformers.py:71-94 | the completion carries the given model; a response without candidates has no choices |
| LegacyOpenAI.ResponseToOpenAI | src/openai_transformers.py:71-94 | the loop gives exactly the specification's completion |
| LegacyOpenAI.StreamChunkToOpenAISpec | src/openai_transformers.py:97-117 | the chunk carries the given id and model |
| LegacyOpenAI.StreamChunkToOpenAI | src/openai_transformers.py:97-117 | the loop gives exactly the specification's chunk |
| LegacyOpenAI.StreamChoicePerCandidate | src/openai_transformers.py:101-110 | one stream choice per candidate, in order, carrying its candidate's index (0 by default) |
| LegacyOpenAI.DeltaIndex | src/openai_transformers.py:105-106 | the stream choice's index is the candidate's own, 0 when absent |
| LegacyStreaming.WrappedIsThought | src/streaming.py:71-73 | a non-empty run of thoughts wraps into a part that is itself a thought |
| LegacyStreaming.ScanParts | src/streaming.py:65-75 | the part loop gives exactly the specification's parts and leftover buffer |
| LegacyStreaming.Coalesce | src/streaming.py:52-82 | an empty list stays empty; otherwise it fails with ValueError exactly when the tags are not two |
| LegacyStreaming.CoalesceAndWrapThoughts | src/streaming.py:52-82 | the loop and the final flush give exactly the specification's result |
| LegacyStreaming.NonThoughts | src/streaming.py:66 | the parts that are not thoughts are never more than the parts |
| LegacyStreaming.ScanKeepsNonThoughts | src/streaming.py:65-75 | the scan keeps every non-thought part in order; the buffer only holds non-empty texts |
| LegacyStreaming.ScanSeparatesThoughts | src/streaming.py:65-75 | the scan's output never holds two thoughts side by side and never ends with one |
| LegacyStreaming.ScanAllThoughts | src/streaming.py:66-68 | parts that are all thoughts produce nothing and join the buffer in order |
| LegacyStreaming.ScanShrinks | src/streaming.py:65-80 | the scan never produces more parts than it reads, counting a pending run as one |
| LegacyStreaming.CoalesceProperties | src/streaming.py:52-82 | with two tags: success, non-thought parts kept in order, no adjacent thoughts, never longer than the input |
| LegacyStreaming.ScanKeepsThoughtText | src/streaming.py:65-80 | with empty tags the thought texts come through joined but unchanged, in order |
| LegacyStreaming.CoalesceKeepsThoughtText | src/streaming.py:52-82 | with empty tags coalescing only joins the thought texts: their concatenation is unchanged |
| LegacyStreaming.LeadingThoughts | src/streaming.py:65-68 | the count of thoughts a list starts with: every part before it is a thought, the part at it is not |
| LegacyStreaming.RunsAreMaximal | src/streaming.py:56 | the runs of a list are maximal: no run of thoughts is empty, and two never follow each other |
| LegacyStreaming.CoalesceWrapsRuns | src/streaming.py:52-82 | with two tags and any tag values, each maximal run of consecutive thoughts becomes one thought part holding the start tag, the run's texts joined in order, and the end tag; every other part stays in place |
| LegacyStreaming.TransformRun | src/streaming.py:95-132 | at most one chunk out per chunk in |
| LegacyStreaming.TransformWrapThoughts | src/streaming.py:85-143 | the chunk loop and the final flush give exactly the specification's chunks |
| LegacyStreaming.TransformKeepsNonThoughts | src/streaming.py:95-132 | across chunks, the first candidates' non-thought parts come out unchanged and in order |
| LegacyStreaming.StreamKeepsNonThoughts | src/streaming.py:85-143 | the whole transformed stream keeps the non-thought parts of the first candidates, in order |
| LegacyStreaming.ThoughtOnlyChunkHeld | src/streaming.py:104-125 | a chunk holding only thoughts yields nothing; its thoughts wait in the buffer |
| LegacyStreaming.TransformKeepsFirstCandidate | src/streaming.py:100-132 | every chunk out has no candidate or exactly one |
| LegacyStreaming.WrapCandidate | src/streaming.py:152-154 | a candidate fails iff its parts fail to coalesce, and otherwise only its parts change |
| LegacyStreaming.WrapCandidates | src/streaming.py:150-154 | one wrapped candidate per candidate, in order |
| LegacyStreaming.WrapThoughtsInGeminiResponse | src/streaming.py:146-155 | the candidate loop gives exactly the specification's response |
| LegacyStreaming.WrapResponseKeepsNonThoughts | src/streaming.py:146-155 | with two tags every candidate is kept with its non-thought parts intact |
| LegacyStreaming.WrapAllOk | src/streaming.py:150-154 | with two tags wrapping never fails |
| LegacyStreaming.ParseLine | src/streaming.py:36-49 | lines without `data: ` and empty payloads yield nothing; a decode failure raises; only decode, validation and type errors escape |
| LegacyStreaming.ParseLinesSpec | src/streaming.py:32-49 | at most one chunk per line; only those three exceptions end the run |
| LegacyStreaming.ParseGoogleSse | src/streaming.py:32-49 | the line loop gives exactly the specification's chunks and exception |
| LegacyStreaming.MalformedLineRaises | src/streaming.py:43-49 | a line whose JSON does not decode stops the stream with nothing yielded |
| LegacyStreaming.IgnoredLinesYieldNothing | src/streaming.py:37-41 | lines without the prefix or with an empty payload yield and raise nothing |
| LegacyStreaming.UnwrappedObjectSkipped | src/streaming.py:45-46 | an object without a `response` key is skipped, not raised |
| LegacyStreaming.FormatAsGeminiSse | src/streaming.py:158-160 | the frame is a data frame whose payload is the chunk's JSON |
| LegacyStreaming.FormatAll | src/streaming.py:200-209 | at most one frame per chunk, and one per chunk when no formatter raises |
| LegacyStreaming.FormatChunks | src/streaming.py:200-209 | the loop gives exactly the specification's frames and error |
| LegacyStreaming.ProcessStreamSpec | src/streaming.py:183-227 | an OpenAI stream always ends with `data: [DONE]` |
| LegacyStreaming.ProcessStreamForClient | src/streaming.py:183-227 | the orchestrator yields exactly the specification's frames |
| LegacyStreaming.CleanStreamFramesEveryChunk | src/streaming.py:189-209 | without a failure, each parsed (and wrapped) chunk gives one frame, then `[DONE]` for OpenAI |
| LegacyStreaming.FormatAllTotal | src/streaming.py:200-209 | a formatter that never raises ends the loop without error |
| LegacyStreaming.ParseErrorReportedOnce | src/streaming.py:217-227 | a parse error gives the frames before it, one parse-error frame, no final flush, then `[DONE]` for OpenAI |
| LegacyStreaming.NoWrappingWithoutTwoTags | src/streaming.py:193-194 | unless exactly two tags are set, the stream is not wrapped |
| LegacyStreaming.ReadTags | src/streaming.py:193 | reading the setting succeeds iff the settings class declares it |
| LegacyStreaming.EveryLegacyStreamFails | src/streaming.py:189-227 | as written, every stream is one generic AttributeError frame, plus `[DONE]` for OpenAI |
| LegacyStreaming.DeclaredTagsReachTheStream | src/streaming.py:189-227 | with the setting declared, the code as written is the specified orchestrator |
| LegacyStreaming.OpenAISseAlwaysRaises | src/streaming.py:163-177 | as written, the OpenAI formatter always raises AttributeError |
| LegacyStreaming.FormatAsOpenAISse | src/streaming.py:163-177 | a missing id or model raises KeyError; a result is a data frame |
| LegacyStreaming.OpenAISseCarriesContext | src/streaming.py:163-177 | the frame holds the translated chunk, with the context's id and model |
| LegacyClient.TargetUrl | src/google_api_client.py:31-34 | the URL is the Code Assist endpoint's `v1internal:` action, and it asks for server-sent events iff the call streams |
| LegacyClient.Envelope | src/google_api_client.py:42-46 | the body holds the payload's model (None if absent), the project id and the payload's request ({} if absent), and nothing else |
| LegacyClient.PrepareRequest | src/google_api_client.py:17-46 | a missing credential and a falsy project id raise with their own messages; otherwise the call goes to the action's URL with the bearer token, JSON content type, user agent and the envelope |
| LegacyClient.UpstreamErrorMessage | src/google_api_client.py:85-96 | an undecodable body gives its text as the message; the only failure is AttributeError on a body or `error` that is not a dict |
| LegacyClient.StripDataPrefix | src/google_api_client.py:105-106 | a leading `data: ` comes off; any other body is unchanged |
| LegacyClient.StripDataPrefixOnce | src/google_api_client.py:105-106 | exactly one prefix comes off |
| LegacyClient.ReadBody | src/google_api_client.py:103-125 | a decode failure and a validation failure raise with their own messages; a result means the body decoded to an object whose `response` validated |
| LegacyClient.DataPrefixedBodyReads | src/google_api_client.py:104-108 | a body sent as one data event reads exactly as the bare JSON |
| LegacyClient.StreamLine | src/google_api_client.py:129-140 | a line is re-framed iff it is a `data: ` line whose JSON is a dict with a `response` that validates; the frame carries that response's JSON |
| LegacyClient.StreamSpec | src/google_api_client.py:128-140 | at most one frame per line, each a data frame |
| LegacyClient.StreamGenerator | src/google_api_client.py:128-140 | the line loop gives exactly the specification's frames, every failure swallowed |
| LegacyClient.SendGeminiRequest | src/google_api_client.py:17-125 | a delivery needs status 200, and is an event stream iff the call streams |
| LegacyClient.UpstreamMessageRaised | src/google_api_client.py:85-96 | a failed call with `{"error": {"message": m}}` raises with exactly `m` |
| LegacyClient.OpenAIRequest | src/google_api_client.py:144-158 | the request holds exactly the listed keys whose values are not None |
| LegacyClient.OpenAIRequestCandidates | src/google_api_client.py:146-156 | every candidate key is one of the listed keys |
| LegacyClient.OpenAIRequestDefaults | src/google_api_client.py:144-155 | a payload without safety settings or generation config gets the unblocked settings and {} |
| LegacyClient.OpenAIRequestCarriesValues | src/google_api_client.py:146-158 | a value is carried over unchanged iff it is not None |
| LegacyClient.ModelAndRequest | src/google_api_client.py:160 | the payload holds the given model and request |
| LegacyClient.PayloadFromOpenAI | src/google_api_client.py:142-160 | the model is the payload's (None if absent), beside the filtered request |
| LegacyClient.PayloadFromNative | src/google_api_client.py:163-171 | a validation failure raises; otherwise the model comes from the path and the request is the validated fields, with the unblocked safety settings added only when none were set |

## Left out

- **Network calls.** The httpx calls, `onboard_user` and `get_user_project_id` (src/auth.py) are not modelled. The project id, the user agent and the upstream's status, body and lines are parameters of `LegacyClient.SendGeminiRequest`. An exception raised while the upstream lines are read is a parameter of the stream processors.
- **Concurrency.** The asyncio lock around `get_next_credential` is left out. The scan is modelled as one sequential call, which is how the lock makes it behave.
- **OAuth.** The OAuth library's `expired` flag and the outcome of `refresh` are per-call inputs, given as functions of the pool index. The credential generator's browser flow, local HTTP server and HTML pages are not modelled; only its state, e-mail and file-name logic are.
- **Serialisation and external services.** JSON encoding and decoding, pydantic validation and dumping, base64, uuid, the clock and `str()` of a non-string value are parameters. Dict key order counts only where the model compares whole objects.
- **Logging.** Logging and every `settings.DEBUG` branch are left out. They only write logs.
- **Floating point.** A JSON float is an opaque decimal literal. Nothing computes with it.
- **Module-level settings.** Settings are constants or parameters:
  - the auth password;
  - the client id and secret defaults;
  - the inline credential list;
  - the first-generation thought tags.
- ClaudeStream.ClaudeStreamer: the `meta_data_captured` field is set but never read, so it is not modelled.
- **Per-stream timestamp.** `now` is one value per stream. The source reads the clock once per chunk in the OpenAI stream translation.
- CoreStreaming.CarryUsage: the outer `usageMetadata` is stored as it is, since the response model does not validate assignment; pydantic's own handling of that value beyond storing it is not modelled.
- Gemini.ValidatedUsage: complete responses come out of `model_validate`, so the non-streaming translations read only validated counters; a raw value there is not modelled.
- **Formatter context.** The formatter context is a `map<string, string>`; the source passes a dict of arbitrary values.
- Formatters.Formatter.FormatResponse: requires its argument to have the type the formatter expects. The source does not check this and fails later in the translation.
- **Corrected translations.** The formatters delegate to the corrected translations listed under Findings, not to the failing ones as written.
- **Legacy response model.** The first-generation `GeminiResponse` declares only `candidates`. The legacy pipeline is modelled over the shared response type, whose extra optional fields stay unset.
- **Stream transform test.** In the first-generation stream transform, `not chunk.candidates[0].content` is never true for a validated candidate. The model keeps only the `not chunk.candidates` half of the test.

## Findings

| source | as written | input that shows it | evidently intended | confidence | as-written member | corrected member |
|---|---|---|---|---|---|---|
| src/adapters/openai_transformers.py:373-375 | the non-streaming OpenAI translation reads `response.responseId`, `modelVersion` and `createTime`, which the Gemini response model (src/models/gemini.py) does not declare, so every call raises AttributeError | any validated response, e.g. one candidate with a single text part | read them as optional fields, falling back to a fresh id, the requested model and the current time | high, not executed | OpenAIAdapter.ResponseAsWrittenAlwaysFails | OpenAIAdapter.ResponseToOpenAI |
| src/adapters/claude_transformers.py:337 | the Claude translation reads the undeclared `response.responseId` in the same way | any validated response | read it as an optional field, falling back to a generated id | high, not executed | ClaudeAdapter.ClaudeResponseAsWrittenAlwaysFails | ClaudeAdapter.GeminiResponseToClaude |
| src/adapters/openai_transformers.py:342 | the stream translation assigns `tool_call.index = 0`, but ToolCall declares no `index`, so pydantic raises ValueError | a chunk whose candidate holds a `functionCall` part | give the streamed tool call its index | high, not executed | OpenAIAdapter.StreamChunkFailsOnFunctionCall | OpenAIAdapter.StreamChunkToOpenAI |
| src/core/streaming.py:129,132 | the error frame and `data: [DONE]` end without the blank line that ends every other frame | an OpenAI stream whose upstream raises after one chunk: the error frame and `[DONE]` run together into one event | end both with a blank line like every other frame | medium, not executed | CoreStreaming.ErrorAndDoneRunTogether | CoreStreaming.ProcessFramesTerminated |
| src/streaming.py:193 | `settings.THOUGHT_WRAPPER_TAGS` is read, but src/settings.py does not declare it, so every stream is one AttributeError frame | any first-generation stream, e.g. one valid `data:` line | read the tags from a declared setting, or skip wrapping when it is absent | high, not executed | LegacyStreaming.EveryLegacyStreamFails | LegacyStreaming.ProcessStreamForClient |
| src/streaming.py:175 | the OpenAI stream formatter passes the pydantic chunk to the first-generation translator, which calls `.get` on it (src/openai_transformers.py:101) | any chunk with `response_id` and `model` in the context | dump the chunk to a dict before translating it | high, not executed | LegacyStreaming.OpenAISseAlwaysRaises | LegacyStreaming.FormatAsOpenAISse |
