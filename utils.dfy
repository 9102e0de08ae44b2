/**
 * The JSON-tree and naming utilities of `src/utils/utils.py`: URL building, response ids, the
 * platform table, client metadata, log redaction, embedding summaries and tool-schema
 * sanitising.  The source mutates private deep copies in place; since nothing else sees the copy,
 * each walk is a function from the old tree to the new one.
 */
module Utils {
  import opened Wrappers
  import opened Json
  import opened Strs

  // ---------------------------------------------------------------------------------------------
  // URLs

  const EmbeddingActions: seq<string> := ["embedContent", "batchEmbedContents"]

  /** `build_gemini_url`; the two endpoints are settings, passed in. */
  function BuildGeminiUrl(action: string, modelName: string, publicEndpoint: string, codeAssistEndpoint: string): (url: string)
    ensures action in EmbeddingActions ==> url == publicEndpoint + "/v1beta/models/" + modelName + ":" + action
    ensures action !in EmbeddingActions ==>
      && StartsWith(url, codeAssistEndpoint + "/v1internal:" + action)
      && (url == codeAssistEndpoint + "/v1internal:" + action + "?alt=sse" <==> Contains(Lower(action), "stream"))
      && (url == codeAssistEndpoint + "/v1internal:" + action <==> !Contains(Lower(action), "stream"))
  {
    if action in EmbeddingActions then
      publicEndpoint + "/v1beta/models/" + modelName + ":" + action
    else
      var url := codeAssistEndpoint + "/v1internal:" + action;
      if Contains(Lower(action), "stream") then url + "?alt=sse" else url
  }

  // ---------------------------------------------------------------------------------------------
  // Response ids

  predicate IsHexDigit(c: char) {
    '0' <= c <= '9' || 'a' <= c <= 'f'
  }

  /** A random UUID, given by its 32 lower-case hex digits (`uuid4().hex`). */
  predicate IsUuidHex(hex: string) {
    |hex| == 32 && forall i :: 0 <= i < |hex| ==> IsHexDigit(hex[i])
  }

  /** `str(uuid)`: the hex digits grouped 8-4-4-4-12 with hyphens. */
  function UuidText(hex: string): (r: string)
    requires IsUuidHex(hex)
    ensures |r| == 36
  {
    hex[..8] + "-" + hex[8..12] + "-" + hex[12..16] + "-" + hex[16..20] + "-" + hex[20..]
  }

  /** The hex digits back out of the hyphenated text. */
  function UuidDigits(text: string): string
    requires |text| == 36
  {
    text[..8] + text[9..13] + text[14..18] + text[19..23] + text[24..]
  }

  lemma UuidTextRoundTrip(hex: string)
    requires IsUuidHex(hex)
    ensures UuidDigits(UuidText(hex)) == hex
  {
    var t := UuidText(hex);
    assert t[..8] == hex[..8];
    assert t[9..13] == hex[8..12];
    assert t[14..18] == hex[12..16];
    assert t[19..23] == hex[16..20];
    assert t[24..] == hex[20..];
    assert hex == hex[..8] + hex[8..12] + hex[12..16] + hex[16..20] + hex[20..];
  }

  /** `generate_response_id`: the uuid the source draws is an input. */
  function GenerateResponseId(prefix: string, uuidHex: string): (id: string)
    requires IsUuidHex(uuidHex)
    ensures prefix == "msg" ==> id == "msg_" + uuidHex
    ensures prefix != "msg" ==> StartsWith(id, prefix + "-") && |id| == |prefix| + 37
  {
    if prefix == "msg" then "msg_" + uuidHex else prefix + "-" + UuidText(uuidHex)
  }

  /** Distinct uuids give distinct ids under the same prefix, so ids are as unique as the uuids. */
  lemma {:induction false} ResponseIdInjective(prefix: string, u1: string, u2: string)
    requires IsUuidHex(u1) && IsUuidHex(u2)
    requires GenerateResponseId(prefix, u1) == GenerateResponseId(prefix, u2)
    ensures u1 == u2
  {
    var id := GenerateResponseId(prefix, u1);
    if prefix == "msg" {
      assert u1 == id[4..] == u2;
    } else {
      var n := |prefix| + 1;
      assert UuidText(u1) == id[n..] == UuidText(u2);
      UuidTextRoundTrip(u1);
      UuidTextRoundTrip(u2);
    }
  }

  // ---------------------------------------------------------------------------------------------
  // Client identification

  /** `get_user_agent`; the CLI version and the platform's names are inputs. */
  function GetUserAgent(version: string, system: string, arch: string): (r: string)
    ensures StartsWith(r, "GeminiCLI/" + version + " (" + system + "; ")
    ensures EndsWith(r, arch + ")")
  {
    var r := "GeminiCLI/" + version + " (" + system + "; " + arch + ")";
    assert r[..|"GeminiCLI/" + version + " (" + system + "; "|] == "GeminiCLI/" + version + " (" + system + "; ";
    r
  }

  const PlatformStrings: set<string> :=
    {"DARWIN_ARM64", "DARWIN_AMD64", "LINUX_ARM64", "LINUX_AMD64", "WINDOWS_AMD64", "PLATFORM_UNSPECIFIED"}

  predicate IsArm(arch: string) {
    Upper(arch) == "ARM64" || Upper(arch) == "AARCH64"
  }

  /** `get_platform_string`: the gemini-cli platform table over `platform.system()` and `platform.machine()`. */
  function GetPlatformString(system: string, arch: string): (r: string)
    ensures r in PlatformStrings
    ensures r == "WINDOWS_AMD64" <==> Upper(system) == "WINDOWS"
    ensures r == "PLATFORM_UNSPECIFIED" <==> Upper(system) !in {"DARWIN", "LINUX", "WINDOWS"}
    ensures r == "DARWIN_ARM64" <==> Upper(system) == "DARWIN" && IsArm(arch)
    ensures r == "DARWIN_AMD64" <==> Upper(system) == "DARWIN" && !IsArm(arch)
    ensures r == "LINUX_ARM64" <==> Upper(system) == "LINUX" && IsArm(arch)
    ensures r == "LINUX_AMD64" <==> Upper(system) == "LINUX" && !IsArm(arch)
  {
    var sys := Upper(system);
    if sys == "DARWIN" then (if IsArm(arch) then "DARWIN_ARM64" else "DARWIN_AMD64")
    else if sys == "LINUX" then (if IsArm(arch) then "LINUX_ARM64" else "LINUX_AMD64")
    else if sys == "WINDOWS" then "WINDOWS_AMD64"
    else "PLATFORM_UNSPECIFIED"
  }

  /** `get_client_metadata`. */
  function GetClientMetadata(projectId: Json, system: string, arch: string): (r: Object)
    ensures |r| == 4
    ensures Lookup(r, "ideType") == Some(JStr("IDE_UNSPECIFIED"))
    ensures Lookup(r, "pluginType") == Some(JStr("GEMINI"))
    ensures Lookup(r, "duetProject") == Some(projectId)
    ensures Lookup(r, "platform") == Some(JStr(GetPlatformString(system, arch)))
  {
    var r := [ Member("ideType", JStr("IDE_UNSPECIFIED")),
               Member("platform", JStr(GetPlatformString(system, arch))),
               Member("pluginType", JStr("GEMINI")),
               Member("duetProject", projectId) ];
    assert Lookup(r[1..], "pluginType") == Lookup(r[2..], "pluginType") == Some(JStr("GEMINI"));
    assert Lookup(r[1..], "duetProject") == Lookup(r[2..], "duetProject") == Lookup(r[3..], "duetProject");
    r
  }

  // ---------------------------------------------------------------------------------------------
  // Redaction

  const RedactedKeys: seq<string> := ["text", "data"]
  const RedactedMarker: string := "<REDACTED>"

  /** `_redact_recursive` applied to a copy of `j`. */
  function Redact(j: Json): Json {
    match j
    case JObj(ms) => JObj(RedactMembers(ms))
    case JArr(items) => JArr(RedactItems(items))
    case _ => j
  }

  function RedactMembers(ms: Object): (r: Object)
    ensures |r| == |ms|
    ensures forall i :: 0 <= i < |ms| ==> r[i].key == ms[i].key
  {
    if ms == [] then []
    else
      var v := if ms[0].key in RedactedKeys then JStr(RedactedMarker) else Redact(ms[0].value);
      [Member(ms[0].key, v)] + RedactMembers(ms[1..])
  }

  function RedactItems(items: seq<Json>): (r: seq<Json>)
    ensures |r| == |items|
  {
    if items == [] then [] else [Redact(items[0])] + RedactItems(items[1..])
  }

  /** Every value under a "text" or "data" key, at any depth, is the marker. */
  predicate NoSecrets(j: Json) {
    match j
    case JObj(ms) => MembersNoSecrets(ms)
    case JArr(items) => ItemsNoSecrets(items)
    case _ => true
  }

  predicate MembersNoSecrets(ms: Object) {
    ms == [] ||
    ((if ms[0].key in RedactedKeys then ms[0].value == JStr(RedactedMarker) else NoSecrets(ms[0].value))
     && MembersNoSecrets(ms[1..]))
  }

  predicate ItemsNoSecrets(items: seq<Json>) {
    items == [] || (NoSecrets(items[0]) && ItemsNoSecrets(items[1..]))
  }

  /** The tree with every value under a "text" or "data" key blanked: what redaction must keep. */
  function Skeleton(j: Json): Json {
    match j
    case JObj(ms) => JObj(SkeletonMembers(ms))
    case JArr(items) => JArr(SkeletonItems(items))
    case _ => j
  }

  function SkeletonMembers(ms: Object): Object {
    if ms == [] then []
    else
      var v := if ms[0].key in RedactedKeys then JNull else Skeleton(ms[0].value);
      [Member(ms[0].key, v)] + SkeletonMembers(ms[1..])
  }

  function SkeletonItems(items: seq<Json>): seq<Json> {
    if items == [] then [] else [Skeleton(items[0])] + SkeletonItems(items[1..])
  }

  /**
   * Redaction hides every secret, changes nothing else, and leaves an already redacted tree as
   * it is (so it is idempotent).
   */
  lemma {:induction false} RedactSound(j: Json)
    ensures NoSecrets(Redact(j))
    ensures Skeleton(Redact(j)) == Skeleton(j)
    ensures NoSecrets(j) ==> Redact(j) == j
  {
    match j
    case JObj(ms) => RedactMembersSound(ms);
    case JArr(items) => RedactItemsSound(items);
    case _ =>
  }

  lemma {:induction false} RedactMembersSound(ms: Object)
    ensures MembersNoSecrets(RedactMembers(ms))
    ensures SkeletonMembers(RedactMembers(ms)) == SkeletonMembers(ms)
    ensures MembersNoSecrets(ms) ==> RedactMembers(ms) == ms
  {
    if ms != [] {
      RedactMembersSound(ms[1..]);
      if ms[0].key !in RedactedKeys {
        RedactSound(ms[0].value);
      }
    }
  }

  lemma {:induction false} RedactItemsSound(items: seq<Json>)
    ensures ItemsNoSecrets(RedactItems(items))
    ensures SkeletonItems(RedactItems(items)) == SkeletonItems(items)
    ensures ItemsNoSecrets(items) ==> RedactItems(items) == items
  {
    if items != [] {
      RedactSound(items[0]);
      RedactItemsSound(items[1..]);
    }
  }

  lemma RedactIdempotent(j: Json)
    ensures Redact(Redact(j)) == Redact(j)
  {
    RedactSound(j);
    RedactSound(Redact(j));
  }

  /** `create_redacted_payload`: an empty payload gives `{}`, any other a redacted copy. */
  function CreateRedactedPayload(payload: Object): (r: Object)
    ensures payload == [] ==> r == []
    ensures MembersNoSecrets(r)
    ensures SkeletonMembers(r) == SkeletonMembers(payload)
  {
    RedactMembersSound(payload);
    if payload == [] then [] else RedactMembers(payload)
  }

  // ---------------------------------------------------------------------------------------------
  // Embedding summaries

  /** The text that stands in for a list of `n` embedding values. */
  function Summary(n: nat): string {
    "<" + NatToString(n) + " embedding values>"
  }

  /** The number of nodes of a tree; the embedding rewrites never increase it. */
  function Size(j: Json): nat {
    match j
    case JObj(ms) => 1 + MembersSize(ms)
    case JArr(items) => 1 + ItemsSize(items)
    case _ => 1
  }

  function MembersSize(ms: Object): nat {
    if ms == [] then 0 else Size(ms[0].value) + MembersSize(ms[1..])
  }

  function ItemsSize(items: seq<Json>): nat {
    if items == [] then 0 else Size(items[0]) + ItemsSize(items[1..])
  }

  /** The members of a `{"values": [...]}` dict with the list replaced by its summary. */
  function SummarizeValueList(ms: Object): (r: Object)
    ensures |r| == |ms| && MembersSize(r) <= MembersSize(ms)
    ensures forall i :: 0 <= i < |ms| ==> r[i].key == ms[i].key
  {
    if ms == [] then []
    else
      var v := if ms[0].key == "values" && ms[0].value.JArr? then JStr(Summary(|ms[0].value.items|)) else ms[0].value;
      [Member(ms[0].key, v)] + SummarizeValueList(ms[1..])
  }

  function SummarizeValues(j: Json): (r: Json)
    ensures Size(r) <= Size(j)
  {
    if j.JObj? then JObj(SummarizeValueList(j.members)) else j
  }

  function SummarizeEach(items: seq<Json>): (r: seq<Json>)
    ensures |r| == |items| && ItemsSize(r) <= ItemsSize(items)
  {
    if items == [] then [] else [SummarizeValues(items[0])] + SummarizeEach(items[1..])
  }

  /** The two rewrites the walk makes at one dict, before it recurses into the dict's values. */
  function SummarizeHere(ms: Object): (r: Object)
    ensures |r| == |ms| && MembersSize(r) <= MembersSize(ms)
    ensures forall i :: 0 <= i < |ms| ==> r[i].key == ms[i].key
  {
    if ms == [] then []
    else
      var m := ms[0];
      var v :=
        if m.key == "embedding" then SummarizeValues(m.value)
        else if m.key == "embeddings" && m.value.JArr? then JArr(SummarizeEach(m.value.items))
        else m.value;
      [Member(m.key, v)] + SummarizeHere(ms[1..])
  }

  /** `_summarize_recursive` applied to a copy of `j`. */
  function Summarize(j: Json): Json
    decreases Size(j), 1
  {
    match j
    case JObj(ms) => JObj(SummarizeMembers(SummarizeHere(ms)))
    case JArr(items) => JArr(SummarizeItems(items))
    case _ => j
  }

  function SummarizeMembers(ms: Object): (r: Object)
    decreases MembersSize(ms), 2
    ensures |r| == |ms|
    ensures forall i :: 0 <= i < |ms| ==> r[i].key == ms[i].key
  {
    if ms == [] then [] else [Member(ms[0].key, Summarize(ms[0].value))] + SummarizeMembers(ms[1..])
  }

  function SummarizeItems(items: seq<Json>): (r: seq<Json>)
    decreases ItemsSize(items), 2
    ensures |r| == |items|
  {
    if items == [] then [] else [Summarize(items[0])] + SummarizeItems(items[1..])
  }

  /** `summarize_embedding_logs`: anything but a dict or a list comes back as is. */
  function SummarizeEmbeddingLogs(logData: Json): (r: Json)
    ensures !logData.JObj? && !logData.JArr? ==> r == logData
    ensures logData.JObj? ==> r.JObj? && |r.members| == |logData.members|
    ensures logData.JArr? ==> r.JArr? && |r.items| == |logData.items|
  {
    if !logData.JObj? && !logData.JArr? then logData else Summarize(logData)
  }

  /** A single embedding response has its value list replaced by "<N embedding values>". */
  lemma SummarizeSingleEmbedding(values: seq<Json>)
    ensures var single := JObj([Member("embedding", JObj([Member("values", JArr(values))]))]);
      SummarizeEmbeddingLogs(single) == JObj([Member("embedding", JObj([Member("values", JStr(Summary(|values|)))]))])
  {
    var inner := [Member("values", JStr(Summary(|values|)))];
    assert SummarizeValueList([Member("values", JArr(values))]) == inner;
    assert SummarizeHere(inner) == inner;
    assert SummarizeMembers(inner) == inner;
    var outer := [Member("embedding", JObj([Member("values", JArr(values))]))];
    assert SummarizeHere(outer) == [Member("embedding", JObj(inner))];
    assert Summarize(JObj(inner)) == JObj(inner);
    assert SummarizeMembers([Member("embedding", JObj(inner))]) == [Member("embedding", JObj(inner))];
  }

  /** A tree holding no list at all is left unchanged. */
  predicate NoLists(j: Json) {
    match j
    case JObj(ms) => MembersNoLists(ms)
    case JArr(_) => false
    case _ => true
  }

  predicate MembersNoLists(ms: Object) {
    ms == [] || (NoLists(ms[0].value) && MembersNoLists(ms[1..]))
  }

  lemma {:induction false} SummarizeKeepsListFree(j: Json)
    requires NoLists(j)
    ensures Summarize(j) == j
  {
    if j.JObj? {
      SummarizeHereListFree(j.members);
      SummarizeMembersListFree(j.members);
    }
  }

  lemma {:induction false} SummarizeHereListFree(ms: Object)
    requires MembersNoLists(ms)
    ensures SummarizeHere(ms) == ms
  {
    if ms != [] {
      SummarizeHereListFree(ms[1..]);
      var v := ms[0].value;
      if ms[0].key == "embedding" && v.JObj? {
        SummarizeValueListListFree(v.members);
      }
    }
  }

  lemma {:induction false} SummarizeValueListListFree(ms: Object)
    requires MembersNoLists(ms)
    ensures SummarizeValueList(ms) == ms
  {
    if ms != [] {
      SummarizeValueListListFree(ms[1..]);
    }
  }

  lemma {:induction false} SummarizeMembersListFree(ms: Object)
    requires MembersNoLists(ms)
    ensures SummarizeMembers(ms) == ms
  {
    if ms != [] {
      SummarizeKeepsListFree(ms[0].value);
      SummarizeMembersListFree(ms[1..]);
    }
  }

  /*
   * The meaning of the walk, stated in one pass: an "embedding position" is a "values" member of a
   * dict that is the value of an "embedding" member or an item of an "embeddings" list; a list
   * found there becomes its summary, and everything else is walked into unchanged.
   */
  function Condensed(j: Json): Json
    decreases j, 0
  {
    match j
    case JObj(ms) => JObj(CondensedMembers(ms, false))
    case JArr(items) => JArr(CondensedItems(items))
    case _ => j
  }

  /** A value in embedding position's parent place: its own "values" members are embedding positions. */
  function CondensedEmbedding(j: Json): Json
    decreases j, 1
  {
    if j.JObj? then JObj(CondensedMembers(j.members, true)) else Condensed(j)
  }

  function CondensedMembers(ms: Object, embedding: bool): Object {
    if ms == [] then []
    else
      var m := ms[0];
      var v :=
        if embedding && m.key == "values" && m.value.JArr? then JStr(Summary(|m.value.items|))
        else if m.key == "embedding" then CondensedEmbedding(m.value)
        else if m.key == "embeddings" && m.value.JArr? then JArr(CondensedBatch(m.value.items))
        else Condensed(m.value);
      [Member(m.key, v)] + CondensedMembers(ms[1..], embedding)
  }

  function CondensedBatch(items: seq<Json>): seq<Json> {
    if items == [] then [] else [CondensedEmbedding(items[0])] + CondensedBatch(items[1..])
  }

  function CondensedItems(items: seq<Json>): seq<Json> {
    if items == [] then [] else [Condensed(items[0])] + CondensedItems(items[1..])
  }

  /** No list is left in an embedding position, at any depth. */
  predicate Listless(j: Json)
    decreases j, 0
  {
    match j
    case JObj(ms) => ListlessMembers(ms, false)
    case JArr(items) => ListlessItems(items)
    case _ => true
  }

  predicate ListlessEmbedding(j: Json)
    decreases j, 1
  {
    if j.JObj? then ListlessMembers(j.members, true) else Listless(j)
  }

  predicate ListlessMembers(ms: Object, embedding: bool) {
    ms == [] ||
    (var m := ms[0];
     && !(embedding && m.key == "values" && m.value.JArr?)
     && (if m.key == "embedding" then ListlessEmbedding(m.value)
         else if m.key == "embeddings" && m.value.JArr? then ListlessBatch(m.value.items)
         else Listless(m.value))
     && ListlessMembers(ms[1..], embedding))
  }

  predicate ListlessBatch(items: seq<Json>) {
    items == [] || (ListlessEmbedding(items[0]) && ListlessBatch(items[1..]))
  }

  predicate ListlessItems(items: seq<Json>) {
    items == [] || (Listless(items[0]) && ListlessItems(items[1..]))
  }

  /** The tree with every list or string in an embedding position blanked: what the walk must keep. */
  function Outside(j: Json): Json
    decreases j, 0
  {
    match j
    case JObj(ms) => JObj(OutsideMembers(ms, false))
    case JArr(items) => JArr(OutsideItems(items))
    case _ => j
  }

  function OutsideEmbedding(j: Json): Json
    decreases j, 1
  {
    if j.JObj? then JObj(OutsideMembers(j.members, true)) else Outside(j)
  }

  function OutsideMembers(ms: Object, embedding: bool): Object {
    if ms == [] then []
    else
      var m := ms[0];
      var v :=
        if embedding && m.key == "values" && (m.value.JArr? || m.value.JStr?) then JNull
        else if m.key == "embedding" then OutsideEmbedding(m.value)
        else if m.key == "embeddings" && m.value.JArr? then JArr(OutsideBatch(m.value.items))
        else Outside(m.value);
      [Member(m.key, v)] + OutsideMembers(ms[1..], embedding)
  }

  function OutsideBatch(items: seq<Json>): seq<Json> {
    if items == [] then [] else [OutsideEmbedding(items[0])] + OutsideBatch(items[1..])
  }

  function OutsideItems(items: seq<Json>): seq<Json> {
    if items == [] then [] else [Outside(items[0])] + OutsideItems(items[1..])
  }

  /**
   * The one-pass rewrite leaves no list in an embedding position, changes nothing outside those
   * positions, and leaves a tree that has no such list as it is.
   */
  lemma {:induction false} CondensedSound(j: Json)
    decreases j, 0
    ensures Listless(Condensed(j))
    ensures Outside(Condensed(j)) == Outside(j)
    ensures Listless(j) ==> Condensed(j) == j
  {
    match j
    case JObj(ms) => CondensedMembersSound(ms, false);
    case JArr(items) => CondensedItemsSound(items);
    case _ =>
  }

  lemma {:induction false} CondensedEmbeddingSound(j: Json)
    decreases j, 1
    ensures ListlessEmbedding(CondensedEmbedding(j))
    ensures OutsideEmbedding(CondensedEmbedding(j)) == OutsideEmbedding(j)
    ensures ListlessEmbedding(j) ==> CondensedEmbedding(j) == j
  {
    if j.JObj? {
      CondensedMembersSound(j.members, true);
    } else {
      CondensedSound(j);
    }
  }

  lemma {:induction false} CondensedMembersSound(ms: Object, embedding: bool)
    ensures ListlessMembers(CondensedMembers(ms, embedding), embedding)
    ensures OutsideMembers(CondensedMembers(ms, embedding), embedding) == OutsideMembers(ms, embedding)
    ensures ListlessMembers(ms, embedding) ==> CondensedMembers(ms, embedding) == ms
  {
    if ms != [] {
      CondensedMembersSound(ms[1..], embedding);
      var m := ms[0];
      if embedding && m.key == "values" && m.value.JArr? {
      } else if m.key == "embedding" {
        CondensedEmbeddingSound(m.value);
      } else if m.key == "embeddings" && m.value.JArr? {
        CondensedBatchSound(m.value.items);
      } else {
        CondensedSound(m.value);
      }
    }
  }

  lemma {:induction false} CondensedBatchSound(items: seq<Json>)
    ensures ListlessBatch(CondensedBatch(items))
    ensures OutsideBatch(CondensedBatch(items)) == OutsideBatch(items)
    ensures ListlessBatch(items) ==> CondensedBatch(items) == items
  {
    if items != [] {
      CondensedEmbeddingSound(items[0]);
      CondensedBatchSound(items[1..]);
    }
  }

  lemma {:induction false} CondensedItemsSound(items: seq<Json>)
    ensures ListlessItems(CondensedItems(items))
    ensures OutsideItems(CondensedItems(items)) == OutsideItems(items)
    ensures ListlessItems(items) ==> CondensedItems(items) == items
  {
    if items != [] {
      CondensedSound(items[0]);
      CondensedItemsSound(items[1..]);
    }
  }

  /**
   * The in-place walk, which rewrites a dict's embedding lists and only then walks into its
   * values, computes the one-pass rewrite.
   */
  lemma {:induction false} SummarizeIsCondensed(j: Json)
    ensures Summarize(j) == Condensed(j)
  {
    match j
    case JObj(ms) => SummarizeMembersCondensed(ms, false);
    case JArr(items) => SummarizeItemsCondensed(items);
    case _ =>
  }

  lemma {:induction false} SummarizeMembersCondensed(ms: Object, embedding: bool)
    ensures SummarizeMembers(SummarizeHere(if embedding then SummarizeValueList(ms) else ms)) == CondensedMembers(ms, embedding)
  {
    if ms != [] {
      SummarizeMembersCondensed(ms[1..], embedding);
      var m := ms[0];
      if embedding && m.key == "values" && m.value.JArr? {
      } else if m.key == "embedding" {
        if m.value.JObj? {
          SummarizeMembersCondensed(m.value.members, true);
        } else {
          SummarizeIsCondensed(m.value);
        }
      } else if m.key == "embeddings" && m.value.JArr? {
        SummarizeBatchCondensed(m.value.items);
      } else {
        SummarizeIsCondensed(m.value);
      }
    }
  }

  lemma {:induction false} SummarizeBatchCondensed(items: seq<Json>)
    ensures SummarizeItems(SummarizeEach(items)) == CondensedBatch(items)
  {
    if items != [] {
      SummarizeBatchCondensed(items[1..]);
      if items[0].JObj? {
        SummarizeMembersCondensed(items[0].members, true);
      } else {
        SummarizeIsCondensed(items[0]);
      }
    }
  }

  lemma {:induction false} SummarizeItemsCondensed(items: seq<Json>)
    ensures SummarizeItems(items) == CondensedItems(items)
  {
    if items != [] {
      SummarizeIsCondensed(items[0]);
      SummarizeItemsCondensed(items[1..]);
    }
  }

  /**
   * `summarize_embedding_logs` replaces every value list in an embedding position by
   * "<N embedding values>", keeps every other part of the tree, and returns a tree without such
   * lists as it is.
   */
  lemma SummarizeEmbeddingLogsSound(logData: Json)
    ensures SummarizeEmbeddingLogs(logData) == Condensed(logData)
    ensures Listless(SummarizeEmbeddingLogs(logData))
    ensures Outside(SummarizeEmbeddingLogs(logData)) == Outside(logData)
    ensures Listless(logData) ==> SummarizeEmbeddingLogs(logData) == logData
  {
    SummarizeIsCondensed(logData);
    CondensedSound(logData);
  }

  // ---------------------------------------------------------------------------------------------
  // Tool-schema sanitising

  /** `_recursive_remove_keys` applied to a copy of `j`. */
  function RemoveKeys(j: Json, unsupported: seq<string>): Json {
    match j
    case JObj(ms) => JObj(RemoveKeysMembers(ms, unsupported))
    case JArr(items) => JArr(RemoveKeysItems(items, unsupported))
    case _ => j
  }

  function RemoveKeysMembers(ms: Object, unsupported: seq<string>): (r: Object)
    ensures |r| <= |ms|
    ensures forall k :: HasKey(r, k) <==> HasKey(ms, k) && k !in unsupported
  {
    if ms == [] then []
    else if ms[0].key in unsupported then RemoveKeysMembers(ms[1..], unsupported)
    else [Member(ms[0].key, RemoveKeys(ms[0].value, unsupported))] + RemoveKeysMembers(ms[1..], unsupported)
  }

  function RemoveKeysItems(items: seq<Json>, unsupported: seq<string>): (r: seq<Json>)
    ensures |r| == |items|
  {
    if items == [] then [] else [RemoveKeys(items[0], unsupported)] + RemoveKeysItems(items[1..], unsupported)
  }

  /** No dict at any depth holds an unsupported key. */
  predicate Clean(j: Json, unsupported: seq<string>) {
    match j
    case JObj(ms) => MembersClean(ms, unsupported)
    case JArr(items) => ItemsClean(items, unsupported)
    case _ => true
  }

  predicate MembersClean(ms: Object, unsupported: seq<string>) {
    ms == [] || (ms[0].key !in unsupported && Clean(ms[0].value, unsupported) && MembersClean(ms[1..], unsupported))
  }

  predicate ItemsClean(items: seq<Json>, unsupported: seq<string>) {
    items == [] || (Clean(items[0], unsupported) && ItemsClean(items[1..], unsupported))
  }

  /** Removal leaves no unsupported key at any depth and leaves an already clean schema as it is. */
  lemma {:induction false} RemoveKeysSound(j: Json, unsupported: seq<string>)
    ensures Clean(RemoveKeys(j, unsupported), unsupported)
    ensures Clean(j, unsupported) ==> RemoveKeys(j, unsupported) == j
  {
    match j
    case JObj(ms) => RemoveKeysMembersSound(ms, unsupported);
    case JArr(items) => RemoveKeysItemsSound(items, unsupported);
    case _ =>
  }

  lemma {:induction false} RemoveKeysMembersSound(ms: Object, unsupported: seq<string>)
    ensures MembersClean(RemoveKeysMembers(ms, unsupported), unsupported)
    ensures MembersClean(ms, unsupported) ==> RemoveKeysMembers(ms, unsupported) == ms
  {
    if ms != [] {
      RemoveKeysMembersSound(ms[1..], unsupported);
      RemoveKeysSound(ms[0].value, unsupported);
    }
  }

  lemma {:induction false} RemoveKeysItemsSound(items: seq<Json>, unsupported: seq<string>)
    ensures ItemsClean(RemoveKeysItems(items, unsupported), unsupported)
    ensures ItemsClean(items, unsupported) ==> RemoveKeysItems(items, unsupported) == items
  {
    if items != [] {
      RemoveKeysSound(items[0], unsupported);
      RemoveKeysItemsSound(items[1..], unsupported);
    }
  }

  /** One function declaration: only its "parameters" value is cleaned. */
  function SanitizeDeclaration(decl: Json, unsupported: seq<string>): (r: Result<Json, Exception>)
    ensures r.Ok? && decl.JObj? && HasKey(decl.members, "parameters") ==>
      && r.value.JObj?
      && Lookup(r.value.members, "parameters") == Some(RemoveKeys(Lookup(decl.members, "parameters").value, unsupported))
      && forall k :: k != "parameters" ==> Lookup(r.value.members, k) == Lookup(decl.members, k)
    ensures r.Ok? && !(decl.JObj? && HasKey(decl.members, "parameters")) ==> r.value == decl
    ensures decl.JObj? ==> r.Ok?
  {
    var has :- PyContains(decl, "parameters");
    if !has then Ok(decl)
    else
      var params :- Subscript(decl, "parameters");
      Ok(JObj(Put(decl.members, "parameters", RemoveKeys(params, unsupported))))
  }

  function SanitizeDeclarations(decls: seq<Json>, unsupported: seq<string>): (r: Result<seq<Json>, Exception>)
    ensures r.Ok? ==> |r.value| == |decls|
    ensures r.Ok? ==> forall i :: 0 <= i < |decls| ==> SanitizeDeclaration(decls[i], unsupported) == Ok(r.value[i])
  {
    if decls == [] then Ok([])
    else
      var d :- SanitizeDeclaration(decls[0], unsupported);
      var rest :- SanitizeDeclarations(decls[1..], unsupported);
      Ok([d] + rest)
  }

  /** Iterating `for func_dec in value` over the truthy "functionDeclarations" value. */
  function SanitizeDeclarationsValue(value: Json, unsupported: seq<string>): (r: Result<Json, Exception>)
    ensures r.Ok? && value.JArr? ==> r.value.JArr? && |r.value.items| == |value.items|
    ensures r.Ok? && !value.JArr? ==> r.value == value
  {
    match value
    case JArr(items) =>
      var items' :- SanitizeDeclarations(items, unsupported);
      Ok(JArr(items'))
    case JStr(_) => Ok(value)  // its characters never contain "parameters"
    case JObj(ms) => if exists i :: 0 <= i < |ms| && Contains(ms[i].key, "parameters") then Err(TypeError) else Ok(value)
    case _ => Err(TypeError)   // numbers and booleans are not iterable
  }

  /** `sanitize_gemini_tools`. */
  function SanitizeGeminiTools(tools: Option<seq<Object>>, unsupported: seq<string>): (r: Result<Option<seq<Object>>, Exception>)
    ensures tools.None? || tools.value == [] ==> r == Ok(None)
    ensures r.Ok? && r.value.Some? ==>
      && tools.Some? && |r.value.value| == |tools.value| && r.value.value[1..] == tools.value[1..]
      && forall k :: k != "functionDeclarations" ==> Lookup(r.value.value[0], k) == Lookup(tools.value[0], k)
  {
    if tools.None? || tools.value == [] then Ok(None)
    else
      var first := tools.value[0];
      var decls := GetOrNull(first, "functionDeclarations");
      if !Truthy(decls) then Ok(tools)
      else
        var decls' :- SanitizeDeclarationsValue(decls, unsupported);
        Ok(Some([Put(first, "functionDeclarations", decls')] + tools.value[1..]))
  }

  /**
   * After sanitising, every declaration with parameters has clean parameters, and every other
   * member of every declaration is as it was.
   */
  lemma SanitizeCleansParameters(tools: seq<Object>, unsupported: seq<string>, ds: seq<Json>, i: nat)
    requires SanitizeGeminiTools(Some(tools), unsupported).Ok?
    requires tools != [] && Lookup(tools[0], "functionDeclarations") == Some(JArr(ds))
    requires i < |ds| && ds[i].JObj? && HasKey(ds[i].members, "parameters")
    ensures var ts := SanitizeGeminiTools(Some(tools), unsupported).value.value;
      var out := Lookup(ts[0], "functionDeclarations").value;
      && out.JArr? && |out.items| == |ds| && out.items[i].JObj?
      && Lookup(out.items[i].members, "parameters").Some?
      && Clean(Lookup(out.items[i].members, "parameters").value, unsupported)
      && forall k :: k != "parameters" ==> Lookup(out.items[i].members, k) == Lookup(ds[i].members, k)
  {
    RemoveKeysSound(Lookup(ds[i].members, "parameters").value, unsupported);
  }
}
