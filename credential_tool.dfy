/**
 * The naming rules of the credential generator (`src/tools/generate_credentials.py`): file-name
 * sanitising, the OAuth state that asks for project discovery, and the credential file name.
 */
module CredentialTool {
  import opened Wrappers
  import opened Strs

  /** The characters the substitution `[^a-zA-Z0-9_.-]` keeps. */
  predicate Kept(c: char) {
    'a' <= c <= 'z' || 'A' <= c <= 'Z' || '0' <= c <= '9' || c == '_' || c == '.' || c == '-'
  }

  /** The characters a sanitised component can contain: the kept ones bar '.'. */
  predicate FileChar(c: char) {
    Kept(c) && c != '.'
  }

  /** `.replace("@", "_").replace(".", "_")`. */
  function ReplaceSeparators(s: string): (r: string)
    ensures |r| == |s|
    ensures forall i :: 0 <= i < |r| ==> r[i] != '.'
    ensures forall i :: 0 <= i < |s| ==> r[i] == (if s[i] == '@' || s[i] == '.' then '_' else s[i])
  {
    if s == [] then []
    else [if s[0] == '@' || s[0] == '.' then '_' else s[0]] + ReplaceSeparators(s[1..])
  }

  /** `re.sub(r"[^a-zA-Z0-9_.-]", "", s)`. */
  function RemoveDisallowed(s: string): (r: string)
    ensures |r| <= |s|
    ensures forall i :: 0 <= i < |r| ==> Kept(r[i]) && r[i] in s
  {
    if s == [] then []
    else if Kept(s[0]) then [s[0]] + RemoveDisallowed(s[1..])
    else RemoveDisallowed(s[1..])
  }

  /** `sanitize_for_filename`; None stands for a missing value. */
  function SanitizeForFilename(text: Option<string>): (r: string)
    ensures text.None? || text.value == "" ==> r == "unspecified"
    ensures text.Some? && text.value != "" ==> |r| <= |text.value| && forall i :: 0 <= i < |r| ==> FileChar(r[i])
  {
    if text.None? || text.value == "" then "unspecified"
    else RemoveDisallowed(ReplaceSeparators(text.value))
  }

  /** The same rule in one pass, character by character. */
  function SanitizeChars(s: string): string {
    if s == [] then []
    else if s[0] == '@' || s[0] == '.' then ['_'] + SanitizeChars(s[1..])
    else if Kept(s[0]) then [s[0]] + SanitizeChars(s[1..])
    else SanitizeChars(s[1..])
  }

  lemma {:induction false} SanitizeIsOnePass(s: string)
    requires s != ""
    ensures SanitizeForFilename(Some(s)) == SanitizeChars(s)
  {
    TwoPassesAreOne(s);
  }

  lemma {:induction false} TwoPassesAreOne(s: string)
    ensures RemoveDisallowed(ReplaceSeparators(s)) == SanitizeChars(s)
  {
    if s != [] {
      TwoPassesAreOne(s[1..]);
      assert ReplaceSeparators(s)[1..] == ReplaceSeparators(s[1..]);
    }
  }

  /** A non-empty sanitised component is a fixed point. */
  lemma {:induction false} SanitizeIdempotent(s: string)
    requires SanitizeForFilename(Some(s)) != ""
    ensures SanitizeForFilename(Some(SanitizeForFilename(Some(s)))) == SanitizeForFilename(Some(s))
  {
    var r := SanitizeForFilename(Some(s));
    if s == "" {
      FileCharsFixed("unspecified");
    } else {
      FileCharsFixed(r);
    }
  }

  lemma {:induction false} FileCharsFixed(s: string)
    requires forall i :: 0 <= i < |s| ==> FileChar(s[i])
    ensures RemoveDisallowed(ReplaceSeparators(s)) == s
  {
    if s != [] {
      FileCharsFixed(s[1..]);
      assert ReplaceSeparators(s)[1..] == ReplaceSeparators(s[1..]);
    }
  }

  /** A non-empty text made only of dropped characters sanitises to "". */
  lemma NonEmptyCanVanish()
    ensures SanitizeForFilename(Some("!")) == ""
  {
    assert ReplaceSeparators("!") == "!";
  }

  const DiscoverMarker: string := "__DISCOVER__"

  /** The OAuth state sent at login: the project id when given, else the discovery marker. */
  function StateFor(projectId: string): (state: string)
    ensures projectId != "" ==> state == projectId
    ensures projectId == "" ==> state == DiscoverMarker
  {
    if projectId != "" then projectId else DiscoverMarker
  }

  /** The callback's choice of project: the discovered one for the marker, else the state itself. */
  function ProjectFromState(returnedState: string, discovered: Option<string>): Option<string> {
    if returnedState == DiscoverMarker then discovered else Some(returnedState)
  }

  /** The state carries a given project id through the OAuth round trip; an empty one asks for discovery. */
  lemma StateRoundTrip(projectId: string, discovered: Option<string>)
    requires projectId != DiscoverMarker
    ensures projectId != "" ==> ProjectFromState(StateFor(projectId), discovered) == Some(projectId)
    ensures projectId == "" ==> ProjectFromState(StateFor(projectId), discovered) == discovered
  {
  }

  /** The file the credential is written to. */
  function CredentialFileName(userEmail: Option<string>, projectId: Option<string>): (name: string)
    ensures StartsWith(name, "oauth_creds_") && EndsWith(name, ".json")
  {
    var middle := SanitizeForFilename(userEmail) + "_" + SanitizeForFilename(projectId);
    var tail := middle + ".json";
    assert tail[|middle|..] == ".json";
    var name := "oauth_creds_" + tail;
    assert name[..12] == "oauth_creds_" && name[12..] == tail;
    name
  }

  /** The only '.' in a credential file name is the one of ".json". */
  lemma {:induction false} FileNameHasOneDot(userEmail: Option<string>, projectId: Option<string>)
    ensures Count(CredentialFileName(userEmail, projectId), '.') == 1
  {
    OneDot(SanitizeForFilename(userEmail), SanitizeForFilename(projectId));
  }

  lemma {:induction false} OneDot(e: string, p: string)
    requires forall i :: 0 <= i < |e| ==> e[i] != '.'
    requires forall i :: 0 <= i < |p| ==> p[i] != '.'
    ensures Count("oauth_creds_" + (e + "_" + p + ".json"), '.') == 1
  {
    var middle := e + "_" + p;
    MiddleNoDot(e, p);
    SuffixOneDot();
    PrefixNoDot();
    CountConcat(middle, ".json");
    CountConcat("oauth_creds_", middle + ".json");
  }

  lemma {:induction false} MiddleNoDot(e: string, p: string)
    requires forall i :: 0 <= i < |e| ==> e[i] != '.'
    requires forall i :: 0 <= i < |p| ==> p[i] != '.'
    ensures Count(e + "_" + p, '.') == 0
  {
    NoDotCount(e);
    NoDotCount(p);
    NoDotCount("_");
    CountConcat(e, "_");
    CountConcat(e + "_", p);
  }

  lemma {:induction false} SuffixOneDot()
    ensures Count(".json", '.') == 1
  {
    assert ".json"[1..] == "json";
    NoDotCount("json");
  }

  lemma {:induction false} PrefixNoDot()
    ensures Count("oauth_creds_", '.') == 0
  {
    NoDotCount("oauth_creds_");
  }

  lemma {:induction false} NoDotCount(s: string)
    requires forall i :: 0 <= i < |s| ==> s[i] != '.'
    ensures Count(s, '.') == 0
  {
    if s != [] {
      NoDotCount(s[1..]);
    }
  }

  lemma {:induction false} CountConcat(a: string, b: string)
    ensures Count(a + b, '.') == Count(a, '.') + Count(b, '.')
  {
    if a == [] {
      assert a + b == b;
    } else {
      CountConcat(a[1..], b);
      assert (a + b)[1..] == a[1..] + b;
    }
  }
}
