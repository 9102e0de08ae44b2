/**
 * The inbound password check of `src/core/proxy_auth.py` (and of `src/core/auth.py`, which is the
 * same file): a request is admitted when one of its API-key places, or the password half of a
 * Basic header, equals the configured password.
 */
module ProxyAuth {
  import opened Wrappers
  import opened Strs

  /** The parts of an HTTP request the check reads; `authorization` is "" when the header is absent. */
  datatype AuthRequest = AuthRequest(
    queryKey: Option<string>,
    googApiKey: Option<string>,
    xApiKey: Option<string>,
    authorization: string)

  /** `base64.b64decode(...).decode("utf-8")`: None when either step raises. */
  type Base64Decoder = string -> Option<string>

  const Unauthorized: Exception := HttpError(401, "Invalid authentication credentials.", Some("Basic"))

  /** The API-key candidates, the Bearer token last. */
  function PotentialKeys(req: AuthRequest): (keys: seq<Option<string>>)
    ensures |keys| == 3 || |keys| == 4
    ensures |keys| == 4 <==> StartsWith(req.authorization, "Bearer ")
  {
    [req.queryKey, req.googApiKey, req.xApiKey]
      + (if StartsWith(req.authorization, "Bearer ") then [Some(req.authorization[7..])] else [])
  }

  /** `any(key == password for key in keys if key)`. */
  function AnyKeyMatches(keys: seq<Option<string>>, password: string): (r: bool)
    ensures r <==> exists i :: 0 <= i < |keys| && keys[i].Some? && keys[i].value != "" && keys[i].value == password
  {
    if keys == [] then false
    else (keys[0].Some? && keys[0].value != "" && keys[0].value == password) || AnyKeyMatches(keys[1..], password)
  }

  /** The password half of a Basic header: split once at the first ':'; None when anything fails. */
  function BasicPassword(authorization: string, decode: Base64Decoder): Option<string> {
    if !StartsWith(authorization, "Basic ") then None
    else match decode(authorization[6..])
      case None => None
      case Some(decoded) =>
        match IndexOf(decoded, ':')
        case None => None
        case Some(i) => Some(decoded[i + 1..])
  }

  /** `authenticate_user`: True, or the 401 it raises. */
  function AuthenticateUser(req: AuthRequest, password: string, decode: Base64Decoder): (r: Result<bool, Exception>)
    ensures r.Ok? ==> r.value
    ensures r.Err? ==> r.error == Unauthorized
  {
    if AnyKeyMatches(PotentialKeys(req), password) then Ok(true)
    else if BasicPassword(req.authorization, decode) == Some(password) then Ok(true)
    else Err(Unauthorized)
  }

  /** Who is admitted, stated without the candidate list: a non-empty key, or "user:password" in Basic. */
  ghost predicate Admits(req: AuthRequest, password: string, decode: Base64Decoder) {
    || (password != "" && (req.queryKey == Some(password) || req.googApiKey == Some(password) || req.xApiKey == Some(password)))
    || (password != "" && StartsWith(req.authorization, "Bearer ") && req.authorization[7..] == password)
    || (StartsWith(req.authorization, "Basic ") &&
        exists user: string :: ':' !in user && decode(req.authorization[6..]) == Some(user + ":" + password))
  }

  lemma {:induction false} AuthenticateUserAdmits(req: AuthRequest, password: string, decode: Base64Decoder)
    ensures AuthenticateUser(req, password, decode).Ok? <==> Admits(req, password, decode)
  {
    var keys := PotentialKeys(req);
    if AnyKeyMatches(keys, password) {
      var i :| 0 <= i < |keys| && keys[i].Some? && keys[i].value != "" && keys[i].value == password;
      assert Admits(req, password, decode);
    } else {
      assert keys[0] == req.queryKey && keys[1] == req.googApiKey && keys[2] == req.xApiKey;
      assert StartsWith(req.authorization, "Bearer ") ==> keys[3] == Some(req.authorization[7..]);
      BasicPasswordSplit(req.authorization, password, decode);
    }
  }

  /** The first-':' split recovers the password exactly when the text is some colon-free user, ':', password. */
  lemma {:induction false} BasicPasswordSplit(authorization: string, password: string, decode: Base64Decoder)
    ensures BasicPassword(authorization, decode) == Some(password) <==>
      StartsWith(authorization, "Basic ") &&
      exists user: string :: ':' !in user && decode(authorization[6..]) == Some(user + ":" + password)
  {
    if StartsWith(authorization, "Basic ") && decode(authorization[6..]).Some? {
      var decoded := decode(authorization[6..]).value;
      if BasicPassword(authorization, decode) == Some(password) {
        var i := IndexOf(decoded, ':').value;
        var user := decoded[..i];
        assert decoded == user + ":" + password;
        assert ':' !in user;
      }
      if exists user: string :: ':' !in user && decoded == user + ":" + password {
        var user: string :| ':' !in user && decoded == user + ":" + password;
        assert decoded[|user|] == ':';
        assert forall j :: 0 <= j < |user| ==> decoded[j] == user[j];
        assert IndexOf(decoded, ':') == Some(|user|);
        assert decoded[|user| + 1..] == password;
      }
    }
  }

  /** An empty password is never matched by an API key: only a Basic header can carry it. */
  lemma EmptyPasswordNeedsBasic(req: AuthRequest, decode: Base64Decoder)
    requires !StartsWith(req.authorization, "Basic ")
    ensures AuthenticateUser(req, "", decode) == Err(Unauthorized)
  {
    AuthenticateUserAdmits(req, "", decode);
  }
}

/**
 * The older check of `src/auth.py`: it answers with a user name, does not consult x-api-key, and
 * compares the Bearer token even when it is empty.
 */
module LegacyAuth {
  import opened Wrappers
  import opened Strs
  import opened ProxyAuth

  /** `authenticate_user`: "api_key_user" for a key match, the Basic user name, or the 401 it raises. */
  function AuthenticateUser(req: AuthRequest, password: string, decode: Base64Decoder): (r: Result<string, Exception>)
    ensures r.Err? ==> r.error == Unauthorized
    ensures r.Ok? && r.value != "api_key_user" ==> BasicPassword(req.authorization, decode) == Some(password)
  {
    if || (req.queryKey.Some? && req.queryKey.value != "" && req.queryKey.value == password)
       || (req.googApiKey.Some? && req.googApiKey.value != "" && req.googApiKey.value == password)
       || (StartsWith(req.authorization, "Bearer ") && req.authorization[7..] == password)
    then Ok("api_key_user")
    else if StartsWith(req.authorization, "Basic ") && decode(req.authorization[6..]).Some? then
      var decoded := decode(req.authorization[6..]).value;
      match IndexOf(decoded, ':')
      case None => Err(Unauthorized)
      case Some(i) => if decoded[i + 1..] == password then Ok(decoded[..i]) else Err(Unauthorized)
    else Err(Unauthorized)
  }

  /** The key places this check consults: the query key or x-goog-api-key when non-empty, or any Bearer token. */
  ghost predicate KeyAdmits(req: AuthRequest, password: string) {
    || (password != "" && (req.queryKey == Some(password) || req.googApiKey == Some(password)))
    || (StartsWith(req.authorization, "Bearer ") && req.authorization[7..] == password)
  }

  /** Who is admitted, stated without the branch structure: a key place, or "user:password" in Basic. */
  ghost predicate LegacyAdmits(req: AuthRequest, password: string, decode: Base64Decoder) {
    || KeyAdmits(req, password)
    || (StartsWith(req.authorization, "Basic ") &&
        exists user: string :: ':' !in user && decode(req.authorization[6..]) == Some(user + ":" + password))
  }

  /**
   * The answer by case: a key match gives "api_key_user"; otherwise the request is admitted exactly
   * when its Basic header decodes to some colon-free user, ':', the password; everything else is the 401.
   */
  lemma {:induction false} AuthenticateUserAdmits(req: AuthRequest, password: string, decode: Base64Decoder)
    ensures KeyAdmits(req, password) ==> AuthenticateUser(req, password, decode) == Ok("api_key_user")
    ensures AuthenticateUser(req, password, decode).Ok? <==> LegacyAdmits(req, password, decode)
    ensures !LegacyAdmits(req, password, decode) ==> AuthenticateUser(req, password, decode) == Err(Unauthorized)
  {
    var r := AuthenticateUser(req, password, decode);
    if !KeyAdmits(req, password) {
      assert r.Ok? <==> BasicPassword(req.authorization, decode) == Some(password);
      BasicPasswordSplit(req.authorization, password, decode);
    }
  }

  /** The x-api-key header plays no part. */
  lemma IgnoresXApiKey(req: AuthRequest, other: Option<string>, password: string, decode: Base64Decoder)
    ensures AuthenticateUser(req, password, decode) == AuthenticateUser(req.(xApiKey := other), password, decode)
  {
  }

  /** Basic authentication answers with the user name written before the first ':'. */
  lemma {:induction false} BasicGivesUserName(req: AuthRequest, user: string, password: string, decode: Base64Decoder)
    requires StartsWith(req.authorization, "Basic ") && ':' !in user
    requires decode(req.authorization[6..]) == Some(user + ":" + password)
    requires !KeyAdmits(req, password)
    ensures AuthenticateUser(req, password, decode) == Ok(user)
  {
    var decoded := user + ":" + password;
    assert decoded[|user|] == ':';
    assert forall j :: 0 <= j < |user| ==> decoded[j] == user[j];
    assert IndexOf(decoded, ':') == Some(|user|);
    assert decoded[|user| + 1..] == password;
    assert decoded[..|user|] == user;
  }

  /**
   * With an empty password a bare "Bearer " header is admitted here but refused by the newer
   * check, which skips empty keys.
   */
  lemma EmptyBearerDiffers(decode: Base64Decoder)
    ensures var req := AuthRequest(None, None, None, "Bearer ");
      AuthenticateUser(req, "", decode) == Ok("api_key_user") &&
      ProxyAuth.AuthenticateUser(req, "", decode) == Err(Unauthorized)
  {
    var req := AuthRequest(None, None, None, "Bearer ");
    assert req.authorization[7..] == "";
    assert req.authorization[..6][1] == 'e';
    ProxyAuth.EmptyPasswordNeedsBasic(req, decode);
  }
}
