/**
 * The credential rotation pool of `src/credential_manager.py`: loading OAuth records from an
 * inline JSON list or from credential files, and the round-robin scan that hands out the next
 * usable record, refreshing expired ones and retiring those whose refresh is refused.
 *
 * Whether a record's access token has expired, and what a refresh attempt does, belong to the
 * OAuth library and the network; each call receives them as functions of the pool index.
 */
module CredentialPool {
  import opened Wrappers
  import opened Json

  /** `ManagedCredential` with the fields of its OAuth credential the pool reads. */
  datatype ManagedCredential = ManagedCredential(
    clientId: Json,
    clientSecret: Json,
    refreshToken: Json,
    projectId: Option<string>,
    userEmail: Option<string>,
    isOnboarded: bool,
    isValid: bool)

  /** What `credential.refresh(...)` does: succeed, raise RefreshError, or raise anything else. */
  datatype RefreshOutcome = Refreshed | AuthDenied | Transient

  // ---------------------------------------------------------------------------------------------
  // Loading

  /** pydantic's check of an `Optional[str]` field. */
  function OptionalString(j: Json): (r: Result<Option<string>, Exception>)
    ensures r.Ok? <==> j.JNull? || j.JStr?
  {
    match j
    case JNull => Ok(None)
    case JStr(s) => Ok(Some(s))
    case _ => Err(ValidationError)
  }

  /** `_add_credential_from_info`: the record to append, None when it is skipped, or what it raises. */
  function CredentialFromInfo(info: Json, defaultClientId: string, defaultClientSecret: string)
    : (r: Result<Option<ManagedCredential>, Exception>)
    ensures info.JObj? && !HasKey(info.members, "refresh_token") ==> r == Ok(None)
    ensures r.Ok? && r.value.Some? ==>
      var c := r.value.value;
      && info.JObj? && HasKey(info.members, "refresh_token")
      && c.refreshToken == Lookup(info.members, "refresh_token").value
      && c.clientId == Get(info.members, "client_id", JStr(defaultClientId))
      && c.clientSecret == Get(info.members, "client_secret", JStr(defaultClientSecret))
      && c.isValid && !c.isOnboarded
    ensures info.JObj? && HasKey(info.members, "refresh_token") ==>
      (r.Ok? <==> OptionalString(GetOrNull(info.members, "project_id")).Ok? && OptionalString(GetOrNull(info.members, "user_email")).Ok?)
  {
    var present :- PyContains(info, "refresh_token");
    if !present then Ok(None)
    else if !info.JObj? then Err(AttributeError)
    else
      var ms := info.members;
      var projectId :- OptionalString(GetOrNull(ms, "project_id"));
      var userEmail :- OptionalString(GetOrNull(ms, "user_email"));
      Ok(Some(ManagedCredential(
        Get(ms, "client_id", JStr(defaultClientId)),
        Get(ms, "client_secret", JStr(defaultClientSecret)),
        Lookup(ms, "refresh_token").value,
        projectId, userEmail, false, true)))
  }

  function Added(r: Option<ManagedCredential>): seq<ManagedCredential> {
    if r.Some? then [r.value] else []
  }

  /** The exceptions `_load_from_env` catches: JSONDecodeError and ValueError (pydantic's ValidationError is one). */
  predicate CaughtByEnvLoader(e: Exception) {
    e == JsonDecodeError || e == ValueError || e == ValidationError
  }

  /** What reading the inline list appends, and whether the list was taken (so files are not read). */
  datatype EnvLoad = EnvLoad(added: seq<ManagedCredential>, used: bool)

  function AddAll(items: seq<Json>, defaultClientId: string, defaultClientSecret: string): (r: Result<EnvLoad, Exception>)
    ensures r.Ok? ==> |r.value.added| <= |items|
    ensures r.Ok? ==> forall c :: c in r.value.added ==> c.isValid
  {
    if items == [] then Ok(EnvLoad([], true))
    else match CredentialFromInfo(items[0], defaultClientId, defaultClientSecret)
      case Err(e) => if CaughtByEnvLoader(e) then Ok(EnvLoad([], false)) else Err(e)
      case Ok(c) =>
        var rest :- AddAll(items[1..], defaultClientId, defaultClientSecret);
        Ok(EnvLoad(Added(c) + rest.added, rest.used))
  }

  /** The outcome of AddAll on a list whose first entries appended `done` and whose rest gives `rest`. */
  function AfterPrefix(done: seq<ManagedCredential>, rest: Result<EnvLoad, Exception>): Result<EnvLoad, Exception> {
    match rest
    case Err(e) => Err(e)
    case Ok(l) => Ok(EnvLoad(done + l.added, l.used))
  }

  lemma AfterPrefixStep(items: seq<Json>, k: nat, done: seq<ManagedCredential>, id: string, secret: string)
    requires k < |items| && CredentialFromInfo(items[k], id, secret).Ok?
    ensures AfterPrefix(done, AddAll(items[k..], id, secret))
         == AfterPrefix(done + Added(CredentialFromInfo(items[k], id, secret).value), AddAll(items[k + 1..], id, secret))
  {
    assert items[k..][1..] == items[k + 1..];
    match AddAll(items[k + 1..], id, secret)
    case Err(_) =>
    case Ok(l) =>
      var c := Added(CredentialFromInfo(items[k], id, secret).value);
      assert done + (c + l.added) == (done + c) + l.added;
  }

  lemma AfterPrefixFails(items: seq<Json>, k: nat, done: seq<ManagedCredential>, id: string, secret: string)
    requires k < |items| && CredentialFromInfo(items[k], id, secret).Err?
    ensures var e := CredentialFromInfo(items[k], id, secret).error;
      AfterPrefix(done, AddAll(items[k..], id, secret)) == if CaughtByEnvLoader(e) then Ok(EnvLoad(done, false)) else Err(e)
  {
    assert items[k..][0] == items[k];
    assert done + [] == done;
  }

  lemma AfterPrefixNone(done: seq<ManagedCredential>, r: Result<EnvLoad, Exception>)
    ensures AfterPrefix([], r) == r
    ensures AfterPrefix(done, Ok(EnvLoad([], true))) == Ok(EnvLoad(done, true))
  {
    if r.Ok? {
      assert [] + r.value.added == r.value.added;
    }
    assert done + [] == done;
  }

  /** `_load_from_env` over the CREDENTIALS_JSON_LIST text. */
  function LoadFromEnvSpec(envList: string, codec: Codec, defaultClientId: string, defaultClientSecret: string)
    : (r: Result<EnvLoad, Exception>)
    ensures envList == "" ==> r == Ok(EnvLoad([], false))
    ensures r.Ok? && r.value.used ==> envList != "" && codec.loads(envList).Some? && codec.loads(envList).value.JArr?
  {
    if envList == "" then Ok(EnvLoad([], false))
    else match codec.loads(envList)
      case None => Ok(EnvLoad([], false))
      case Some(JArr(items)) => AddAll(items, defaultClientId, defaultClientSecret)
      case Some(_) => Ok(EnvLoad([], false))
  }

  /** What one credential file contributes: its record, or nothing when it is unreadable, skipped or fails. */
  function FileRecords(file: Option<Json>, defaultClientId: string, defaultClientSecret: string): (r: seq<ManagedCredential>)
    ensures |r| <= 1 && forall c :: c in r ==> c.isValid
  {
    if file.None? then []
    else match CredentialFromInfo(file.value, defaultClientId, defaultClientSecret)
      case Ok(c) => Added(c)
      case Err(_) => []
  }

  /** `_load_from_files`: each file's JSON (None when unreadable), in the order the glob yields them. */
  function LoadFromFilesSpec(files: seq<Option<Json>>, defaultClientId: string, defaultClientSecret: string)
    : (r: seq<ManagedCredential>)
    ensures |r| <= |files|
    ensures forall c :: c in r ==> c.isValid
  {
    if files == [] then []
    else FileRecords(files[0], defaultClientId, defaultClientSecret) + LoadFromFilesSpec(files[1..], defaultClientId, defaultClientSecret)
  }

  lemma FilesStep(files: seq<Option<Json>>, k: nat, id: string, secret: string)
    requires k < |files|
    ensures LoadFromFilesSpec(files[k..], id, secret) == FileRecords(files[k], id, secret) + LoadFromFilesSpec(files[k + 1..], id, secret)
  {
    assert files[k..][0] == files[k];
    assert files[k..][1..] == files[k + 1..];
  }

  /** `load_credentials`: the records appended, in load order, or the exception that escapes. */
  function LoadCredentialsSpec(envList: string, files: seq<Option<Json>>, codec: Codec, defaultClientId: string, defaultClientSecret: string)
    : (r: Result<seq<ManagedCredential>, Exception>)
    ensures r.Ok? ==> forall c :: c in r.value ==> c.isValid
  {
    var env :- LoadFromEnvSpec(envList, codec, defaultClientId, defaultClientSecret);
    if env.used then Ok(env.added)
    else Ok(env.added + LoadFromFilesSpec(files, defaultClientId, defaultClientSecret))
  }

  /** An empty, undecodable or non-list CREDENTIALS_JSON_LIST leaves the files as the only source. */
  lemma FilesWhenEnvUnusable(envList: string, files: seq<Option<Json>>, codec: Codec, id: string, secret: string)
    requires envList == "" || codec.loads(envList).None? || !codec.loads(envList).value.JArr?
    ensures LoadCredentialsSpec(envList, files, codec, id, secret) == Ok(LoadFromFilesSpec(files, id, secret))
  {
    assert [] + LoadFromFilesSpec(files, id, secret) == LoadFromFilesSpec(files, id, secret);
  }

  /** A decodable list whose entries all load is the only source, even when it is `[]`. */
  lemma EnvListTakesPrecedence(envList: string, files: seq<Option<Json>>, codec: Codec, id: string, secret: string, items: seq<Json>)
    requires envList != "" && codec.loads(envList) == Some(JArr(items))
    requires forall i :: 0 <= i < |items| ==> CredentialFromInfo(items[i], id, secret).Ok?
    ensures LoadCredentialsSpec(envList, files, codec, id, secret).Ok?
    ensures LoadCredentialsSpec(envList, files, codec, id, secret).value == AddAll(items, id, secret).value.added
  {
    AddAllCompletes(items, id, secret);
  }

  lemma {:induction false} AddAllCompletes(items: seq<Json>, id: string, secret: string)
    requires forall i :: 0 <= i < |items| ==> CredentialFromInfo(items[i], id, secret).Ok?
    ensures AddAll(items, id, secret).Ok? && AddAll(items, id, secret).value.used
  {
    if items != [] {
      assert CredentialFromInfo(items[0], id, secret).Ok?;
      AddAllCompletes(items[1..], id, secret);
    }
  }

  /**
   * An inline list that fails validation part way keeps the records appended before the failure,
   * and the credential files are then loaded after them.
   */
  lemma PartialEnvListThenFiles(envList: string, files: seq<Option<Json>>, codec: Codec, id: string, secret: string,
                                items: seq<Json>, c: ManagedCredential)
    requires envList != "" && codec.loads(envList) == Some(JArr(items)) && |items| >= 2
    requires CredentialFromInfo(items[0], id, secret) == Ok(Some(c))
    requires CredentialFromInfo(items[1], id, secret).Err? && CaughtByEnvLoader(CredentialFromInfo(items[1], id, secret).error)
    ensures LoadCredentialsSpec(envList, files, codec, id, secret) == Ok([c] + LoadFromFilesSpec(files, id, secret))
  {
    assert items[1..][0] == items[1];
    assert AddAll(items[1..], id, secret) == Ok(EnvLoad([], false));
    assert [c] + [] == [c];
  }

  /** Credential files whose JSON object has no `refresh_token` contribute nothing. */
  lemma {:induction false} FilesSkipMissingToken(files: seq<Option<Json>>, id: string, secret: string)
    requires forall i :: 0 <= i < |files| ==> files[i].Some? && files[i].value.JObj? && !HasKey(files[i].value.members, "refresh_token")
    ensures LoadFromFilesSpec(files, id, secret) == []
  {
    if files != [] {
      FilesSkipMissingToken(files[1..], id, secret);
    }
  }

  // ---------------------------------------------------------------------------------------------
  // Rotation

  /**
   * The pool index of the `t`-th entry inspected by a scan that starts at `start`: the cursor
   * advanced `t` times by `(i + 1) % n`.
   */
  function Slot(start: nat, t: nat, n: nat): (i: nat)
    requires start < n && t <= n
    ensures i < n
  {
    if start + t < n then start + t else start + t - n
  }

  /** An entry the scan would hand out: valid, and either fresh or successfully refreshed. */
  predicate Usable(pool: seq<ManagedCredential>, i: nat, expired: nat -> bool, refresh: nat -> RefreshOutcome)
    requires i < |pool|
  {
    pool[i].isValid && (!expired(i) || (Truthy(pool[i].refreshToken) && refresh(i) == Refreshed))
  }

  /** The entry's refresh is refused: valid, expired, with a refresh token, and its refresh raised RefreshError. */
  predicate Denied(pool: seq<ManagedCredential>, i: nat, expired: nat -> bool, refresh: nat -> RefreshOutcome)
    requires i < |pool|
  {
    pool[i].isValid && expired(i) && Truthy(pool[i].refreshToken) && refresh(i) == AuthDenied
  }

  /** What one inspection does: hand the entry out, or pass over it in the pool it leaves. */
  datatype Inspection = Take | Pass(pool: seq<ManagedCredential>)

  /** One iteration of `get_next_credential`'s loop on the entry at `i`. */
  function Inspect(pool: seq<ManagedCredential>, i: nat, expired: nat -> bool, refresh: nat -> RefreshOutcome): (r: Inspection)
    requires i < |pool|
    ensures r.Take? <==> Usable(pool, i, expired, refresh)
    ensures r.Pass? && Denied(pool, i, expired, refresh) ==> r.pool == pool[i := pool[i].(isValid := false)]
    ensures r.Pass? && !Denied(pool, i, expired, refresh) ==> r.pool == pool
  {
    var c := pool[i];
    if !c.isValid then Pass(pool)
    else if !expired(i) then Take
    else if !Truthy(c.refreshToken) then Pass(pool)
    else match refresh(i)
      case Refreshed => Take
      case AuthDenied => Pass(pool[i := c.(isValid := false)])
      case Transient => Pass(pool)
  }

  /** Where a scan ends: the pool it leaves, how many entries it inspected, and the index it chose. */
  datatype Scan = Scan(pool: seq<ManagedCredential>, inspected: nat, chosen: Option<nat>)

  /** The scan of `get_next_credential` from its `t`-th inspection on, at most `fuel` inspections in all. */
  function ScanFrom(pool: seq<ManagedCredential>, start: nat, t: nat, fuel: nat, expired: nat -> bool, refresh: nat -> RefreshOutcome)
    : (s: Scan)
    requires start < |pool| && t <= fuel <= |pool|
    ensures |s.pool| == |pool| && t <= s.inspected <= fuel
    ensures s.chosen.Some? ==> s.inspected > t && s.chosen.value == Slot(start, s.inspected - 1, |pool|)
    ensures s.chosen.None? ==> s.inspected == fuel
    decreases fuel - t
  {
    if t == fuel then Scan(pool, fuel, None)
    else
      var i := Slot(start, t, |pool|);
      match Inspect(pool, i, expired, refresh)
      case Take => Scan(pool, t + 1, Some(i))
      case Pass(pool') => ScanFrom(pool', start, t + 1, fuel, expired, refresh)
  }

  /** One inspection of the scan: the entry handed out, or the scan going on in the pool the inspection leaves. */
  lemma ScanFromStep(pool: seq<ManagedCredential>, start: nat, t: nat, fuel: nat, expired: nat -> bool, refresh: nat -> RefreshOutcome)
    requires start < |pool| && t < fuel <= |pool|
    ensures var i := Slot(start, t, |pool|);
      match Inspect(pool, i, expired, refresh)
      case Take => ScanFrom(pool, start, t, fuel, expired, refresh) == Scan(pool, t + 1, Some(i))
      case Pass(pool') => ScanFrom(pool, start, t, fuel, expired, refresh) == ScanFrom(pool', start, t + 1, fuel, expired, refresh)
  {
  }

  /** What `get_next_credential` leaves: the credential it hands out, the pool and the cursor. */
  datatype Rotated = Rotated(chosen: Option<ManagedCredential>, pool: seq<ManagedCredential>, cursor: nat)

  /** `get_next_credential` on a pool and cursor: nothing for an empty pool, else one scan of a full round. */
  function Rotate(pool: seq<ManagedCredential>, cursor: nat, expired: nat -> bool, refresh: nat -> RefreshOutcome): (r: Rotated)
    requires cursor < |pool| || (pool == [] && cursor == 0)
    ensures |r.pool| == |pool| && (r.cursor < |pool| || (pool == [] && r.cursor == 0))
  {
    if pool == [] then Rotated(None, pool, cursor)
    else
      var s := ScanFrom(pool, cursor, 0, |pool|, expired, refresh);
      Rotated(if s.chosen.Some? then Some(s.pool[s.chosen.value]) else None, s.pool, Slot(cursor, s.inspected, |pool|))
  }

  /** One inspection of a round, as `get_next_credential`'s loop body carries it out. */
  lemma RoundStep(pool: seq<ManagedCredential>, start: nat, k: nat, n: nat, expired: nat -> bool, refresh: nat -> RefreshOutcome,
                  pool': seq<ManagedCredential>, taken: bool)
    requires start < n && k < n && |pool| == n
    requires var r := Inspect(pool, Slot(start, k, n), expired, refresh);
      taken == r.Take? && pool' == (if r.Take? then pool else r.pool)
    ensures |pool'| == n
    ensures taken ==> ScanFrom(pool, start, k, n, expired, refresh) == Scan(pool', k + 1, Some(Slot(start, k, n)))
    ensures !taken ==> ScanFrom(pool, start, k, n, expired, refresh) == ScanFrom(pool', start, k + 1, n, expired, refresh)
  {
    ScanFromStep(pool, start, k, n, expired, refresh);
  }

  /** Reference definition: the first offset in [t, fuel) whose entry is usable. */
  function FirstUsable(pool: seq<ManagedCredential>, start: nat, t: nat, fuel: nat, expired: nat -> bool, refresh: nat -> RefreshOutcome)
    : (r: Option<nat>)
    requires start < |pool| && t <= fuel <= |pool|
    ensures r.Some? ==> t <= r.value < fuel && Usable(pool, Slot(start, r.value, |pool|), expired, refresh)
    ensures r.Some? ==> forall u :: t <= u < r.value ==> !Usable(pool, Slot(start, u, |pool|), expired, refresh)
    ensures r.None? ==> forall u :: t <= u < fuel ==> !Usable(pool, Slot(start, u, |pool|), expired, refresh)
    decreases fuel - t
  {
    if t == fuel then None
    else if Usable(pool, Slot(start, t, |pool|), expired, refresh) then Some(t)
    else FirstUsable(pool, start, t + 1, fuel, expired, refresh)
  }

  /** One full round visits each entry once. */
  lemma SlotsDistinct(start: nat, t: nat, u: nat, n: nat)
    requires start < n && t < u <= n && u < t + n
    ensures Slot(start, t, n) != Slot(start, u, n)
  {
  }

  /** The cursor update of the loop moves a scan to its next slot. */
  lemma SlotStep(start: nat, t: nat, n: nat)
    requires start < n && t < n
    ensures (Slot(start, t, n) + 1) % n == Slot(start, t + 1, n)
  {
    var i := Slot(start, t, n);
    if i + 1 < n {
      assert (i + 1) % n == i + 1;
    } else {
      assert (i + 1) % n == 0;
    }
  }

  /** Entries the scan has not reached yet decide the same way in the pool it has updated. */
  lemma {:induction false} FirstUsableFrame(pool: seq<ManagedCredential>, pool': seq<ManagedCredential>, start: nat, t: nat, fuel: nat,
                                             expired: nat -> bool, refresh: nat -> RefreshOutcome)
    requires start < |pool| == |pool'| && t <= fuel <= |pool|
    requires forall u :: t <= u < fuel ==> pool'[Slot(start, u, |pool|)] == pool[Slot(start, u, |pool|)]
    ensures FirstUsable(pool', start, t, fuel, expired, refresh) == FirstUsable(pool, start, t, fuel, expired, refresh)
    decreases fuel - t
  {
    if t < fuel {
      FirstUsableFrame(pool, pool', start, t + 1, fuel, expired, refresh);
    }
  }

  /**
   * The scan hands out exactly the first usable entry in cyclic order from the cursor, after
   * inspecting it and everything before it; with none usable it inspects all `fuel` entries.
   */
  lemma {:induction false} ScanChoosesFirstUsable(pool: seq<ManagedCredential>, start: nat, t: nat, fuel: nat,
                                                   expired: nat -> bool, refresh: nat -> RefreshOutcome)
    requires start < |pool| && t <= fuel <= |pool|
    ensures ScanAgrees(pool, start, t, fuel, expired, refresh)
    decreases fuel - t
  {
    if t < fuel {
      var n := |pool|;
      var i := Slot(start, t, n);
      match Inspect(pool, i, expired, refresh)
      case Take =>
      case Pass(pool') =>
        if Denied(pool, i, expired, refresh) {
          RetiredEntryPassedOver(pool, start, t, fuel, expired, refresh);
        } else {
          assert FirstUsable(pool, start, t, fuel, expired, refresh) == FirstUsable(pool, start, t + 1, fuel, expired, refresh);
        }
        ScanChoosesFirstUsable(pool', start, t + 1, fuel, expired, refresh);
    }
  }

  /** The scan and the reference definition agree on the chosen slot and on how far the cursor moves. */
  predicate ScanAgrees(pool: seq<ManagedCredential>, start: nat, t: nat, fuel: nat, expired: nat -> bool, refresh: nat -> RefreshOutcome)
    requires start < |pool| && t <= fuel <= |pool|
  {
    var s := ScanFrom(pool, start, t, fuel, expired, refresh);
    match FirstUsable(pool, start, t, fuel, expired, refresh)
    case None => s.chosen.None? && s.inspected == fuel
    case Some(u) => s.chosen == Some(Slot(start, u, |pool|)) && s.inspected == u + 1
  }

  /** Retiring the entry at the scan's position changes neither the scan's future nor the reference answer. */
  lemma RetiredEntryPassedOver(pool: seq<ManagedCredential>, start: nat, t: nat, fuel: nat, expired: nat -> bool, refresh: nat -> RefreshOutcome)
    requires start < |pool| && t < fuel <= |pool|
    requires Denied(pool, Slot(start, t, |pool|), expired, refresh)
    ensures var i := Slot(start, t, |pool|);
      var pool' := pool[i := pool[i].(isValid := false)];
      && ScanFrom(pool, start, t, fuel, expired, refresh) == ScanFrom(pool', start, t + 1, fuel, expired, refresh)
      && FirstUsable(pool, start, t, fuel, expired, refresh) == FirstUsable(pool', start, t + 1, fuel, expired, refresh)
  {
    var n := |pool|;
    var i := Slot(start, t, n);
    var pool' := pool[i := pool[i].(isValid := false)];
    forall u | t + 1 <= u < fuel
      ensures pool'[Slot(start, u, n)] == pool[Slot(start, u, n)]
    {
      SlotsDistinct(start, t, u, n);
    }
    FirstUsableFrame(pool, pool', start, t + 1, fuel, expired, refresh);
    assert Inspect(pool, i, expired, refresh) == Pass(pool');
    assert FirstUsable(pool, start, t, fuel, expired, refresh) == FirstUsable(pool, start, t + 1, fuel, expired, refresh);
  }

  /** What the scan may do to one entry: leave it, or retire a valid, expired entry whose refresh raised RefreshError. */
  predicate EntryKeptOrRetired(before: ManagedCredential, after: ManagedCredential, j: nat, expired: nat -> bool, refresh: nat -> RefreshOutcome) {
    after == before
    || (before.isValid && after == before.(isValid := false) && expired(j) && Truthy(before.refreshToken) && refresh(j) == AuthDenied)
  }

  /** Every entry kept or retired, and the chosen entry, if any, valid and as it was. */
  predicate OnlyRetires(pool: seq<ManagedCredential>, s: Scan, expired: nat -> bool, refresh: nat -> RefreshOutcome) {
    && |s.pool| == |pool|
    && (forall j :: 0 <= j < |pool| ==> EntryKeptOrRetired(pool[j], s.pool[j], j, expired, refresh))
    && (s.chosen.Some? ==> s.chosen.value < |pool| && s.pool[s.chosen.value] == pool[s.chosen.value] && pool[s.chosen.value].isValid)
  }

  /**
   * The scan changes nothing but `isValid`, only turns it off, and only for an expired entry with
   * a refresh token whose refresh raised RefreshError; the entry it hands out is valid and as it was.
   */
  lemma {:induction false} ScanOnlyRetiresDenied(pool: seq<ManagedCredential>, start: nat, t: nat, fuel: nat,
                                                  expired: nat -> bool, refresh: nat -> RefreshOutcome)
    requires start < |pool| && t <= fuel <= |pool|
    ensures OnlyRetires(pool, ScanFrom(pool, start, t, fuel, expired, refresh), expired, refresh)
    decreases fuel - t
  {
    if t < fuel {
      var n := |pool|;
      var i := Slot(start, t, n);
      match Inspect(pool, i, expired, refresh)
      case Take =>
      case Pass(pool') =>
        ScanOnlyRetiresDenied(pool', start, t + 1, fuel, expired, refresh);
        if Denied(pool, i, expired, refresh) {
          RetiredOnce(pool, pool', i, ScanFrom(pool', start, t + 1, fuel, expired, refresh), expired, refresh);
        }
    }
  }

  /** What a scan did to a pool with entry `i` already retired, it did to the pool before the retirement. */
  lemma RetiredOnce(pool: seq<ManagedCredential>, pool': seq<ManagedCredential>, i: nat, s: Scan,
                    expired: nat -> bool, refresh: nat -> RefreshOutcome)
    requires i < |pool| && pool' == pool[i := pool[i].(isValid := false)]
    requires Denied(pool, i, expired, refresh)
    requires OnlyRetires(pool', s, expired, refresh)
    ensures OnlyRetires(pool, s, expired, refresh)
  {
    forall j | 0 <= j < |pool|
      ensures EntryKeptOrRetired(pool[j], s.pool[j], j, expired, refresh)
    {
      assert EntryKeptOrRetired(pool'[j], s.pool[j], j, expired, refresh);
      if j == i {
        assert !pool'[i].isValid;
        assert s.pool[i] == pool[i].(isValid := false);
      } else {
        assert pool'[j] == pool[j];
      }
    }
  }

  /** A valid entry that has not expired is handed out at once, with nothing refreshed or retired. */
  lemma FreshEntryFirst(pool: seq<ManagedCredential>, start: nat, expired: nat -> bool, refresh: nat -> RefreshOutcome)
    requires start < |pool| && pool[start].isValid && !expired(start)
    ensures ScanFrom(pool, start, 0, |pool|, expired, refresh) == Scan(pool, 1, Some(start))
  {
  }

  /**
   * A full scan of a pool whose entries are all invalid consults no refresh: it inspects every
   * entry and returns nothing, whatever the refresh outcomes would have been.
   */
  lemma {:induction false} AllInvalidNoRefresh(pool: seq<ManagedCredential>, start: nat, t: nat, fuel: nat,
                                               expired: nat -> bool, refresh: nat -> RefreshOutcome, refresh': nat -> RefreshOutcome)
    requires start < |pool| && t <= fuel <= |pool|
    requires forall j :: 0 <= j < |pool| ==> !pool[j].isValid
    ensures ScanFrom(pool, start, t, fuel, expired, refresh) == Scan(pool, fuel, None)
    ensures ScanFrom(pool, start, t, fuel, expired, refresh) == ScanFrom(pool, start, t, fuel, expired, refresh')
    decreases fuel - t
  {
    if t < fuel {
      AllInvalidNoRefresh(pool, start, t + 1, fuel, expired, refresh, refresh');
    }
  }

  /** The detail of the 503 answered when the pool has nothing to hand out. */
  const NoCredentialsDetail: string := "No valid credentials available in the rotation pool. Please run the generator or configure environment variables."

  /** `get_rotating_credential`: no credential becomes a 503. */
  function GetRotatingCredential(chosen: Option<ManagedCredential>): (r: Result<ManagedCredential, Exception>)
    ensures r.Err? <==> chosen.None?
    ensures r.Err? ==> r.error.HttpError? && r.error.status == 503
    ensures r.Ok? ==> chosen == Some(r.value)
  {
    if chosen.None? then
      Err(HttpError(503, NoCredentialsDetail, None))
    else Ok(chosen.value)
  }

  /** The pool and its rotation cursor. */
  class CredentialManager {
    var credentials: seq<ManagedCredential>
    var nextIndex: nat

    ghost predicate Valid()
      reads this
    {
      nextIndex < |credentials| || (credentials == [] && nextIndex == 0)
    }

    /** `CredentialManager()`: an empty pool with the cursor at 0, filled by `load_credentials`. */
    constructor (envList: string, files: seq<Option<Json>>, codec: Codec, defaultClientId: string, defaultClientSecret: string)
      ensures Valid() && nextIndex == 0
      ensures var spec := LoadCredentialsSpec(envList, files, codec, defaultClientId, defaultClientSecret);
        spec.Ok? ==> credentials == spec.value
    {
      credentials := [];
      nextIndex := 0;
      new;
      var _ := LoadCredentials(envList, files, codec, defaultClientId, defaultClientSecret);
    }

    /** `_add_credential_from_info`, appending to the pool. */
    method AddCredentialFromInfo(info: Json, defaultClientId: string, defaultClientSecret: string) returns (r: Result<(), Exception>)
      requires Valid()
      modifies this
      ensures Valid() && nextIndex == old(nextIndex)
      ensures var spec := CredentialFromInfo(info, defaultClientId, defaultClientSecret);
        && (r.Ok? <==> spec.Ok?)
        && (spec.Err? ==> r.error == spec.error && credentials == old(credentials))
        && (spec.Ok? ==> credentials == old(credentials) + Added(spec.value))
    {
      var spec := CredentialFromInfo(info, defaultClientId, defaultClientSecret);
      if spec.Err? {
        return Err(spec.error);
      }
      credentials := credentials + Added(spec.value);
      return Ok(());
    }

    /** `_load_from_env`: True when the inline list was taken. */
    method LoadFromEnv(envList: string, codec: Codec, defaultClientId: string, defaultClientSecret: string)
      returns (r: Result<bool, Exception>)
      requires Valid()
      modifies this
      ensures Valid() && nextIndex == old(nextIndex)
      ensures var spec := LoadFromEnvSpec(envList, codec, defaultClientId, defaultClientSecret);
        && (r.Ok? <==> spec.Ok?)
        && (spec.Err? ==> r.error == spec.error)
        && (spec.Ok? ==> r.value == spec.value.used && credentials == old(credentials) + spec.value.added)
    {
      if envList == "" {
        return Ok(false);
      }
      var decoded := codec.loads(envList);
      if decoded.None? || !decoded.value.JArr? {
        return Ok(false);
      }
      var items := decoded.value.items;
      ghost var before := credentials;
      ghost var done: seq<ManagedCredential> := [];
      ghost var target := AddAll(items, defaultClientId, defaultClientSecret);
      assert items[0..] == items;
      assert before + [] == before;
      AfterPrefixNone([], target);
      var k := 0;
      while k < |items|
        invariant 0 <= k <= |items| && Valid() && nextIndex == old(nextIndex)
        invariant credentials == before + done
        invariant target == AfterPrefix(done, AddAll(items[k..], defaultClientId, defaultClientSecret))
      {
        var added := AddCredentialFromInfo(items[k], defaultClientId, defaultClientSecret);
        if added.Err? {
          AfterPrefixFails(items, k, done, defaultClientId, defaultClientSecret);
          if CaughtByEnvLoader(added.error) {
            return Ok(false);
          }
          return Err(added.error);
        }
        AfterPrefixStep(items, k, done, defaultClientId, defaultClientSecret);
        ghost var more := Added(CredentialFromInfo(items[k], defaultClientId, defaultClientSecret).value);
        AppendAssoc(before, done, more);
        done := done + more;
        k := k + 1;
      }
      assert items[k..] == [];
      AfterPrefixNone(done, Ok(EnvLoad([], true)));
      return Ok(true);
    }

    /** One file of `_load_from_files`: the `try` around reading it and adding its record. */
    method LoadFile(file: Option<Json>, defaultClientId: string, defaultClientSecret: string)
      requires Valid()
      modifies this
      ensures Valid() && nextIndex == old(nextIndex)
      ensures credentials == old(credentials) + FileRecords(file, defaultClientId, defaultClientSecret)
    {
      if file.Some? {
        var _ := AddCredentialFromInfo(file.value, defaultClientId, defaultClientSecret);
      }
    }

    /** `_load_from_files`: every file that fails to load is skipped. */
    method LoadFromFiles(files: seq<Option<Json>>, defaultClientId: string, defaultClientSecret: string)
      requires Valid()
      modifies this
      ensures Valid() && nextIndex == old(nextIndex)
      ensures credentials == old(credentials) + LoadFromFilesSpec(files, defaultClientId, defaultClientSecret)
    {
      assert files[0..] == files;
      var k := 0;
      while k < |files|
        invariant 0 <= k <= |files| && Valid() && nextIndex == old(nextIndex)
        invariant credentials + LoadFromFilesSpec(files[k..], defaultClientId, defaultClientSecret)
          == old(credentials) + LoadFromFilesSpec(files, defaultClientId, defaultClientSecret)
      {
        FilesStep(files, k, defaultClientId, defaultClientSecret);
        ghost var prev := credentials;
        LoadFile(files[k], defaultClientId, defaultClientSecret);
        AppendAssoc(prev, FileRecords(files[k], defaultClientId, defaultClientSecret),
          LoadFromFilesSpec(files[k + 1..], defaultClientId, defaultClientSecret));
        k := k + 1;
      }
      assert files[k..] == [];
      assert credentials + [] == credentials;
    }

    /** `load_credentials`: the inline list when it is taken, otherwise the files as well. */
    method LoadCredentials(envList: string, files: seq<Option<Json>>, codec: Codec, defaultClientId: string, defaultClientSecret: string)
      returns (r: Result<(), Exception>)
      requires Valid()
      modifies this
      ensures Valid() && nextIndex == old(nextIndex)
      ensures var spec := LoadCredentialsSpec(envList, files, codec, defaultClientId, defaultClientSecret);
        && (r.Ok? <==> spec.Ok?)
        && (spec.Ok? ==> credentials == old(credentials) + spec.value)
    {
      var fromEnv := LoadFromEnv(envList, codec, defaultClientId, defaultClientSecret);
      if fromEnv.Err? {
        return Err(fromEnv.error);
      }
      if !fromEnv.value {
        ghost var mid := credentials;
        LoadFromFiles(files, defaultClientId, defaultClientSecret);
        assert credentials == old(credentials) + (mid[|old(credentials)|..] + LoadFromFilesSpec(files, defaultClientId, defaultClientSecret));
      }
      return Ok(());
    }

    /**
     * `get_next_credential`: inspect at most one full round from the cursor, advancing it past
     * every inspected entry, and hand out the first entry that is fresh or refreshes.
     */
    method GetNextCredential(expired: nat -> bool, refresh: nat -> RefreshOutcome) returns (chosen: Option<ManagedCredential>)
      requires Valid()
      modifies this
      ensures Valid()
      ensures Rotated(chosen, credentials, nextIndex) == Rotate(old(credentials), old(nextIndex), expired, refresh)
    {
      if |credentials| == 0 {
        return None;
      }
      var n := |credentials|;
      ghost var start := nextIndex;
      ghost var target := Rotate(credentials, nextIndex, expired, refresh);
      ghost var scan := ScanFrom(credentials, start, 0, n, expired, refresh);
      assert target == Rotated(if scan.chosen.Some? then Some(scan.pool[scan.chosen.value]) else None, scan.pool, Slot(start, scan.inspected, n));
      assert Slot(start, 0, n) == start;
      for k := 0 to n
        invariant |credentials| == n && nextIndex == Slot(start, k, n)
        invariant scan == ScanFrom(credentials, start, k, n, expired, refresh)
      {
        var index := nextIndex;
        ghost var before := credentials;
        SlotStep(start, k, n);
        nextIndex := (nextIndex + 1) % n;
        var taken := InspectEntry(index, expired, refresh);
        RoundStep(before, start, k, n, expired, refresh, credentials, taken);
        if taken {
          return Some(credentials[index]);
        }
      }
      return None;
    }

    /**
     * The body of `get_next_credential`'s loop on the entry at `index`: hand it out when it is
     * usable, otherwise pass over it, retiring it when its refresh is denied.
     */
    method InspectEntry(index: nat, expired: nat -> bool, refresh: nat -> RefreshOutcome) returns (taken: bool)
      requires index < |credentials|
      modifies this
      ensures nextIndex == old(nextIndex)
      ensures var r := Inspect(old(credentials), index, expired, refresh);
        && taken == r.Take?
        && credentials == (if r.Take? then old(credentials) else r.pool)
    {
      var managed := credentials[index];
      if !managed.isValid {
        return false;
      }
      if !expired(index) {
        return true;
      }
      if Truthy(managed.refreshToken) {
        match refresh(index)
        case Refreshed =>
          return true;
        case AuthDenied =>
          credentials := credentials[index := managed.(isValid := false)];
          return false;
        case Transient =>
          return false;
      }
      return false;
    }
  }

  /** Every entry is some slot of a full round. */
  lemma SlotOnto(start: nat, j: nat, n: nat) returns (u: nat)
    requires start < n && j < n
    ensures u < n && Slot(start, u, n) == j
  {
    u := if j >= start then j - start else j + n - start;
  }

  /**
   * `get_next_credential` finds nothing, and the dependency answers 503, exactly when no entry of
   * the pool is usable; otherwise the entry it hands out is usable.
   */
  lemma NothingUsableIff503(pool: seq<ManagedCredential>, start: nat, expired: nat -> bool, refresh: nat -> RefreshOutcome)
    requires start < |pool| || (pool == [] && start == 0)
    ensures var rot := Rotate(pool, start, expired, refresh);
      && (GetRotatingCredential(rot.chosen).Err? <==> forall j :: 0 <= j < |pool| ==> !Usable(pool, j, expired, refresh))
      && (rot.chosen.Some? ==> exists j :: 0 <= j < |pool| && Usable(pool, j, expired, refresh) && rot.chosen.value == rot.pool[j])
  {
    if pool != [] {
      var n := |pool|;
      ScanChoosesFirstUsable(pool, start, 0, n, expired, refresh);
      var s := ScanFrom(pool, start, 0, n, expired, refresh);
      if s.chosen.None? {
        assert FirstUsable(pool, start, 0, n, expired, refresh).None?;
        forall j | 0 <= j < n
          ensures !Usable(pool, j, expired, refresh)
        {
          var u := SlotOnto(start, j, n);
        }
      }
    }
  }
}
