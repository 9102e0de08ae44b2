/**
 * JSON values as Python's `json` module produces them: dictionaries are ordered member lists (a
 * Python dict keeps insertion order), numbers are integers or opaque decimal literals.
 */
module Json {
  import opened Wrappers
  import Strs

  datatype Json =
    | JNull
    | JBool(b: bool)
    | JInt(i: int)
    | JFloat(f: Decimal)
    | JStr(s: string)
    | JArr(items: seq<Json>)
    | JObj(members: seq<Member>)

  datatype Member = Member(key: string, value: Json)

  /** A float literal `mantissa * 10^exponent`; floats are carried along, never computed on. */
  datatype Decimal = Decimal(mantissa: int, exponent: int)

  type Object = seq<Member>

  /** Python's `bool(value)`. */
  predicate Truthy(j: Json) {
    match j
    case JNull => false
    case JBool(b) => b
    case JInt(i) => i != 0
    case JFloat(f) => f.mantissa != 0
    case JStr(s) => s != ""
    case JArr(items) => items != []
    case JObj(ms) => ms != []
  }

  /** Python's `key in d` for a dict. */
  predicate HasKey(ms: Object, key: string) {
    ms != [] && (ms[0].key == key || HasKey(ms[1..], key))
  }

  /** The value stored under `key` (a dict holds each key at most once; the first member wins). */
  function Lookup(ms: Object, key: string): (r: Option<Json>)
    ensures r.Some? <==> HasKey(ms, key)
  {
    if ms == [] then None
    else if ms[0].key == key then Some(ms[0].value)
    else Lookup(ms[1..], key)
  }

  /** The member a lookup finds: the first one carrying the key. */
  lemma {:induction false} LookupAt(ms: Object, key: string, i: nat)
    requires i < |ms| && ms[i].key == key && forall j :: 0 <= j < i ==> ms[j].key != key
    ensures Lookup(ms, key) == Some(ms[i].value)
  {
    if i > 0 {
      LookupAt(ms[1..], key, i - 1);
    }
  }

  /** Python's `d.get(key, default)`. */
  function Get(ms: Object, key: string, default: Json): Json {
    Lookup(ms, key).GetOr(default)
  }

  /** Python's `d.get(key)`: a missing key reads as `None`. */
  function GetOrNull(ms: Object, key: string): Json {
    Get(ms, key, JNull)
  }

  /** Python's `d[key] = value`: overwrite in place, or append a new member. */
  function Put(ms: Object, key: string, value: Json): (r: Object)
    ensures HasKey(r, key) && Lookup(r, key) == Some(value)
    ensures forall k :: k != key ==> Lookup(r, k) == Lookup(ms, k)
  {
    if ms == [] then [Member(key, value)]
    else if ms[0].key == key then [Member(key, value)] + ms[1..]
    else [ms[0]] + Put(ms[1..], key, value)
  }

  /** `value.get(key, default)` on an arbitrary JSON value: anything but a dict raises AttributeError. */
  function DictGet(j: Json, key: string, default: Json): Result<Json, Exception> {
    if j.JObj? then Ok(Get(j.members, key, default)) else Err(AttributeError)
  }

  /** Python's `key in container` on an arbitrary JSON value; numbers, booleans and None raise TypeError. */
  function PyContains(container: Json, key: string): Result<bool, Exception> {
    match container
    case JObj(ms) => Ok(HasKey(ms, key))
    case JArr(items) => Ok(JStr(key) in items)
    case JStr(s) => Ok(Strs.Contains(s, key))
    case _ => Err(TypeError)
  }

  /** Python's `container[key]` with a string index: only a dict holding the key answers. */
  function Subscript(container: Json, key: string): Result<Json, Exception> {
    match container
    case JObj(ms) => if HasKey(ms, key) then Ok(Lookup(ms, key).value) else Err(KeyError)
    case _ => Err(TypeError)
  }

  /** The library JSON codec: `json.dumps` and `json.loads` (None when the text does not decode). */
  datatype Codec = Codec(dumps: Json -> string, loads: string -> Option<Json>)

  function OptStr(s: Option<string>): Json {
    if s.Some? then JStr(s.value) else JNull
  }

  function OptInt(i: Option<int>): Json {
    if i.Some? then JInt(i.value) else JNull
  }

  function OptFloat(f: Option<Decimal>): Json {
    if f.Some? then JFloat(f.value) else JNull
  }

  /** The dict comprehension `{k: v for k, v in d.items() if v is not None}`. */
  function DropNone(ms: Object): (r: Object)
    ensures forall m :: m in r <==> m in ms && m.value != JNull
    ensures |r| <= |ms|
  {
    if ms == [] then []
    else if ms[0].value == JNull then DropNone(ms[1..])
    else [ms[0]] + DropNone(ms[1..])
  }

  /** Filtering distributes over concatenation. */
  lemma {:induction false} DropNoneAppend(a: Object, b: Object)
    ensures DropNone(a + b) == DropNone(a) + DropNone(b)
  {
    if a != [] {
      assert (a + b)[0] == a[0];
      assert (a + b)[1..] == a[1..] + b;
      DropNoneAppend(a[1..], b);
    } else {
      assert a + b == b;
    }
  }

  /** A key whose candidates are all `None` is not in the filtered dict. */
  lemma DropNoneKeyGone(ms: seq<Member>, key: string)
    requires forall k :: 0 <= k < |ms| && ms[k].key == key ==> ms[k].value == JNull
    ensures forall m :: m in DropNone(ms) ==> m.key != key
  {
    forall m | m in DropNone(ms) ensures m.key != key {
      var k :| 0 <= k < |ms| && ms[k] == m;
    }
  }

  /** A dict none of whose members carries `key` does not hold it. */
  lemma {:induction false} NoKeyOutside(ms: Object, key: string)
    requires forall m :: m in ms ==> m.key != key
    ensures !HasKey(ms, key)
  {
    if ms != [] {
      assert ms[0] in ms;
      assert forall m :: m in ms[1..] ==> m in ms;
      NoKeyOutside(ms[1..], key);
    }
  }

}
