/**
  JSON values (RFC 8259) as the Python `json` module hands them over, and an
  abstract codec: `json.loads` and `json.dumps` are not modelled character by
  character, they are the two fields of a `Codec` and the properties the server
  relies on are stated as predicates over it.
 */
module Json {
  import opened Wrappers
  import opened Text

  datatype Json =
    | JNull
    | JBool(b: bool)
    | JInt(i: int)
    | JFloat(f: real)
    | JString(s: string)
    | JArray(items: seq<Json>)
    | JObject(members: seq<(string, Json)>)

  /** Python's `d.get(key)` on a decoded object; as with `json.loads`, the last binding of a key wins. */
  function Get(members: seq<(string, Json)>, key: string): (r: Option<Json>)
    ensures r.None? <==> forall k :: 0 <= k < |members| ==> members[k].0 != key
    ensures r.Some? ==> exists k :: 0 <= k < |members| && members[k] == (key, r.value)
    decreases |members|
  {
    if members == [] then None
    else if members[|members| - 1].0 == key then Some(members[|members| - 1].1)
    else Get(members[..|members| - 1], key)
  }

  /** Python's `key in d`. */
  predicate HasKey(members: seq<(string, Json)>, key: string) {
    Get(members, key).Some?
  }

  /** Python's `d.get(key, default)`. */
  function GetOr(members: seq<(string, Json)>, key: string, default: Json): Json {
    match Get(members, key)
    case Some(v) => v
    case None => default
  }

  /** Python's truthiness of a decoded value: None, False, 0, 0.0, "", [] and {} are false. */
  predicate Truthy(j: Json) {
    match j
    case JNull => false
    case JBool(b) => b
    case JInt(i) => i != 0
    case JFloat(f) => f != 0.0
    case JString(s) => s != ""
    case JArray(items) => items != []
    case JObject(members) => members != []
  }

  /** `json.loads` (None when it raises `JSONDecodeError`) and `json.dumps`. */
  datatype Codec = Codec(parse: string -> Option<Json>, dumps: Json -> string)

  /** The insignificant whitespace of RFC 8259, section 2. */
  const JsonWhitespace: set<char> := {' ', '\t', '\n', '\r'}

  /**
    The characters a JSON value can begin with (RFC 8259, section 2, plus the
    `NaN` and `Infinity` literals that Python's decoder also accepts).
   */
  predicate ValueStart(ch: char) {
    ch in {'{', '[', '"', '-', 't', 'f', 'n', 'N', 'I'} || IsDigit(ch)
  }

  /**
    What the server may rely on in Python's codec: `{}` decodes to the empty
    object and is what the empty object encodes to, and a text whose first
    character is neither whitespace nor the start of a value is rejected.
   */
  ghost predicate Conforms(c: Codec) {
    && c.parse("{}") == Some(JObject([]))
    && c.dumps(JObject([])) == "{}"
    && forall s :: |s| > 0 && s[0] !in JsonWhitespace && !ValueStart(s[0]) ==> c.parse(s) == None
  }

  /** `json.loads(json.dumps(j)) == j` holds for this value (it does for every value Python's dicts can hold). */
  ghost predicate RoundTrips(c: Codec, j: Json) {
    c.parse(c.dumps(j)) == Some(j)
  }
}
