/**
 * Parsed JSON as a tree.  The text form (parsing and printing) belongs to
 * the JSON library and is not modelled: a payload arrives here already
 * parsed, or as a failed parse.
 */
module Json {
  import opened Wrappers
  import opened JavaText

  /** Floating-point numbers are opaque: only their bit pattern is carried and compared. */
  datatype Decimal = FloatBits(f: bv32) | DoubleBits(d: bv64)

  datatype Json =
    | JNull
    | JBool(b: bool)
    | JInt(i: int)
    | JDecimal(d: Decimal)
    | JString(s: string)
    | JArray(items: seq<Json>)
    | JObject(fields: map<string, Json>)

  /** A possibly-null Java string stored as a JSON value (a Java null is `JNull`). */
  function StringValue(s: JString): (r: Json)
    ensures s.None? <==> r == JNull
    ensures s.Some? ==> r == JString(s.value)
  {
    if s.Some? then JString(s.value) else JNull
  }

  /** One step of a JSONPath such as `$.choices[0].delta.content`. */
  datatype Selector = Field(name: string) | Item(index: nat)

  function Select(j: Json, sel: Selector): Option<Json> {
    match sel
    case Field(k) => if j.JObject? && k in j.fields then Some(j.fields[k]) else None
    case Item(n) => if j.JArray? && n < |j.items| then Some(j.items[n]) else None
  }

  /** JSONPath evaluation: `None` (null) as soon as a step finds nothing. */
  function Eval(j: Json, path: seq<Selector>): (r: Option<Json>)
    ensures path == [] ==> r == Some(j)
    ensures path != [] ==> r == (match Select(j, path[0]) case None => None case Some(k) => Eval(k, path[1..]))
  {
    if path == [] then Some(j)
    else match Select(j, path[0])
      case None => None
      case Some(k) => Eval(k, path[1..])
  }

  /**
   * The `(String)` cast applied to a JSONPath result: null stays null, a
   * string is kept, anything else raises a ClassCastException (`Threw`).
   */
  function CastToString(v: Option<Json>): (r: Outcome<JString, ()>)
    ensures r.Threw? <==> v.Some? && !v.value.JNull? && !v.value.JString?
    ensures r == Returned(None) <==> v.None? || v == Some(JNull)
  {
    match v
    case None => Returned(None)
    case Some(JNull) => Returned(None)
    case Some(JString(s)) => Returned(Some(s))
    case Some(_) => Threw(())
  }

  /** A member of an object as `JSONObject.get` sees it (a JSON null reads as null). */
  function Member(m: map<string, Json>, key: string): Option<Json> {
    if key in m && m[key] != JNull then Some(m[key]) else None
  }

  /**
   * Why a member cannot be read as an object or an array: it is of another
   * kind, or it is text that does not parse to an object.
   */
  datatype Refusal = WrongKind | Unparsable

  /** The strings fastjson2 reads as a missing object or array: "" and "null" in any case. */
  predicate NullText(s: string) {
    s == [] || EqualsIgnoreCase(s, Some("null"))
  }

  /** A string member read as an object: null text gives null, any other text is parsed as JSON. */
  function TextObject(s: string, parseObject: string -> Option<map<string, Json>>): Outcome<Option<map<string, Json>>, Refusal> {
    if NullText(s) then Returned(None)
    else match parseObject(s)
      case None => Threw(Unparsable)
      case Some(f) => Returned(Some(f))
  }

  /**
   * `JSONObject.getJSONObject(key)`: null when absent, the object when it is
   * one; a string is read as JSON text, with "" and "null" giving null.
   * Every other kind of value is refused.
   */
  function ObjectMember(m: map<string, Json>, key: string, parseObject: string -> Option<map<string, Json>>)
    : (r: Outcome<Option<map<string, Json>>, Refusal>)
    ensures r == Returned(None) <==>
      Member(m, key).None? || (Member(m, key).value.JString? && NullText(Member(m, key).value.s))
    ensures r.Returned? && r.value.Some? ==>
      Member(m, key) == Some(JObject(r.value.value))
      || (Member(m, key).Some? && Member(m, key).value.JString? && parseObject(Member(m, key).value.s) == r.value)
    ensures r == Threw(WrongKind) <==>
      Member(m, key).Some? && !Member(m, key).value.JObject? && !Member(m, key).value.JString?
  {
    match Member(m, key)
    case None => Returned(None)
    case Some(JObject(f)) => Returned(Some(f))
    case Some(JString(s)) => TextObject(s, parseObject)
    case Some(_) => Threw(WrongKind)
  }

  /** `JSONObject.getJSONArray(key)`: null when absent or null text, the array when it is one. */
  function ArrayMember(m: map<string, Json>, key: string): Outcome<Option<seq<Json>>, Refusal> {
    match Member(m, key)
    case None => Returned(None)
    case Some(JArray(items)) => Returned(Some(items))
    case Some(JString(s)) => if NullText(s) then Returned(None) else Threw(WrongKind)
    case Some(_) => Threw(WrongKind)
  }

  /** `JSONArray.getJSONObject(n)` on a long enough array, with the cases of `ObjectMember`. */
  function ObjectItem(items: seq<Json>, n: nat, parseObject: string -> Option<map<string, Json>>)
    : Outcome<Option<map<string, Json>>, Refusal>
    requires n < |items|
  {
    match items[n]
    case JNull => Returned(None)
    case JObject(f) => Returned(Some(f))
    case JString(s) => TextObject(s, parseObject)
    case _ => Threw(WrongKind)
  }

  /**
   * `JSONObject.getString(key)`: strings as they are, booleans and integers
   * as their text, null when absent.
   */
  function StringMember(m: map<string, Json>, key: string): JString {
    match Member(m, key)
    case Some(JString(s)) => Some(s)
    case Some(JBool(b)) => Some(if b then "true" else "false")
    case Some(JInt(i)) => Some(IntToString(i))
    case _ => None
  }

  /**
   * `JSONObject.getIntValue(key, default)` for integer members: the integer
   * when present, the default when the key is absent or null.  Decimal and
   * numeric-string values, which fastjson converts, also read as the default.
   */
  function IntMember(m: map<string, Json>, key: string, default: int): (r: int)
    ensures key in m && m[key].JInt? ==> r == m[key].i
    ensures key !in m || m[key] == JNull ==> r == default
  {
    match Member(m, key)
    case Some(JInt(i)) => i
    case _ => default
  }
}
