/** A small model of jsoncpp's `Json::Value`: the value kinds the backend
    builds and reads, object members kept in a map (jsoncpp stores them in a
    `std::map`), and the conversions the request handlers call. */
module JsonValue {
  import opened TrdpTypes
  import Decimal

  datatype Json =
    | JNull
    | JBool(b: bool)
    | JInt(i: int)
    | JReal(r: real)
    | JString(s: string)
    | JArray(items: seq<Json>)
    | JObject(fields: map<string, Json>)

  /** The logic error `isMember` raises on a value that is neither an object
      nor null. */
  const LookupError := "in Json::Value::find(begin, end): requires objectValue or nullValue"

  /** Looking a member up in `j` raises `LookupError`. */
  predicate LookupRaises(j: Json) {
    !j.JNull? && !j.JObject?
  }

  /** `isMember(key)` where it does not raise: null has no members. */
  predicate IsMember(j: Json, key: string) {
    j.JObject? && key in j.fields
  }

  /** `operator[](key)` on a member that is known to exist. */
  function Member(j: Json, key: string): Json
    requires IsMember(j, key)
  {
    j.fields[key]
  }

  /** `isNumeric()`: integers and reals, but not booleans. */
  predicate IsNumeric(j: Json) {
    j.JInt? || j.JReal?
  }

  /** `isArray()`. */
  predicate IsArray(j: Json) {
    j.JArray?
  }

  /** Decimal text of a signed integer, as jsoncpp's `valueToString` writes it. */
  function IntToString(i: int): (s: string)
    ensures |s| > 0
  {
    if i < 0 then "-" + Decimal.FromNat(-i) else Decimal.FromNat(i)
  }

  /** `asString()`; None where jsoncpp raises ("Type is not convertible to
      string"), that is for arrays and objects. jsoncpp's text for a double is
      the input `realText`. */
  function AsString(j: Json, realText: real -> string): (r: Option<string>)
    ensures j.JString? ==> r == Some(j.s)
    ensures j.JNull? ==> r == Some("")
    ensures j.JReal? ==> r == Some(realText(j.r))
    ensures r.None? <==> (j.JArray? || j.JObject?)
  {
    match j
    case JNull => Some("")
    case JString(s) => Some(s)
    case JBool(b) => Some(if b then "true" else "false")
    case JInt(i) => Some(IntToString(i))
    case JReal(x) => Some(realText(x))
    case _ => None
  }

  /** `asBool()`; None where jsoncpp raises ("Value is not convertible to bool"). */
  function AsBool(j: Json): (r: Option<bool>)
    ensures j.JBool? ==> r == Some(j.b)
    ensures r.None? <==> (j.JString? || j.JArray? || j.JObject?)
  {
    match j
    case JNull => Some(false)
    case JBool(b) => Some(b)
    case JInt(i) => Some(i != 0)
    case JReal(x) => Some(x != 0.0)
    case _ => None
  }

  /** `asDouble()` on a numeric value (integers are taken exactly). */
  function AsDouble(j: Json): real
    requires IsNumeric(j)
  {
    if j.JInt? then j.i as real else j.r
  }

  /** The `{"error": message}` body of the handlers' error responses. */
  function ErrorBody(message: string): Json {
    JObject(map["error" := JString(message)])
  }
}
