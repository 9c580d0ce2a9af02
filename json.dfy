/** JSON values as Python's `json` module and Django's JSONField hold them. */
module Json {
  import opened Wrappers

  /** A JSON value. Numbers are integers; fractional numbers are not part of this model. */
  datatype Json =
    | JNull
    | JBool(b: bool)
    | JInt(i: int)
    | JStr(s: string)
    | JArr(items: seq<Json>)
    | JObj(fields: map<string, Json>)

  /** Python truthiness of the decoded value (`if value:`). */
  predicate Truthy(j: Json)
  {
    match j
    case JNull => false
    case JBool(b) => b
    case JInt(i) => i != 0
    case JStr(s) => s != ""
    case JArr(items) => items != []
    case JObj(fields) => fields != map[]
  }

  /** JavaScript truthiness of the parsed value: unlike Python, every array and object is truthy. */
  predicate JsTruthy(j: Json)
  {
    match j
    case JNull => false
    case JBool(b) => b
    case JInt(i) => i != 0
    case JStr(s) => s != ""
    case JArr(_) => true
    case JObj(_) => true
  }

  /** Python `value.get(key)` on a dict; `None` for a missing key or a value that is not a dict. */
  function Get(j: Json, key: string): (r: Option<Json>)
    ensures r.Some? <==> j.JObj? && key in j.fields
    ensures r.Some? ==> r.value == j.fields[key]
  {
    if j.JObj? && key in j.fields then Some(j.fields[key]) else None
  }

  /** `key in value` for a dict. */
  predicate HasKey(j: Json, key: string)
  {
    j.JObj? && key in j.fields
  }

  /** Python `type(value).__name__` of the decoded value. */
  function TypeName(j: Json): string
  {
    match j
    case JNull => "NoneType"
    case JBool(_) => "bool"
    case JInt(_) => "int"
    case JStr(_) => "str"
    case JArr(_) => "list"
    case JObj(_) => "dict"
  }

  /** The text of the `AttributeError` that `value.get(...)` raises on a value that is not a dict. */
  function NoGetMessage(j: Json): string
  {
    "'" + TypeName(j) + "' object has no attribute 'get'"
  }

  /** A JSON object with the given string-valued members. */
  function StrObj(m: map<string, string>): Json
  {
    JObj(map k | k in m :: JStr(m[k]))
  }
}
