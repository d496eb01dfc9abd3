/**
 * Parsed JSON as the service handles it: `json.loads` results, request
 * bodies and the verdict dictionaries the evaluators return.
 */
module JsonValues {
  import opened Wrappers
  import opened Text

  datatype Json =
    | JNull
    | JBool(b: bool)
    | JInt(i: int)
    | JReal(r: real)
    | JString(s: string)
    | JList(items: seq<Json>)
    | JDict(fields: map<string, Json>)

  /** `d.get(key)` on a dictionary; nothing on any other value. */
  function Get(j: Json, key: string): (r: Option<Json>)
    ensures r.Some? <==> j.JDict? && key in j.fields
  {
    if j.JDict? && key in j.fields then Some(j.fields[key]) else None
  }

  /** `json.loads` is foreign: a parser maps text to a value or to the message of the error it raises. */
  type Parser = string -> Result<Json, string>

  // Python's built-in exceptions are named by their class; their message texts are not modelled.
  const KeyError: string := "KeyError"
  const IndexError: string := "IndexError"
  const TypeError: string := "TypeError"
  const AttributeError: string := "AttributeError"

  /** `j[key]` with a string key. */
  function At(j: Json, key: string): (r: Result<Json, string>)
    ensures r.Ok? <==> j.JDict? && key in j.fields
    ensures r.Ok? ==> r.value == j.fields[key]
  {
    match j
    case JDict(f) => if key in f then Ok(f[key]) else Err(KeyError)
    case _ => Err(TypeError)
  }

  /** `j[i]` with a non-negative index: a list item, or a one-character string. */
  function Nth(j: Json, i: nat): (r: Result<Json, string>)
    ensures r.Ok? <==> (j.JList? && i < |j.items|) || (j.JString? && i < |j.s|)
  {
    match j
    case JList(items) => if i < |items| then Ok(items[i]) else Err(IndexError)
    case JString(s) => if i < |s| then Ok(JString([s[i]])) else Err(IndexError)
    case JDict(_) => Err(KeyError)
    case _ => Err(TypeError)
  }

  /** `key in j`: a dictionary key, a list item or a substring. */
  function HasKey(j: Json, key: string): Result<bool, string> {
    match j
    case JDict(f) => Ok(key in f)
    case JList(items) => Ok(JString(key) in items)
    case JString(s) => Ok(Contains(s, key))
    case _ => Err(TypeError)
  }

  /** `response["choices"][0]["message"]["content"]` */
  function MessageContent(response: Json): (r: Result<Json, string>)
    ensures r.Ok? ==> response.JDict? && "choices" in response.fields
  {
    match At(response, "choices")
    case Err(e) => Err(e)
    case Ok(choices) =>
      match Nth(choices, 0)
      case Err(e) => Err(e)
      case Ok(first) =>
        match At(first, "message")
        case Err(e) => Err(e)
        case Ok(message) => At(message, "content")
  }

  /** `json.loads(x)`: a non-string argument raises `TypeError` before any parsing. */
  function Loads(parse: Parser, x: Json): Result<Json, string> {
    if x.JString? then parse(x.s) else Err(TypeError)
  }
}
