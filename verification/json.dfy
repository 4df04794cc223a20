/** Parsed JSON request bodies and serialized response objects. */
module Json {
  import opened Results

  datatype Value =
    | Null
    | Bool(b: bool)
    | Number(n: real)
    | Str(s: string)
    | Array(items: seq<Value>)
    | Object(fields: map<string, Value>)

  /** A JSON object: its properties by name. */
  type Body = map<string, Value>

  /** The property `key` of an object; `None` when it is undefined. */
  function Get(body: Body, key: string): (p: Option<Value>)
    ensures p.Some? <==> key in body
    ensures p.Some? ==> p.value == body[key]
  {
    if key in body then Some(body[key]) else None
  }
}
