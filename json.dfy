/**
 * JSON values as the client sends them in request bodies and as the server reads them back from
 * text columns. Text itself is not modelled: a stored column holds the value it encodes.
 */
module Json {
  import opened Wrappers
  import opened Geometry

  datatype Json =
    | JNull
    | JBool(b: bool)
    | JNum(n: real)
    | JStr(s: string)
    | JArray(items: seq<Json>)
    | JObject(fields: map<string, Json>)

  /** JavaScript truthiness of a parsed value (`NaN` is not modelled). */
  predicate Truthy(j: Json)
  {
    match j
    case JNull => false
    case JBool(b) => b
    case JNum(n) => n != 0.0
    case JStr(s) => s != ""
    case _ => true
  }

  /** `body.key`: `None` stands for `undefined`, a key the object does not have. */
  function Get(body: map<string, Json>, key: string): (r: Option<Json>)
    ensures r.Some? <==> key in body
    ensures r.Some? ==> r.value == body[key]
  {
    if key in body then Some(body[key]) else None
  }

  /** The `{x, y, width, height}` object a rectangle is sent as. */
  function BboxJson(b: Bbox): Json
  {
    JObject(map["x" := JNum(b.x), "y" := JNum(b.y), "width" := JNum(b.width), "height" := JNum(b.height)])
  }

  function NumArray(xs: seq<int>): (r: Json)
    ensures r.JArray? && |r.items| == |xs|
    ensures forall k :: 0 <= k < |xs| ==> r.items[k] == JNum(xs[k] as real)
  {
    JArray(seq(|xs|, k requires 0 <= k < |xs| => JNum(xs[k] as real)))
  }

  /** A text column as stored: the encoding of a JSON value, or text that is not valid JSON. */
  datatype StoredText = JsonText(value: Json) | MalformedText(raw: string)

  /** `JSON.stringify`, for values it encodes (it returns `undefined` for `undefined`). */
  function Stringify(j: Option<Json>): Option<StoredText>
  {
    if j.Some? then Some(JsonText(j.value)) else None
  }

  /** `JSON.parse`: fails on text that is not JSON. */
  function Parse(t: StoredText): (r: Result<Json, string>)
    ensures t.JsonText? <==> r.Success?
  {
    match t
    case JsonText(v) => Success(v)
    case MalformedText(_) => Failure("SyntaxError")
  }

  /**
   * Parsing what was stringified gives the value back. This holds by construction: stored
   * text is modelled as the value it encodes, so the lemma records the abstraction rather
   * than a property of JSON text.
   */
  lemma ParseStringify(j: Json)
    ensures Stringify(Some(j)).Some? && Parse(Stringify(Some(j)).value) == Success(j)
  {
  }
}
