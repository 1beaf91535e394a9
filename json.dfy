/**
 * The values an event body can hold, the JavaScript checks the core makes on
 * them, and the JSON text codec as an abstract pair of functions.
 */
module Json {
  import opened Wrappers
  import JsString

  /**
   * A body value: JSON-like data, plus `Binary` for a Node.js Buffer, which is
   * represented by the UTF-8 text it decodes to.
   */
  datatype Body =
    | Null
    | Bool(b: bool)
    | Num(n: int)
    | Str(s: string)
    | Arr(items: seq<Body>)
    | Obj(fields: map<string, Body>)
    | Binary(text: string)

  /** `v instanceof Object`: arrays, plain objects and Buffers, but not primitives or null. */
  predicate IsObject(v: Body) {
    v.Arr? || v.Obj? || v.Binary?
  }

  /** `k in v` for an object `v`: only plain objects carry named keys here. */
  predicate HasKey(v: Body, k: string) {
    v.Obj? && k in v.fields
  }

  /** `String(v)`. */
  function ToJsString(v: Body): string {
    match v
    case Null => "null"
    case Bool(x) => if x then "true" else "false"
    case Num(n) => JsString.IntToString(n)
    case Str(s) => s
    case Arr(xs) => ItemsString(xs)
    case Obj(_) => "[object Object]"
    case Binary(t) => t
  }

  /** `String(xs)` for an array: the items joined by commas, null items printed as empty. */
  function ItemsString(xs: seq<Body>): string
    decreases xs
  {
    if |xs| == 0 then ""
    else
      var last := if xs[|xs| - 1] == Null then "" else ToJsString(xs[|xs| - 1]);
      if |xs| == 1 then last else ItemsString(xs[..|xs| - 1]) + "," + last
  }

  /**
   * `JSON.stringify` and `JSON.parse`; `parse` gives `None` where JSON.parse
   * throws a SyntaxError. Only the round trip below is assumed of them.
   */
  datatype Codec = Codec(stringify: Body -> string, parse: string -> Option<Body>)

  /** A value with no Buffer anywhere in it: what `JSON.stringify` and `JSON.parse` carry unchanged. */
  predicate Plain(v: Body) {
    match v
    case Binary(_) => false
    case Arr(xs) => forall i :: 0 <= i < |xs| ==> Plain(xs[i])
    case Obj(fs) => forall k :: k in fs ==> Plain(fs[k])
    case _ => true
  }

  /** The Buffer form `JSON.stringify` writes and `JSON.parse` reads back: `{"type":"Buffer",...}`. */
  predicate BufferObject(v: Body) {
    v.Obj? && "type" in v.fields && v.fields["type"] == Str("Buffer")
  }

  /**
   * Parsing the text that stringify produced gives back a plain value, and
   * turns a Buffer into its `{"type":"Buffer","data":[...]}` object.
   */
  ghost predicate Lawful(c: Codec) {
    && (forall v :: Plain(v) ==> c.parse(c.stringify(v)) == Some(v))
    && (forall t :: c.parse(c.stringify(Binary(t))).Some? && BufferObject(c.parse(c.stringify(Binary(t))).value))
  }
}
