/** JavaScript values as the SDK's core code observes them, and the host
    built-ins it calls (text codecs, JSON, String(), URLSearchParams). The
    built-ins are not modelled: they are parameters, so every property proved
    holds for whatever they compute. */
module JsValues {

  datatype Option<+T> = None | Some(value: T)

  type Bytes = seq<bv8>

  /** A response as `fetch` resolves it: whether the status is 2xx, its
      Content-Type header (None when absent) and its body bytes. */
  datatype HttpResponse = HttpResponse(ok: bool, contentType: Option<string>, body: Bytes)

  datatype Value =
    | Undefined
    | Null
    | Bool(b: bool)
    | Num(n: real)
    | NaN
    | Str(s: string)
    | Uint8(bytes: Bytes)          // a Uint8Array that is not a Node Buffer
    | NodeBuffer(bytes: Bytes)     // a Node Buffer, itself a Uint8Array
    | Blob(bytes: Bytes)
    | Arr(elems: seq<Value>)
    | Obj(fields: map<string, Value>)
    | Fn(name: string)             // a function object, known by name
    | Response(response: HttpResponse)
    | Opaque(tag: string)          // any other object: a schema, an error instance

  /** JavaScript truthiness: undefined, null, false, 0, NaN and "" are falsy;
      every object (an empty byte array included) is truthy. */
  predicate Truthy(v: Value)
  {
    match v
    case Undefined => false
    case Null => false
    case Bool(b) => b
    case Num(n) => n != 0.0
    case NaN => false
    case Str(s) => s != ""
    case _ => true
  }

  /** `v instanceof Uint8Array`: true of plain byte arrays and of Buffers. */
  predicate IsUint8Array(v: Value)
  {
    v.Uint8? || v.NodeBuffer?
  }

  /** `typeof v === "object"` (null included, as in JavaScript). */
  predicate TypeofObject(v: Value)
  {
    v.Null? || v.Uint8? || v.NodeBuffer? || v.Blob? || v.Arr? || v.Obj? || v.Response? || v.Opaque?
  }

  /** The host functions the core calls, left uninterpreted. */
  datatype Builtins = Builtins(
    decodeUtf8: Bytes -> string,                // new TextDecoder().decode(bytes)
    encodeUtf8: string -> Bytes,                // new TextEncoder().encode(text)
    parseJson: string -> Option<Value>,         // JSON.parse(text); None where it throws
    stringifyJson: Value -> Option<string>,     // JSON.stringify(v); None where it returns undefined
    toText: Value -> string,                    // String(v)
    encodeQuery: map<string, Value> -> string   // new URLSearchParams(params).toString()
  )

  /** The SyntaxError that JSON.parse (and `response.json()`) throws. */
  const JsonSyntaxError: Value := Opaque("SyntaxError")

  /** What `JSON.stringify(v)` becomes once concatenated to a string or
      appended to a form: its text, or "undefined" when it returns undefined. */
  function JsonText(b: Builtins, v: Value): string
  {
    match b.stringifyJson(v)
    case Some(text) => text
    case None => "undefined"
  }
}
