/** `RequestClient.fetchJSS` of src/request.ts: how a call becomes an HTTP
    request (URL, headers, body) and how the response becomes the call's
    result. `fetch` is a parameter: the network is not modelled. */
module Request {
  import opened JsValues

  const DefaultBaseURL: string := "https://api.jigsawstack.com/v1"
  const OctetStream: string := "application/octet-stream"
  const ApplicationJson: string := "application/json"

  datatype Config = Config(apiKey: string, baseURL: Option<string>)

  /** The declared signature admits POST, GET and DELETE; the body test
      also names PATCH. */
  datatype Method = GET | POST | DELETE | PATCH

  datatype Payload = RawFile(file: Value) | JsonBody(text: string)

  datatype HttpRequest = HttpRequest(url: string, verb: Method, headers: map<string, string>, body: Option<Payload>)

  /** `body instanceof Blob || body instanceof Buffer`. */
  predicate IsFileUpload(body: Value)
  {
    body.Blob? || body.NodeBuffer?
  }

  /** `config.baseURL || baseURL`: an absent or empty base URL falls back. */
  function BaseOf(config: Config): string
  {
    if config.baseURL.Some? && config.baseURL.value != "" then config.baseURL.value else DefaultBaseURL
  }

  /** `searchParams` given with at least one key. */
  predicate HasQuery(searchParams: Option<map<string, Value>>)
  {
    searchParams.Some? && |searchParams.value| > 0
  }

  function QueryString(b: Builtins, searchParams: Option<map<string, Value>>): string
  {
    if HasQuery(searchParams) then "?" + b.encodeQuery(searchParams.value) else ""
  }

  /** `_body`: the raw file for uploads, otherwise `JSON.stringify(body)`,
      which is undefined (no body) for an undefined body. */
  function Serialized(b: Builtins, body: Value): Option<Payload>
  {
    if IsFileUpload(body) then Some(RawFile(body))
    else if body.Undefined? then None
    else match b.stringifyJson(body)
      case Some(text) => Some(JsonBody(text))
      case None => None
  }

  function DefaultHeaders(config: Config, body: Value): map<string, string>
  {
    map["x-api-key" := config.apiKey, "Content-Type" := if IsFileUpload(body) then OctetStream else ApplicationJson]
  }

  /** The request `fetchJSS(path, verb, body, searchParams, headers)` sends. */
  function BuildRequest(b: Builtins, config: Config, path: string, verb: Method, body: Value,
                        searchParams: Option<map<string, Value>>, headers: Option<map<string, string>>): (r: HttpRequest)
    ensures r.verb == verb
    // the URL: base URL (or the default), the path, then the query string if any
    ensures |BaseOf(config) + path| <= |r.url| && r.url[..|BaseOf(config) + path|] == BaseOf(config) + path
    ensures HasQuery(searchParams) <==> |r.url| > |BaseOf(config) + path|
    ensures HasQuery(searchParams) ==> r.url[|BaseOf(config) + path|..] == "?" + b.encodeQuery(searchParams.value)
    // the headers: the two defaults, overridden by whatever the caller supplies
    ensures var given := if headers.Some? then headers.value else map[];
            && r.headers.Keys == {"x-api-key", "Content-Type"} + given.Keys
            && (forall k :: k in given ==> r.headers[k] == given[k])
            && ("x-api-key" !in given ==> r.headers["x-api-key"] == config.apiKey)
            && ("Content-Type" !in given ==>
                  (r.headers["Content-Type"] == OctetStream <==> IsFileUpload(body))
                  && (r.headers["Content-Type"] == ApplicationJson <==> !IsFileUpload(body)))
    // the body: only POST and PATCH carry one
    ensures r.body.Some? ==> verb == POST || verb == PATCH
    ensures (verb == POST || verb == PATCH) && IsFileUpload(body) ==> r.body == Some(RawFile(body))
    ensures body.Undefined? ==> r.body.None?
    ensures (verb == POST || verb == PATCH) && !IsFileUpload(body) && !body.Undefined? ==>
              (r.body.Some? <==> b.stringifyJson(body).Some?)
              && (r.body.Some? ==> r.body.value == JsonBody(b.stringifyJson(body).value))
  {
    var given := if headers.Some? then headers.value else map[];
    var url := BaseOf(config) + path;
    HttpRequest(
      url + QueryString(b, searchParams),
      verb,
      DefaultHeaders(config, body) + given,
      if verb == POST || verb == PATCH then Serialized(b, body) else None)
  }

  // ---------------------------------------------------------------------------
  // The response.

  /** What `fetch` settles with. */
  datatype FetchResult = Responded(response: HttpResponse) | NetworkError(error: Value)

  /** What the awaited `fetchJSS` call settles with. */
  datatype Completion = Returned(value: Value) | Thrown(error: Value)

  function Contains(s: string, part: string): bool
    decreases |s|
  {
    |part| <= |s| && (s[..|part|] == part || (|s| > 0 && Contains(s[1..], part)))
  }

  /** `resp.headers.get("Content-Type")?.includes("application/json")`. */
  predicate DeclaresJson(resp: HttpResponse)
  {
    resp.contentType.Some? && Contains(resp.contentType.value, ApplicationJson)
  }

  /** `await resp.json()`: the body decoded as UTF-8 and parsed; rejects with
      a SyntaxError on a body that is not JSON. */
  function ResponseJson(b: Builtins, resp: HttpResponse): Completion
  {
    match ParsedBody(b, resp)
    case Some(v) => Returned(v)
    case None => Thrown(JsonSyntaxError)
  }

  /** The body decoded as UTF-8 and parsed as JSON, if it is JSON. */
  function ParsedBody(b: Builtins, resp: HttpResponse): Option<Value>
  {
    b.parseJson(b.decodeUtf8(resp.body))
  }

  /** The result of a call once the response has arrived. */
  function Classify(b: Builtins, resp: HttpResponse): (c: Completion)
    ensures !resp.ok ==> c.Thrown?
    // a failed call throws the parsed error body, or the SyntaxError if that body is not JSON
    ensures !resp.ok ==> c == Thrown(if ParsedBody(b, resp).Some? then ParsedBody(b, resp).value else JsonSyntaxError)
    // a successful JSON response yields its parsed body
    ensures resp.ok && DeclaresJson(resp) ==> (c.Returned? <==> ParsedBody(b, resp).Some?)
    ensures resp.ok && DeclaresJson(resp) && ParsedBody(b, resp).Some? ==> c == Returned(ParsedBody(b, resp).value)
    // any other successful response is returned as the raw response object
    ensures resp.ok && !DeclaresJson(resp) ==> c == Returned(Response(resp))
    ensures c.Returned? ==> resp.ok
  {
    if !resp.ok then
      match ResponseJson(b, resp)
      case Returned(error) => Thrown(error)
      case Thrown(e) => Thrown(e)
    else if DeclaresJson(resp) then ResponseJson(b, resp)
    else Returned(Response(resp))
  }

  /** The whole call, with `fetch` given: a network error propagates as is. */
  function FetchJSS(b: Builtins, config: Config, path: string, verb: Method, body: Value,
                    searchParams: Option<map<string, Value>>, headers: Option<map<string, string>>,
                    fetch: HttpRequest -> FetchResult): (c: Completion)
    ensures var sent := fetch(BuildRequest(b, config, path, verb, body, searchParams, headers));
            && (sent.NetworkError? ==> c == Thrown(sent.error))
            && (sent.Responded? ==> c == Classify(b, sent.response))
  {
    match fetch(BuildRequest(b, config, path, verb, body, searchParams, headers))
    case NetworkError(e) => Thrown(e)
    case Responded(resp) => Classify(b, resp)
  }

  /** A JSON Content-Type is recognised anywhere in the header value, as
      with "application/json; charset=utf-8". */
  lemma {:induction false} ContainsAfterPrefix(prefix: string, part: string, suffix: string)
    ensures Contains(prefix + part + suffix, part)
    decreases |prefix|
  {
    var s := prefix + part + suffix;
    if prefix == [] {
      assert s[..|part|] == part;
    } else {
      assert s[1..] == prefix[1..] + part + suffix;
      ContainsAfterPrefix(prefix[1..], part, suffix);
    }
  }
}
