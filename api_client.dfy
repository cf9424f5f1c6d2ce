/** The front end's fetch helper: the API base URL, the request it sends
    (default JSON content type, caller headers, and the bearer token of
    section 2.1 of RFC 6750), and how it reads the response. The network is
    left out: the response to the request is an input. */
module ApiClient {
  import opened Wrappers
  import opened Strings
  import Http

  const CONTENT_TYPE: string := "Content-Type"
  const APPLICATION_JSON: string := "application/json"
  const AUTHORIZATION: string := "Authorization"
  const BEARER_PREFIX: string := "Bearer "
  const HTTP_STATUS_NO_CONTENT: int := 204
  const DEFAULT_API_BASE_URL: string := "http://127.0.0.1:3001"
  const API_PREFIX: string := "/api/"
  const FAILED_PREFIX: string := "Request failed with status "

  type Headers = map<string, string>

  /** A parsed JSON value. */
  datatype Json =
    | JNull
    | JBool(b: bool)
    | JNumber(n: int)
    | JString(s: string)
    | JArray(items: seq<Json>)
    | JObject(fields: map<string, Json>)

  /** The caller's options; the HTTP method (`verb`) and the body are passed through. */
  datatype ApiFetchOptions = ApiFetchOptions(
    accessToken: Option<string>, headers: Option<Headers>, verb: Option<string>, body: Option<string>)

  datatype Request = Request(url: string, verb: Option<string>, body: Option<string>, headers: Headers)

  /** What the helper looks at in a response; `body` is `None` when the
      body is not valid JSON. */
  datatype Response = Response(status: int, contentLength: Option<string>, body: Option<Json>)

  /** `new Error(message)` for a failed status, or the rejection of
      `response.json()` on a body that is not JSON. */
  datatype FetchError = HttpError(message: string) | InvalidJson

  /** `getApiBaseUrl`: on the server, the variable or the default; in the
      browser, the URL injected into the page data first. */
  function GetApiBaseUrl(inBrowser: bool, injected: Option<string>, envBaseUrl: Option<string>)
    : (r: string)
    ensures !inBrowser || injected.None? ==> r == envBaseUrl.GetOr(DEFAULT_API_BASE_URL)
    ensures inBrowser && injected.Some? ==> r == injected.value
  {
    if !inBrowser then envBaseUrl.GetOr(DEFAULT_API_BASE_URL)
    else if injected.Some? then injected.value
    else envBaseUrl.GetOr(DEFAULT_API_BASE_URL)
  }

  /** The headers sent: the JSON content type unless the caller gives
      their own under the same name, every caller header, and, when a
      non-empty token is given, `Authorization: Bearer <token>` in place of
      any the caller gave. */
  function MergeHeaders(headers: Option<Headers>, accessToken: Option<string>): (r: Headers)
    ensures forall k :: k in r <==>
      k == CONTENT_TYPE || (headers.Some? && k in headers.value) || (k == AUTHORIZATION && Truthy(accessToken))
    ensures Truthy(accessToken) ==> r[AUTHORIZATION] == BEARER_PREFIX + accessToken.value
    ensures forall k :: headers.Some? && k in headers.value && !(k == AUTHORIZATION && Truthy(accessToken)) ==>
      r[k] == headers.value[k]
    ensures headers.None? || CONTENT_TYPE !in headers.value ==> r[CONTENT_TYPE] == APPLICATION_JSON
  {
    var merged := map[CONTENT_TYPE := APPLICATION_JSON] + headers.GetOr(map[]);
    if Truthy(accessToken) then merged[AUTHORIZATION := BEARER_PREFIX + accessToken.value] else merged
  }

  /** The token a bearer header carries. */
  function BearerToken(value: string): Option<string> {
    if BEARER_PREFIX <= value then Some(value[|BEARER_PREFIX|..]) else None
  }

  /** The request `apiFetch` sends for `path`. */
  function BuildRequest(baseUrl: string, path: string, options: ApiFetchOptions): (r: Request)
    ensures r.url == baseUrl + API_PREFIX + path
    ensures r.verb == options.verb && r.body == options.body
    ensures r.headers == MergeHeaders(options.headers, options.accessToken)
  {
    Request(baseUrl + API_PREFIX + path, options.verb, options.body,
            MergeHeaders(options.headers, options.accessToken))
  }

  /** The server reads the token back from the header it receives. */
  lemma BearerRoundTrip(options: ApiFetchOptions, baseUrl: string, path: string)
    requires Truthy(options.accessToken)
    ensures BearerToken(BuildRequest(baseUrl, path, options).headers[AUTHORIZATION]) == Some(options.accessToken.value)
  {
    var h := BEARER_PREFIX + options.accessToken.value;
    assert h[|BEARER_PREFIX|..] == options.accessToken.value;
  }

  /** `payload?.message`. */
  function MessageField(payload: Json): (r: Option<Json>)
    ensures r.Some? <==> payload.JObject? && "message" in payload.fields
  {
    if payload.JObject? && "message" in payload.fields then Some(payload.fields["message"]) else None
  }

  function GenericError(status: int): (r: string)
    ensures FAILED_PREFIX <= r
    ensures EndsWith(r, IntToString(status))
  {
    var digits := IntToString(status);
    var r := FAILED_PREFIX + digits;
    assert r[|r| - |digits|..] == digits;
    r
  }

  /** `safeReadError`: the payload's `message` when it is a string, else
      its first element when it is a non-empty array starting with a
      string, else a message naming the status; a body that is not JSON
      gets the last. */
  function SafeReadError(response: Response): (r: string)
    ensures (response.body.Some? && MessageField(response.body.value).Some? &&
             MessageField(response.body.value).value.JString?) ==>
      r == MessageField(response.body.value).value.s
    ensures (response.body.Some? && MessageField(response.body.value).Some? &&
             MessageField(response.body.value).value.JArray? &&
             MessageField(response.body.value).value.items != [] &&
             MessageField(response.body.value).value.items[0].JString?) ==>
      r == MessageField(response.body.value).value.items[0].s
    ensures !ServerMessage(response) ==> r == GenericError(response.status)
  {
    if response.body.None? then GenericError(response.status)
    else
      var message := MessageField(response.body.value);
      if message.Some? && message.value.JString? then message.value.s
      else if message.Some? && message.value.JArray? && message.value.items != [] &&
              message.value.items[0].JString?
      then message.value.items[0].s
      else GenericError(response.status)
  }

  /** Whether the body carries a message `safeReadError` uses. */
  predicate ServerMessage(response: Response) {
    response.body.Some? && MessageField(response.body.value).Some? &&
    var m := MessageField(response.body.value).value;
    m.JString? || (m.JArray? && m.items != [] && m.items[0].JString?)
  }

  /** `204 No Content`, or an explicit zero length: the body is not read. */
  predicate NoContent(response: Response) {
    response.status == HTTP_STATUS_NO_CONTENT || response.contentLength == Some("0")
  }

  /** What `apiFetch` resolves to once `response` arrives: a failed status
      rejects with the error message, an empty success resolves to nothing,
      and any other success to the parsed body. */
  function Outcome(response: Response): (r: Result<Option<Json>, FetchError>)
    ensures !Http.IsOk(response.status) ==> r == Err(HttpError(SafeReadError(response)))
    ensures Http.IsOk(response.status) && NoContent(response) ==> r == Ok(None)
    ensures Http.IsOk(response.status) && !NoContent(response) ==>
      (r.Ok? <==> response.body.Some?) && (r.Ok? ==> r.value == response.body)
    ensures r.Err? && Http.IsOk(response.status) ==> r.error == InvalidJson
  {
    if !Http.IsOk(response.status) then Err(HttpError(SafeReadError(response)))
    else if NoContent(response) then Ok(None)
    else if response.body.None? then Err(InvalidJson)
    else Ok(Some(response.body.value))
  }

  /** An empty success does not depend on the body at all. */
  lemma NoContentIgnoresBody(a: Response, b: Response)
    requires a.status == b.status && a.contentLength == b.contentLength
    requires Http.IsOk(a.status) && NoContent(a)
    ensures Outcome(a) == Outcome(b) == Ok(None)
  {
  }

  /** A failed status never resolves, whatever the body says. */
  lemma FailureAlwaysRejects(response: Response)
    requires !Http.IsOk(response.status)
    ensures Outcome(response).Err? && Outcome(response).error.HttpError?
    ensures !ServerMessage(response) ==>
      EndsWith(Outcome(response).error.message, IntToString(response.status))
  {
  }
}
