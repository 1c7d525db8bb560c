/** The plain transport of src/api/clients/ApiClient.ts: how a request
    configuration becomes a `fetch` call (URL, credentials mode, headers,
    body) and how the outcome of `fetch` becomes a value or an `ApiError`.
    `fetch` itself is the oracle held by a `Fetcher`: the i-th call ever made
    gets outcome `respond(i)`, and every call is recorded in `log`. */
module ApiClient {
  import opened Base

  type Headers = map<string, string>

  /** The `credentials` mode of a `fetch` call. */
  datatype Credentials = Include | Omit | SameOrigin

  /** The object a caller hands to `JSON.stringify` as a body: its members
      with their values already rendered as text. */
  datatype Payload = Payload(members: seq<(string, string)>)

  /** `RequestConfig`: the members of `RequestInit` this layer reads, plus
      its own `skipAuth` and `includeCookies` flags. `None` is an absent member. */
  datatype RequestConfig = RequestConfig(
    verb: Option<string>,
    headers: Headers,
    body: Option<Payload>,
    credentials: Option<Credentials>,
    skipAuth: bool,
    includeCookies: bool)

  const NoConfig: RequestConfig := RequestConfig(None, map[], None, None, false, false)

  /** What is handed to `fetch`: the URL and the resulting `RequestInit`. */
  datatype FetchRequest = FetchRequest(
    url: string,
    verb: Option<string>,
    credentials: Credentials,
    headers: Headers,
    body: Option<Payload>)

  /** A parsed response body: the text of a non-JSON response (or a JSON
      string), JSON `null`, or a JSON object of which the string-valued
      members are kept. */
  datatype Data = Text(text: string) | JsonNull | JsonObject(members: map<string, string>)

  /** `data?.key` for a string-valued member. */
  function Member(d: Data, key: string): Option<string> {
    match d
    case JsonObject(m) => if key in m then Some(m[key]) else None
    case _ => None
  }

  /** A `fetch` response. `json` and `text` are what `response.json()` and
      `response.text()` yield, `None` when reading the body fails. */
  datatype Response = Response(
    status: int,
    statusText: string,
    contentType: Option<string>,
    json: Option<Data>,
    text: Option<string>)

  /** What a rejected `fetch` throws: an `Error` with a message, or some other value. */
  datatype Thrown = ThrownError(message: string) | ThrownValue

  datatype FetchOutcome = Responded(response: Response) | Rejected(thrown: Thrown)

  /** `ApiError` (message, HTTP status, optional server code) and every other
      `Error` the layer can raise (`PlainError`). */
  datatype Error = ApiError(message: string, status: int, code: Option<string>) | PlainError(message: string)

  predicate IsUnauthorized(e: Error) {
    e.ApiError? && e.status == 401
  }

  const DefaultHeaders: Headers := map["Content-Type" := "application/json"]
  const ParseFailureMessage: string := "Failed to parse response"
  const NetworkFailureMessage: string := "Network error occurred"

  /** `baseURL || WebServiceConfig.url || ''`. */
  function ResolveBaseUrl(baseURL: Option<string>, configured: Option<string>): (r: string)
    ensures Truthy(baseURL) ==> r == baseURL.value
    ensures !Truthy(baseURL) && Truthy(configured) ==> r == configured.value
    ensures !Truthy(baseURL) && !Truthy(configured) ==> r == ""
  {
    var chosen := Or(baseURL, configured);
    if Truthy(chosen) then chosen.value else ""
  }

  /** `buildUrl`: the base without one trailing `/`, then the endpoint with a
      leading `/`. */
  function BuildUrl(baseURL: string, endpoint: string): (url: string)
    ensures var base := if EndsWith(baseURL, "/") then baseURL[..|baseURL| - 1] else baseURL;
      StartsWith(url, base) &&
      (StartsWith(endpoint, "/") ==> url == base + endpoint) &&
      (!StartsWith(endpoint, "/") ==> url == base + "/" + endpoint)
  {
    var base := if EndsWith(baseURL, "/") then baseURL[..|baseURL| - 1] else baseURL;
    var path := if StartsWith(endpoint, "/") then endpoint else "/" + endpoint;
    base + path
  }

  /** An endpoint with or without its leading `/` reaches the same URL. */
  lemma LeadingSlashOptional(baseURL: string, endpoint: string)
    requires !StartsWith(endpoint, "/")
    ensures BuildUrl(baseURL, endpoint) == BuildUrl(baseURL, "/" + endpoint)
  {
    assert StartsWith("/" + endpoint, "/");
  }

  /** One trailing `/` on the base makes no difference. */
  lemma TrailingSlashOptional(baseURL: string, endpoint: string)
    requires !EndsWith(baseURL, "/")
    ensures BuildUrl(baseURL + "/", endpoint) == BuildUrl(baseURL, endpoint)
  {
    var b := baseURL + "/";
    assert EndsWith(b, "/");
    assert b[..|b| - 1] == baseURL;
  }

  /** `mergeHeaders`: the default `Content-Type` unless the caller sets it;
      the caller's keys win. */
  function MergeHeaders(custom: Headers): (h: Headers)
    ensures h.Keys == custom.Keys + DefaultHeaders.Keys
    ensures forall k :: k in custom ==> h[k] == custom[k]
    ensures "Content-Type" !in custom ==> h["Content-Type"] == "application/json"
  {
    DefaultHeaders + custom
  }

  /** `includeCookies ? 'include' : 'omit'`, unless the config itself names a mode. */
  function CredentialsFor(config: RequestConfig): (c: Credentials)
    ensures config.credentials == None ==> (c == Include <==> config.includeCookies)
    ensures config.credentials == None ==> (c == Omit <==> !config.includeCookies)
    ensures config.credentials.Some? ==> c == config.credentials.value
  {
    match config.credentials
    case Some(c) => c
    case None => if config.includeCookies then Include else Omit
  }

  /** The `fetch` call `request(endpoint, config)` makes. */
  function Prepare(baseURL: string, endpoint: string, config: RequestConfig): (req: FetchRequest)
    ensures req.url == BuildUrl(baseURL, endpoint)
    ensures req.headers == MergeHeaders(config.headers)
    ensures req.credentials == CredentialsFor(config)
    ensures req.verb == config.verb && req.body == config.body
  {
    FetchRequest(BuildUrl(baseURL, endpoint), config.verb, CredentialsFor(config), MergeHeaders(config.headers), config.body)
  }

  predicate IsOk(status: int) {
    200 <= status <= 299
  }

  predicate IsJsonContent(contentType: Option<string>) {
    contentType.Some? && Contains(contentType.value, "application/json")
  }

  /** The message of a failed response: `data.message`, else `data.error`,
      else the status line. */
  function ErrorMessage(data: Data, status: int, statusText: string): (m: string)
    ensures Truthy(Member(data, "message")) ==> m == Member(data, "message").value
    ensures !Truthy(Member(data, "message")) && Truthy(Member(data, "error")) ==> m == Member(data, "error").value
    ensures !Truthy(Member(data, "message")) && !Truthy(Member(data, "error")) ==>
      m == "HTTP " + IntToString(status) + ": " + statusText
  {
    var chosen := Or(Member(data, "message"), Member(data, "error"));
    if Truthy(chosen) then chosen.value else "HTTP " + IntToString(status) + ": " + statusText
  }

  /** `handleResponse`: the body read as JSON or as text by content type; a
      body that cannot be read, or a status outside 200-299, is an
      `ApiError` carrying the response status. */
  function HandleResponse(response: Response): (r: Result<Data, Error>)
    ensures r.Err? ==> r.error.ApiError? && r.error.status == response.status
    ensures var body := if IsJsonContent(response.contentType) then response.json
                        else if response.text.Some? then Some(Text(response.text.value)) else None;
      (body == None ==> r == Err(ApiError(ParseFailureMessage, response.status, None))) &&
      (body.Some? && !IsOk(response.status) ==>
        r == Err(ApiError(ErrorMessage(body.value, response.status, response.statusText), response.status, Member(body.value, "code")))) &&
      (body.Some? && IsOk(response.status) ==> r == Ok(body.value))
  {
    var body := if IsJsonContent(response.contentType) then response.json
                else if response.text.Some? then Some(Text(response.text.value)) else None;
    match body
    case None => Err(ApiError(ParseFailureMessage, response.status, None))
    case Some(data) =>
      if !IsOk(response.status) then
        Err(ApiError(ErrorMessage(data, response.status, response.statusText), response.status, Member(data, "code")))
      else Ok(data)
  }

  /** The `try`/`catch` of `request`: an `ApiError` from `handleResponse`
      passes through; a rejected `fetch` becomes an `ApiError` with status 0. */
  function Complete(outcome: FetchOutcome): (r: Result<Data, Error>)
    ensures r.Err? ==> r.error.ApiError?
    ensures outcome.Rejected? ==> r.Err? && r.error.status == 0 && r.error.code == None
    ensures outcome.Rejected? && outcome.thrown.ThrownError? ==> r.error.message == outcome.thrown.message
    ensures outcome.Rejected? && outcome.thrown.ThrownValue? ==> r.error.message == NetworkFailureMessage
    ensures outcome.Responded? ==> r == HandleResponse(outcome.response)
  {
    match outcome
    case Responded(response) => HandleResponse(response)
    case Rejected(ThrownError(message)) => Err(ApiError(message, 0, None))
    case Rejected(ThrownValue) => Err(ApiError(NetworkFailureMessage, 0, None))
  }

  /** A response is ok exactly when its status is 2xx and its body could be read. */
  lemma CompleteOk(outcome: FetchOutcome)
    ensures Complete(outcome).Ok? <==>
      outcome.Responded? && IsOk(outcome.response.status) &&
      (if IsJsonContent(outcome.response.contentType) then outcome.response.json.Some? else outcome.response.text.Some?)
  {
  }

  /** The convenience methods: each sets `method`; `post`, `put` and `patch`
      carry a body exactly when `data` is given. */
  function WithMethod(config: RequestConfig, verb: string, data: Option<Payload>): (c: RequestConfig)
    ensures c.verb == Some(verb) && c.body == data
    ensures c.(verb := config.verb, body := config.body) == config
  {
    config.(verb := Some(verb), body := data)
  }

  /** `get` and `delete` set only the method; the caller's body, if any, is kept. */
  function Get(config: RequestConfig): (c: RequestConfig)
    ensures c.verb == Some("GET") && c.(verb := config.verb) == config
  {
    config.(verb := Some("GET"))
  }

  function Delete(config: RequestConfig): (c: RequestConfig)
    ensures c.verb == Some("DELETE") && c.(verb := config.verb) == config
  {
    config.(verb := Some("DELETE"))
  }

  function Post(data: Option<Payload>, config: RequestConfig): (c: RequestConfig)
    ensures c.verb == Some("POST") && c.body == data && c.(verb := config.verb, body := config.body) == config
  {
    WithMethod(config, "POST", data)
  }

  function Put(data: Option<Payload>, config: RequestConfig): (c: RequestConfig)
    ensures c.verb == Some("PUT") && c.body == data && c.(verb := config.verb, body := config.body) == config
  {
    WithMethod(config, "PUT", data)
  }

  function Patch(data: Option<Payload>, config: RequestConfig): (c: RequestConfig)
    ensures c.verb == Some("PATCH") && c.body == data && c.(verb := config.verb, body := config.body) == config
  {
    WithMethod(config, "PATCH", data)
  }

  /** `fetch`: every call is recorded; the i-th call made gets `respond(i)`. */
  class Fetcher {
    const respond: nat -> FetchOutcome
    var log: seq<FetchRequest>

    constructor (respond: nat -> FetchOutcome)
      ensures this.respond == respond && log == []
    {
      this.respond := respond;
      log := [];
    }

    /** Issues a call and returns its index; its outcome is `respond` of that index. */
    method Issue(req: FetchRequest) returns (call: nat)
      modifies this
      ensures log == old(log) + [req] && call == |old(log)|
    {
      call := |log|;
      log := log + [req];
    }

    /** Issues a call and waits for its outcome. */
    method Fetch(req: FetchRequest) returns (outcome: FetchOutcome)
      modifies this
      ensures log == old(log) + [req] && outcome == respond(|old(log)|)
    {
      var call := Issue(req);
      outcome := respond(call);
    }
  }

  /** `ApiClient.request`: one `fetch` call, its outcome mapped by `Complete`. */
  method Send(net: Fetcher, baseURL: string, endpoint: string, config: RequestConfig) returns (r: Result<Data, Error>)
    modifies net
    ensures net.log == old(net.log) + [Prepare(baseURL, endpoint, config)]
    ensures r == Complete(net.respond(|old(net.log)|))
  {
    var outcome := net.Fetch(Prepare(baseURL, endpoint, config));
    r := Complete(outcome);
  }
}
