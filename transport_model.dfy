/** The authenticated transport of src/api/clients/AuthApiClient.ts as a
    state machine over values. `ClientState` gathers everything the
    transport reads or changes: the stored access token (owned by the token
    manager), the record of `fetch` calls, the single-flight refresh marker
    (`refreshPromise`) with the callers waiting on it, whether an auth-error
    handler is installed and every invocation of that handler.

    Concurrency is cooperative and single-threaded, so a refresh is two
    events: `Begin` (a caller reaches `refreshAccessToken`) and `Settle` (the
    one pending `/auth/refresh` call completes). A caller that runs a refresh
    to completion on its own is `Refresh`, `Settle` after `Begin`. */
module TransportModel {
  import opened Base
  import opened ApiClient
  import Tokens

  /** The fixed surroundings: the base URL, the payload decoder of the token
      manager and the outcome of the i-th `fetch` call. */
  datatype Env = Env(baseURL: string, decode: Tokens.PayloadDecoder, respond: nat -> FetchOutcome)

  datatype ClientState = ClientState(
    token: Option<string>,        // tokenManager.accessToken
    log: seq<FetchRequest>,       // every fetch call made, in order
    inFlight: Option<nat>,        // refreshPromise: the index in log of the pending /auth/refresh call
    waiters: nat,                 // callers awaiting that call
    handlerSet: bool,             // onAuthError is assigned
    authErrors: seq<Error>)       // the argument of every onAuthError invocation, in order

  /** `post('/auth/refresh', null, { skipAuth: true, includeCookies: true })`. */
  const RefreshConfig: RequestConfig := Post(None, NoConfig.(skipAuth := true, includeCookies := true))

  function RefreshCall(baseURL: string): (req: FetchRequest)
    ensures req.credentials == Include && req.body == None && "Authorization" !in req.headers
  {
    Prepare(baseURL, "/auth/refresh", RefreshConfig)
  }

  /** At most one refresh is pending; it has at least one waiter and is a
      `/auth/refresh` call of the record. */
  predicate Valid(env: Env, s: ClientState) {
    (s.inFlight.None? <==> s.waiters == 0) &&
    (s.inFlight.Some? ==> s.inFlight.value < |s.log| && s.log[s.inFlight.value] == RefreshCall(env.baseURL))
  }

  /** `this.onAuthError?.(error)`. The only handler ever installed is
      `AuthService.handleAuthError`, which clears the stored token. */
  function Notify(s: ClientState, e: Error): (s': ClientState)
    ensures s.handlerSet ==> s'.authErrors == s.authErrors + [e] && s'.token == None
    ensures !s.handlerSet ==> s' == s
    ensures s'.log == s.log && s'.inFlight == s.inFlight && s'.waiters == s.waiters && s'.handlerSet == s.handlerSet
  {
    if s.handlerSet then s.(authErrors := s.authErrors + [e], token := None) else s
  }

  // ------------------------------------------------------ single-flight refresh

  /** A caller reaches `refreshAccessToken`: it attaches to the pending call
      if there is one, and otherwise issues the one `/auth/refresh` call. */
  function Begin(env: Env, s: ClientState): (s': ClientState)
    ensures s.inFlight.Some? ==> s'.log == s.log && s'.inFlight == s.inFlight
    ensures s.inFlight.None? ==> s'.log == s.log + [RefreshCall(env.baseURL)] && s'.inFlight == Some(|s.log|)
    ensures s'.waiters == (if s.inFlight.Some? then s.waiters + 1 else 1)
    ensures s'.token == s.token && s'.authErrors == s.authErrors && s'.handlerSet == s.handlerSet
    ensures Valid(env, s) ==> Valid(env, s')
  {
    if s.inFlight.Some? then s.(waiters := s.waiters + 1)
    else s.(log := s.log + [RefreshCall(env.baseURL)], inFlight := Some(|s.log|), waiters := 1)
  }

  const NullAccessMessage: string := "Cannot read properties of null (reading 'access_token')"

  /** What `.then(response => response.access_token)` makes of the reply:
      reading the member off JSON `null` throws, and that error reaches the
      `.catch` like a failed call. */
  function AccessTokenOf(reply: Result<Data, Error>): (r: Result<Option<string>, Error>)
    ensures reply.Err? ==> r == Err(reply.error)
    ensures reply.Ok? && reply.value != JsonNull ==> r == Ok(Member(reply.value, "access_token"))
    ensures reply == Ok(JsonNull) ==> r.Err? && r.error.PlainError?
  {
    match reply
    case Err(e) => Err(e)
    case Ok(JsonNull) => Err(PlainError(NullAccessMessage))
    case Ok(data) => Ok(Member(data, "access_token"))
  }

  datatype Settlement = Settlement(state: ClientState, result: Result<Option<string>, Error>, woken: nat)

  /** The pending `/auth/refresh` call completes. On success the new token is
      stored; on failure the token is cleared and the handler invoked. Either
      way the marker is cleared and every waiter gets the same `result`. */
  function Settle(env: Env, s: ClientState): (st: Settlement)
    requires s.inFlight.Some?
    ensures st.result == AccessTokenOf(Complete(env.respond(s.inFlight.value)))
    ensures st.woken == s.waiters
    ensures st.state.inFlight == None && st.state.waiters == 0 && Valid(env, st.state)
    ensures st.state.log == s.log && st.state.handlerSet == s.handlerSet
    ensures st.result.Ok? ==> st.state.token == st.result.value && st.state.authErrors == s.authErrors
    ensures st.result.Err? ==> (st.state.token == None &&
      st.state.authErrors == s.authErrors + (if s.handlerSet then [st.result.error] else []))
  {
    var result := AccessTokenOf(Complete(env.respond(s.inFlight.value)));
    var idle := s.(inFlight := None, waiters := 0);
    match result
    case Ok(token) => Settlement(idle.(token := token), result, s.waiters)
    case Err(e) => Settlement(Notify(idle.(token := None), e), result, s.waiters)
  }

  /** `refreshAccessToken` run to completion by one caller. */
  function Refresh(env: Env, s: ClientState): (r: (ClientState, Result<Option<string>, Error>))
    ensures s.inFlight.None? ==>
      r.0.log == s.log + [RefreshCall(env.baseURL)] && r.1 == AccessTokenOf(Complete(env.respond(|s.log|)))
    ensures s.inFlight.Some? ==>
      r.0.log == s.log && r.1 == AccessTokenOf(Complete(env.respond(s.inFlight.value)))
    ensures r.0.inFlight == None && r.0.waiters == 0 && Valid(env, r.0) && r.0.handlerSet == s.handlerSet
    ensures r.1.Ok? ==> r.0.token == r.1.value && r.0.authErrors == s.authErrors
    ensures r.1.Err? ==> (r.0.token == None &&
      r.0.authErrors == s.authErrors + (if s.handlerSet then [r.1.error] else []))
  {
    var st := Settle(env, Begin(env, s));
    (st.state, st.result)
  }

  /** `n` callers reach `refreshAccessToken` one after another, before any settlement. */
  function BeginMany(env: Env, s: ClientState, n: nat): ClientState
    decreases n
  {
    if n == 0 then s else Begin(env, BeginMany(env, s, n - 1))
  }

  /** Single flight: however many callers trigger a refresh while none is
      pending, exactly one `/auth/refresh` call is made, all of them wait on
      it, and its settlement wakes all of them with the one result of that call. */
  lemma {:induction false} SingleFlight(env: Env, s: ClientState, n: nat)
    requires Valid(env, s) && s.inFlight.None? && n >= 1
    ensures BeginMany(env, s, n).log == s.log + [RefreshCall(env.baseURL)]
    ensures BeginMany(env, s, n).inFlight == Some(|s.log|)
    ensures BeginMany(env, s, n).waiters == n
    ensures Settle(env, BeginMany(env, s, n)).woken == n
    ensures Settle(env, BeginMany(env, s, n)).result == AccessTokenOf(Complete(env.respond(|s.log|)))
    ensures Settle(env, BeginMany(env, s, n)).state.log == s.log + [RefreshCall(env.baseURL)]
    decreases n
  {
    if n > 1 {
      SingleFlight(env, s, n - 1);
    }
  }

  datatype RefreshResponse = RefreshResponse(accessToken: Option<string>, expiresIn: nat)

  /** `refreshToken`: the refreshed token and the seconds it has left. */
  function RefreshToken(env: Env, s: ClientState, nowMs: int): (r: (ClientState, Result<RefreshResponse, Error>))
    ensures r.0 == Refresh(env, s).0
    ensures r.1.Err? <==> Refresh(env, s).1.Err?
    ensures r.1.Err? ==> r.1.error == Refresh(env, s).1.error
    ensures r.1.Ok? ==> (r.1.value.accessToken == Refresh(env, s).1.value &&
      r.1.value.expiresIn == Tokens.GetTimeUntilExpiration(env.decode, None, r.0.token, nowMs))
  {
    var (s1, t) := Refresh(env, s);
    match t
    case Err(e) => (s1, Err(e))
    case Ok(token) => (s1, Ok(RefreshResponse(token, Tokens.GetTimeUntilExpiration(env.decode, None, s1.token, nowMs))))
  }

  // ------------------------------------------------------ authenticated requests

  /** The stored token is fit to send: present and not expired. */
  predicate HasFreshToken(env: Env, s: ClientState, nowMs: int) {
    Truthy(s.token) && !Tokens.IsTokenExpired(env.decode, s.token, nowMs)
  }

  /** `getValidAccessToken`: the stored token as it is when it is fresh,
      otherwise the result of a refresh. */
  function ValidAccessToken(env: Env, s: ClientState, nowMs: int): (r: (ClientState, Result<Option<string>, Error>))
    ensures HasFreshToken(env, s, nowMs) ==> r == (s, Ok(s.token))
    ensures !HasFreshToken(env, s, nowMs) ==> r == Refresh(env, s)
  {
    if !HasFreshToken(env, s, nowMs) then Refresh(env, s) else (s, Ok(s.token))
  }

  /** `{ ...config, headers: { ...config.headers, Authorization: header } }`:
      only `Authorization` is set or overwritten. */
  function Authorized(config: RequestConfig, header: string): (c: RequestConfig)
    ensures c.headers.Keys == config.headers.Keys + {"Authorization"} && c.headers["Authorization"] == header
    ensures forall k :: k in config.headers && k != "Authorization" ==> c.headers[k] == config.headers[k]
    ensures c.(headers := config.headers) == config
  {
    config.(headers := config.headers["Authorization" := header])
  }

  /** The other headers of a sent request are the caller's, and `Content-Type`
      defaults to JSON. */
  lemma SentHeaders(baseURL: string, endpoint: string, config: RequestConfig, header: string)
    ensures Prepare(baseURL, endpoint, Authorized(config, header)).headers["Authorization"] == header
    ensures forall k :: k in config.headers && k != "Authorization" ==>
      Prepare(baseURL, endpoint, Authorized(config, header)).headers[k] == config.headers[k]
    ensures "Content-Type" !in config.headers ==>
      Prepare(baseURL, endpoint, Authorized(config, header)).headers["Content-Type"] == "application/json"
  {
  }

  /** `super.request(endpoint, config)`: one `fetch` call. */
  function Send(env: Env, s: ClientState, endpoint: string, config: RequestConfig): (r: (ClientState, Result<Data, Error>))
    ensures r.0 == s.(log := s.log + [Prepare(env.baseURL, endpoint, config)])
    ensures r.1 == Complete(env.respond(|s.log|))
  {
    (s.(log := s.log + [Prepare(env.baseURL, endpoint, config)]), Complete(env.respond(|s.log|)))
  }

  /** The body of one attempt: format the header from the token obtained
      (`formatAuthorizationHeader(token)`, which falls back to the stored
      token and throws a plain error when there is none) and send. */
  function Attempt(env: Env, s: ClientState, endpoint: string, config: RequestConfig, token: Result<Option<string>, Error>): (r: (ClientState, Result<Data, Error>))
    ensures token.Err? ==> r == (s, Err(token.error))
    ensures token.Ok? && !Truthy(Or(token.value, s.token)) ==> r == (s, Err(PlainError(Tokens.NoTokenMessage)))
    ensures token.Ok? && Truthy(Or(token.value, s.token)) ==>
      r == Send(env, s, endpoint, Authorized(config, Tokens.Bearer + Or(token.value, s.token).value))
  {
    match token
    case Err(e) => (s, Err(e))
    case Ok(t) =>
      match Tokens.FormatAuthorizationHeader(t, s.token)
      case Err(message) => (s, Err(PlainError(message)))
      case Ok(header) => Send(env, s, endpoint, Authorized(config, header))
  }

  /** The first try of `request`: a valid token, then one attempt. */
  function FirstTry(env: Env, s: ClientState, endpoint: string, config: RequestConfig, nowMs: int): (r: (ClientState, Result<Data, Error>))
    ensures HasFreshToken(env, s, nowMs) ==> r == Attempt(env, s, endpoint, config, Ok(s.token))
    ensures !HasFreshToken(env, s, nowMs) ==> r == Attempt(env, Refresh(env, s).0, endpoint, config, Refresh(env, s).1)
  {
    var (s1, t1) := ValidAccessToken(env, s, nowMs);
    Attempt(env, s1, endpoint, config, t1)
  }

  /** The `catch` of a 401: clear the token, refresh, try once more, and
      report a failure of that which is an `ApiError` to the handler. */
  function Recover(env: Env, s: ClientState, endpoint: string, config: RequestConfig): (r: (ClientState, Result<Data, Error>))
    ensures r.0.handlerSet == s.handlerSet
    ensures Valid(env, r.0)
  {
    var (s4, t2) := Refresh(env, s.(token := None));
    var (s5, r2) := Attempt(env, s4, endpoint, config, t2);
    if r2.Err? && r2.error.ApiError? then (Notify(s5, r2.error), r2) else (s5, r2)
  }

  /** `AuthApiClient.request`. With `skipAuth` it is one plain send.
      Otherwise a token is obtained and sent; if that fails with a 401, the
      request is recovered once. Any other failure propagates unchanged. */
  function Request(env: Env, s: ClientState, endpoint: string, config: RequestConfig, nowMs: int): (r: (ClientState, Result<Data, Error>))
    ensures config.skipAuth ==> r == Send(env, s, endpoint, config)
    ensures r.0.handlerSet == s.handlerSet
    ensures Valid(env, s) ==> Valid(env, r.0)
  {
    if config.skipAuth then Send(env, s, endpoint, config)
    else
      var (s2, r1) := FirstTry(env, s, endpoint, config, nowMs);
      if r1.Ok? || !IsUnauthorized(r1.error) then (s2, r1)
      else Recover(env, s2, endpoint, config)
  }

  // ------------------------------------------------------ properties of Request

  /** Number of calls in `calls` that carry an `Authorization` header. */
  function Authorizations(calls: seq<FetchRequest>): nat
    decreases |calls|
  {
    if |calls| == 0 then 0
    else (if "Authorization" in calls[|calls| - 1].headers then 1 else 0) + Authorizations(calls[..|calls| - 1])
  }

  /** Number of `/auth/refresh` calls in `calls`. */
  function RefreshCalls(baseURL: string, calls: seq<FetchRequest>): nat
    decreases |calls|
  {
    if |calls| == 0 then 0
    else (if calls[|calls| - 1] == RefreshCall(baseURL) then 1 else 0) + RefreshCalls(baseURL, calls[..|calls| - 1])
  }

  lemma {:induction false} CountsAppend(a: seq<FetchRequest>, b: seq<FetchRequest>, baseURL: string)
    ensures Authorizations(a + b) == Authorizations(a) + Authorizations(b)
    ensures RefreshCalls(baseURL, a + b) == RefreshCalls(baseURL, a) + RefreshCalls(baseURL, b)
    decreases |b|
  {
    if |b| == 0 {
      assert a + b == a;
    } else {
      var ab := a + b;
      assert ab[..|ab| - 1] == a + b[..|b| - 1];
      assert ab[|ab| - 1] == b[|b| - 1];
      CountsAppend(a, b[..|b| - 1], baseURL);
    }
  }

  /** `s'` follows `s`: the record of calls and the record of handler
      invocations only grow; the calls added are at most `auths` carrying an
      `Authorization` header and at most `refreshes` refresh calls, and at
      most `errs` invocations are added. */
  predicate Extends(baseURL: string, s: ClientState, s': ClientState, auths: nat, refreshes: nat, errs: nat) {
    |s.log| <= |s'.log| <= |s.log| + auths + refreshes && s'.log[..|s.log|] == s.log &&
    Authorizations(s'.log[|s.log|..]) <= auths && RefreshCalls(baseURL, s'.log[|s.log|..]) <= refreshes &&
    |s.authErrors| <= |s'.authErrors| <= |s.authErrors| + errs && s'.authErrors[..|s.authErrors|] == s.authErrors
  }

  lemma ExtendsTrans(baseURL: string, s: ClientState, s': ClientState, s'': ClientState,
                     a1: nat, r1: nat, e1: nat, a2: nat, r2: nat, e2: nat)
    requires Extends(baseURL, s, s', a1, r1, e1) && Extends(baseURL, s', s'', a2, r2, e2)
    ensures Extends(baseURL, s, s'', a1 + a2, r1 + r2, e1 + e2)
  {
    assert s''.log[..|s.log|] == s'.log[..|s.log|];
    assert s''.log[|s.log|..] == s'.log[|s.log|..] + s''.log[|s'.log|..];
    CountsAppend(s'.log[|s.log|..], s''.log[|s'.log|..], baseURL);
    assert s''.authErrors[..|s.authErrors|] == s'.authErrors[..|s.authErrors|];
  }

  lemma ExtendsUnchanged(baseURL: string, s: ClientState, s': ClientState)
    requires s'.log == s.log && s'.authErrors == s.authErrors
    ensures Extends(baseURL, s, s', 0, 0, 0)
  {
    assert s.log[|s.log|..] == [];
  }

  /** A refresh adds at most one call, a refresh call, and one invocation. */
  lemma RefreshExtends(env: Env, s: ClientState)
    ensures Extends(env.baseURL, s, Refresh(env, s).0, 0, 1, 1)
  {
    var s' := Refresh(env, s).0;
    if s.inFlight.None? {
      var added := s'.log[|s.log|..];
      assert added == [RefreshCall(env.baseURL)];
      assert added[..0] == [];
    } else {
      assert s'.log[|s.log|..] == [];
    }
  }

  /** An attempt adds at most one call, which carries the header. */
  lemma AttemptExtends(env: Env, s: ClientState, endpoint: string, config: RequestConfig, token: Result<Option<string>, Error>)
    ensures Extends(env.baseURL, s, Attempt(env, s, endpoint, config, token).0, 1, 0, 0)
    ensures var s' := Attempt(env, s, endpoint, config, token).0;
      |s'.log| == |s.log| + 1 ==> "Authorization" in s'.log[|s.log|].headers && Authorizations(s'.log[|s.log|..]) == 1
  {
    var s' := Attempt(env, s, endpoint, config, token).0;
    if s'.log == s.log {
      assert s'.log[|s.log|..] == [];
    } else {
      var added := s'.log[|s.log|..];
      assert |added| == 1 && "Authorization" in added[0].headers;
      assert added[..0] == [];
    }
  }

  lemma FirstTryExtends(env: Env, s: ClientState, endpoint: string, config: RequestConfig, nowMs: int)
    ensures Extends(env.baseURL, s, FirstTry(env, s, endpoint, config, nowMs).0, 1, 1, 1)
  {
    var (s1, t1) := ValidAccessToken(env, s, nowMs);
    if HasFreshToken(env, s, nowMs) {
      ExtendsUnchanged(env.baseURL, s, s1);
    } else {
      RefreshExtends(env, s);
    }
    AttemptExtends(env, s1, endpoint, config, t1);
    ExtendsTrans(env.baseURL, s, s1, Attempt(env, s1, endpoint, config, t1).0, 0, 1, 1, 1, 0, 0);
  }

  lemma RecoverExtends(env: Env, s: ClientState, endpoint: string, config: RequestConfig)
    ensures Extends(env.baseURL, s, Recover(env, s, endpoint, config).0, 1, 1, 2)
  {
    var s3 := s.(token := None);
    ExtendsUnchanged(env.baseURL, s, s3);
    var (s4, t2) := Refresh(env, s3);
    RefreshExtends(env, s3);
    ExtendsTrans(env.baseURL, s, s3, s4, 0, 0, 0, 0, 1, 1);
    var (s5, r2) := Attempt(env, s4, endpoint, config, t2);
    AttemptExtends(env, s4, endpoint, config, t2);
    ExtendsTrans(env.baseURL, s, s4, s5, 0, 1, 1, 1, 0, 0);
    if r2.Err? && r2.error.ApiError? {
      var s6 := Notify(s5, r2.error);
      assert Extends(env.baseURL, s5, s6, 0, 0, 1) by {
        assert s6.log[|s5.log|..] == [];
      }
      ExtendsTrans(env.baseURL, s, s5, s6, 1, 1, 1, 0, 0, 1);
    }
  }

  /** An authenticated request makes at most four `fetch` calls: at most two
      to the endpoint (the first attempt and the one retry) and at most two
      to `/auth/refresh`; it invokes the handler at most three times; the
      calls and invocations before it are left as they were. */
  lemma RequestBounds(env: Env, s: ClientState, endpoint: string, config: RequestConfig, nowMs: int)
    requires !config.skipAuth
    ensures Extends(env.baseURL, s, Request(env, s, endpoint, config, nowMs).0, 2, 2, 3)
  {
    var (s2, r1) := FirstTry(env, s, endpoint, config, nowMs);
    FirstTryExtends(env, s, endpoint, config, nowMs);
    if r1.Err? && IsUnauthorized(r1.error) {
      RecoverExtends(env, s2, endpoint, config);
      ExtendsTrans(env.baseURL, s, s2, Recover(env, s2, endpoint, config).0, 1, 1, 1, 1, 1, 2);
    }
  }

  /** A fresh token is sent as it is, with no refresh; a reply that is not
      a 401 is the result, and nothing else changes. */
  lemma FreshTokenUsedAsIs(env: Env, s: ClientState, endpoint: string, config: RequestConfig, nowMs: int)
    requires !config.skipAuth && HasFreshToken(env, s, nowMs)
    requires var reply := Complete(env.respond(|s.log|)); reply.Ok? || !IsUnauthorized(reply.error)
    ensures Request(env, s, endpoint, config, nowMs) ==
      (s.(log := s.log + [Prepare(env.baseURL, endpoint, Authorized(config, "Bearer " + s.token.value))]),
       Complete(env.respond(|s.log|)))
  {
  }

  /** A missing or expired token is refreshed before anything is sent; with
      no refresh pending that is a new `/auth/refresh` call, made first. */
  lemma StaleTokenRefreshedFirst(env: Env, s: ClientState, endpoint: string, config: RequestConfig, nowMs: int)
    requires !config.skipAuth && !HasFreshToken(env, s, nowMs) && s.inFlight.None?
    ensures var s' := Request(env, s, endpoint, config, nowMs).0;
      |s'.log| > |s.log| && s'.log[|s.log|] == RefreshCall(env.baseURL)
  {
    var (s1, t1) := ValidAccessToken(env, s, nowMs);
    assert s1.log == s.log + [RefreshCall(env.baseURL)];
    var (s2, r1) := FirstTry(env, s, endpoint, config, nowMs);
    AttemptExtends(env, s1, endpoint, config, t1);
    assert s2.log[..|s1.log|] == s1.log;
    if r1.Err? && IsUnauthorized(r1.error) {
      RecoverExtends(env, s2, endpoint, config);
      var s' := Recover(env, s2, endpoint, config).0;
      assert s'.log[..|s2.log|] == s2.log;
      assert s'.log[|s.log|] == s2.log[|s.log|] == s1.log[|s.log|];
    }
  }

  /** A 401 on a fresh token: the token is cleared and refreshed, and the
      request is sent once more with the new token; the reply to that retry
      is the result, and the handler hears of it only if it is a failure. */
  lemma UnauthorizedRetriedOnce(env: Env, s: ClientState, endpoint: string, config: RequestConfig, nowMs: int, renewed: string)
    requires !config.skipAuth && HasFreshToken(env, s, nowMs) && s.inFlight.None?
    requires var reply := Complete(env.respond(|s.log|)); reply.Err? && IsUnauthorized(reply.error)
    requires AccessTokenOf(Complete(env.respond(|s.log| + 1))) == Ok(Some(renewed)) && renewed != ""
    ensures var (s', r) := Request(env, s, endpoint, config, nowMs);
      s'.log == s.log + [Prepare(env.baseURL, endpoint, Authorized(config, "Bearer " + s.token.value)),
                         RefreshCall(env.baseURL),
                         Prepare(env.baseURL, endpoint, Authorized(config, "Bearer " + renewed))] &&
      r == Complete(env.respond(|s.log| + 2)) &&
      s'.inFlight == None &&
      (r.Ok? ==> s'.token == Some(renewed) && s'.authErrors == s.authErrors) &&
      (r.Err? ==> s'.authErrors == s.authErrors + (if s.handlerSet then [r.error] else []))
  {
    var first := Prepare(env.baseURL, endpoint, Authorized(config, "Bearer " + s.token.value));
    var (s2, r1) := FirstTry(env, s, endpoint, config, nowMs);
    assert s2 == s.(log := s.log + [first]);
    var s3 := s2.(token := None);
    var (s4, t2) := Refresh(env, s3);
    assert s4.log == s.log + [first, RefreshCall(env.baseURL)];
    assert t2 == Ok(Some(renewed)) && s4.token == Some(renewed);
    var (s5, r2) := Attempt(env, s4, endpoint, config, t2);
    assert (s5, r2) == Send(env, s4, endpoint, Authorized(config, "Bearer " + renewed));
    assert Request(env, s, endpoint, config, nowMs) == Recover(env, s2, endpoint, config);
  }

  /** The handler can fire twice for one request: a 401 on a fresh token
      followed by a failed refresh reports the refresh failure once from the
      refresh itself and once more from the recovery path. */
  lemma FailedRecoveryNotifiesTwice(env: Env, s: ClientState, endpoint: string, config: RequestConfig, nowMs: int, e: Error)
    requires !config.skipAuth && HasFreshToken(env, s, nowMs) && s.inFlight.None? && s.handlerSet
    requires var reply := Complete(env.respond(|s.log|)); reply.Err? && IsUnauthorized(reply.error)
    requires Complete(env.respond(|s.log| + 1)) == Err(e)
    ensures var (s', r) := Request(env, s, endpoint, config, nowMs);
      r == Err(e) && s'.authErrors == s.authErrors + [e, e] && s'.token == None &&
      s'.log == s.log + [Prepare(env.baseURL, endpoint, Authorized(config, "Bearer " + s.token.value)), RefreshCall(env.baseURL)]
  {
    var first := Prepare(env.baseURL, endpoint, Authorized(config, "Bearer " + s.token.value));
    var (s2, r1) := FirstTry(env, s, endpoint, config, nowMs);
    assert s2 == s.(log := s.log + [first]);
    assert e.ApiError?;
    var (s4, t2) := Refresh(env, s2.(token := None));
    assert t2 == Err(e) && s4.authErrors == s.authErrors + [e];
    assert Request(env, s, endpoint, config, nowMs) == Recover(env, s2, endpoint, config);
  }

  /** And three times: with no usable token, a refresh failing with a 401 is
      itself treated as a 401, so a second refresh is made, and its failure
      is reported by it and by the recovery path. */
  lemma FailedRefreshesNotifyThrice(env: Env, s: ClientState, endpoint: string, config: RequestConfig, nowMs: int, e1: Error, e2: Error)
    requires !config.skipAuth && !HasFreshToken(env, s, nowMs) && s.inFlight.None? && s.handlerSet
    requires Complete(env.respond(|s.log|)) == Err(e1) && IsUnauthorized(e1)
    requires Complete(env.respond(|s.log| + 1)) == Err(e2)
    ensures var (s', r) := Request(env, s, endpoint, config, nowMs);
      r == Err(e2) && s'.authErrors == s.authErrors + [e1, e2, e2] && s'.token == None &&
      s'.log == s.log + [RefreshCall(env.baseURL), RefreshCall(env.baseURL)]
  {
    var (s2, r1) := FirstTry(env, s, endpoint, config, nowMs);
    assert s2.log == s.log + [RefreshCall(env.baseURL)] && r1 == Err(e1);
    assert s2.authErrors == s.authErrors + [e1];
    assert e2.ApiError?;
    var (s4, t2) := Refresh(env, s2.(token := None));
    assert t2 == Err(e2) && s4.authErrors == s.authErrors + [e1, e2];
    assert Request(env, s, endpoint, config, nowMs) == Recover(env, s2, endpoint, config);
  }

  /** A failure that is not a 401 is never retried. */
  lemma OtherFailuresNotRetried(env: Env, s: ClientState, endpoint: string, config: RequestConfig, nowMs: int)
    requires !config.skipAuth
    requires var r1 := FirstTry(env, s, endpoint, config, nowMs).1; r1.Err? && !IsUnauthorized(r1.error)
    ensures Request(env, s, endpoint, config, nowMs) == FirstTry(env, s, endpoint, config, nowMs)
  {
  }
}
