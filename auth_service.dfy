/** The session operations of src/api/services/AuthService.ts: login and
    logout through the plain client (sharing `fetch`, the base URL and the
    token manager with the authenticated client), the auth-error handler,
    start-up initialisation and token validation. The functions describe
    each operation on `TransportModel.ClientState`; the `AuthService` class
    performs them on the shared objects and is proved to match. */
module SessionModel {
  import opened Base
  import opened ApiClient
  import Tokens
  import M = TransportModel

  const LoginEndpoint: string := "/auth/login"
  const LogoutEndpoint: string := "/auth/logout"
  const LoginPath: string := "/admin"

  /** `post('/auth/login', { email, password }, { includeCookies: true })`. */
  function LoginConfig(email: string, password: string): RequestConfig {
    Post(Some(Payload([("email", email), ("password", password)])), NoConfig.(includeCookies := true))
  }

  function LoginCall(baseURL: string, email: string, password: string): (req: FetchRequest)
    ensures req.credentials == Include && "Authorization" !in req.headers
    ensures req.body == Some(Payload([("email", email), ("password", password)]))
  {
    Prepare(baseURL, LoginEndpoint, LoginConfig(email, password))
  }

  /** `login`: the token is cleared, the credentials are posted, and
      `response.access_token` is stored; on any failure (including a JSON
      `null` body, whose member cannot be read) the token is left cleared and
      the error is the result. */
  function Login(env: M.Env, s: M.ClientState, email: string, password: string): (r: (M.ClientState, Result<Data, Error>))
    ensures r.0.log == s.log + [LoginCall(env.baseURL, email, password)]
    ensures r.1.Ok? ==> (r.1 == Complete(env.respond(|s.log|)) && r.1.value != JsonNull &&
      r.0.token == Member(r.1.value, "access_token"))
    ensures r.1.Err? ==> r.0.token == None
    ensures Complete(env.respond(|s.log|)).Err? ==> r.1 == Complete(env.respond(|s.log|))
    ensures var reply := Complete(env.respond(|s.log|));
      reply.Ok? && reply.value != JsonNull ==> r.1 == reply && r.0.token == Member(reply.value, "access_token")
    ensures Complete(env.respond(|s.log|)) == Ok(JsonNull) ==> r.1.Err? && r.0.token == None
    ensures r.0.(token := s.token, log := s.log) == s
  {
    var reply := Complete(env.respond(|s.log|));
    var s1 := s.(token := None, log := s.log + [LoginCall(env.baseURL, email, password)]);
    match M.AccessTokenOf(reply)
    case Err(e) => (s1, Err(e))
    case Ok(token) => (s1.(token := token), reply)
  }

  /** Clearing first means a login does not depend on the token held before it. */
  lemma LoginForgetsStoredToken(env: M.Env, s: M.ClientState, email: string, password: string, t: Option<string>)
    ensures Login(env, s, email, password) == Login(env, s.(token := t), email, password)
  {
  }

  /** The headers of the logout call: `Authorization` only when a token is held. */
  function LogoutHeaders(token: Option<string>): (h: Headers)
    ensures "Authorization" in h <==> Truthy(token)
    ensures Truthy(token) ==> h["Authorization"] == Tokens.Bearer + token.value
    ensures h.Keys <= {"Authorization"}
  {
    if Truthy(token) then
      var header := Tokens.FormatAuthorizationHeader(token, token);
      map["Authorization" := header.value]
    else map[]
  }

  /** `post('/auth/logout', null, { includeCookies: true, headers })`. */
  function LogoutCall(baseURL: string, token: Option<string>): (req: FetchRequest)
    ensures req.url == BuildUrl(baseURL, LogoutEndpoint) && req.verb == Some("POST") && req.body == None
    ensures req.credentials == Include && req.headers == MergeHeaders(LogoutHeaders(token))
  {
    Prepare(baseURL, LogoutEndpoint, Post(None, NoConfig.(includeCookies := true, headers := LogoutHeaders(token))))
  }

  /** The logout call sends the refresh cookie always and the access token
      exactly when one is held, with no body. */
  lemma LogoutCallShape(baseURL: string, token: Option<string>)
    ensures LogoutCall(baseURL, token).credentials == Include
    ensures LogoutCall(baseURL, token).body == None && LogoutCall(baseURL, token).verb == Some("POST")
    ensures "Authorization" in LogoutCall(baseURL, token).headers <==> Truthy(token)
    ensures Truthy(token) ==> LogoutCall(baseURL, token).headers["Authorization"] == "Bearer " + token.value
    ensures LogoutCall(baseURL, token).headers["Content-Type"] == "application/json"
  {
  }

  /** `logout`: one call to `/auth/logout` whose outcome is ignored, then the
      token is cleared; it never fails. */
  function Logout(env: M.Env, s: M.ClientState): (s': M.ClientState)
    ensures s'.token == None
    ensures s'.log == s.log + [LogoutCall(env.baseURL, s.token)]
    ensures s'.(token := s.token, log := s.log) == s
  {
    s.(log := s.log + [LogoutCall(env.baseURL, s.token)], token := None)
  }

  /** The redirect of `handleAuthError`: to the login page unless the current
      path contains `/admin` or `/login`. */
  function RedirectTarget(path: string): (target: Option<string>)
    ensures target.Some? <==> !(exists i :: OccursAt(path, "/admin", i)) && !(exists i :: OccursAt(path, "/login", i))
    ensures target.Some? ==> target.value == LoginPath
  {
    if !Contains(path, "/admin") && !Contains(path, "/login") then Some(LoginPath) else None
  }

  /** Being sent to the login page never triggers a further redirect. */
  lemma RedirectSettles(path: string)
    requires RedirectTarget(path).Some?
    ensures RedirectTarget(RedirectTarget(path).value) == None
  {
    assert OccursAt(LoginPath, "/admin", 0);
  }

  /** `handleAuthError`: the token is cleared and the redirect chosen from the current path. */
  function HandleAuthError(s: M.ClientState, path: string): (r: (M.ClientState, Option<string>))
    ensures r.0 == s.(token := None) && r.1 == RedirectTarget(path)
  {
    (s.(token := None), RedirectTarget(path))
  }

  /** `initializeAuth`: true exactly when the refresh succeeds; on failure
      the token is cleared, which the failed refresh has already done, so the
      state is in every case the state the refresh leaves. */
  function InitializeAuth(env: M.Env, s: M.ClientState, nowMs: int): (r: (M.ClientState, bool))
    ensures r.1 <==> M.Refresh(env, s).1.Ok?
    ensures r.0 == M.Refresh(env, s).0
    ensures !r.1 ==> r.0.token == None
  {
    var (s1, refreshed) := M.RefreshToken(env, s, nowMs);
    if refreshed.Ok? then (s1, true) else (s1.(token := None), false)
  }

  /** `validateToken`: the token decodes and has numeric `user_id` and `exp`. */
  function ValidateToken(decode: Tokens.PayloadDecoder, token: string): (valid: bool)
    ensures '.' !in token ==> !valid
    ensures valid ==> Tokens.GetUserFromToken(decode, Some(token), None).Some?
    ensures valid <==> var claims := Tokens.DecodeToken(decode, token);
      claims.Some? && claims.value.userId.Some? && claims.value.exp.Some?
  {
    var claims := Tokens.DecodeToken(decode, token);
    claims.Some? && claims.value.userId.Some? && claims.value.exp.Some?
  }

  /** For a valid token, being expired is decided by its `exp` claim alone:
      a zero `exp` is expired, any other is compared with the clock. */
  lemma ValidTokenExpiry(decode: Tokens.PayloadDecoder, token: string, nowMs: int)
    requires ValidateToken(decode, token)
    ensures var exp := Tokens.DecodeToken(decode, token).value.exp.value;
      Tokens.IsTokenExpired(decode, Some(token), nowMs) <==> exp == 0 || nowMs / 1000 >= exp - Tokens.SkewSeconds
  {
    assert token != "" by {
      assert '.' in token;
    }
  }
}

/** The `AuthService` object, performing the operations of `SessionModel`
    on the shared token manager and `fetch`. */
module Session {
  import opened Base
  import opened ApiClient
  import Tokens
  import M = TransportModel
  import S = SessionModel
  import AuthApi

  /** The authentication service, holding the authenticated client; the
      plain client it uses for login and logout shares that client's
      `fetch`, base URL and token manager. */
  class AuthService {
    const client: AuthApi.AuthApiClient

    /** The constructor installs `handleAuthError` as the auth-error handler. */
    constructor (client: AuthApi.AuthApiClient)
      modifies client
      ensures this.client == client
      ensures client.State() == old(client.State()).(handlerSet := true)
    {
      this.client := client;
      new;
      client.SetAuthErrorHandler();
    }

    method Login(email: string, password: string) returns (r: Result<Data, Error>)
      modifies client.tm, client.net
      ensures (client.State(), r) == S.Login(client.Env(), old(client.State()), email, password)
    {
      client.tm.ClearAllTokens();
      var reply := ApiClient.Send(client.net, client.baseURL, S.LoginEndpoint, S.LoginConfig(email, password));
      match M.AccessTokenOf(reply)
      case Err(e) =>
        client.tm.ClearAllTokens();
        r := Err(e);
      case Ok(token) =>
        client.tm.SetAccessToken(token);
        r := reply;
    }

    method Logout()
      modifies client.tm, client.net
      ensures client.State() == S.Logout(client.Env(), old(client.State()))
    {
      var accessToken := client.tm.GetAccessToken();
      var config := Post(None, NoConfig.(includeCookies := true, headers := S.LogoutHeaders(accessToken)));
      var ignored := ApiClient.Send(client.net, client.baseURL, S.LogoutEndpoint, config);
      client.tm.ClearAllTokens();
    }

    method RefreshToken(nowMs: int) returns (r: Result<M.RefreshResponse, Error>)
      modifies client, client.tm, client.net
      ensures (client.State(), r) == M.RefreshToken(client.Env(), old(client.State()), nowMs)
    {
      r := client.RefreshToken(nowMs);
    }

    /** `getCurrentUser`: an authenticated `GET /me`. */
    method GetCurrentUser(nowMs: int) returns (r: Result<Data, Error>)
      modifies client, client.tm, client.net
      ensures (client.State(), r) == M.Request(client.Env(), old(client.State()), "/me", Get(NoConfig), nowMs)
    {
      r := client.Get("/me", NoConfig, nowMs);
    }

    /** `isAuthenticated`: the store's own test on the stored token. */
    function IsAuthenticated(nowMs: int): (auth: bool)
      reads client.tm
      ensures auth <==> client.tm.accessToken.Some? && !Tokens.IsTokenExpired(client.tm.decode, client.tm.accessToken, nowMs)
      ensures auth ==> Truthy(client.tm.accessToken)
    {
      Tokens.IsAuthenticated(client.tm.decode, client.tm.accessToken, nowMs)
    }

    /** `getAccessToken`: the token the store holds. */
    function GetAccessToken(): (t: Option<string>)
      reads client.tm
      ensures t == client.tm.accessToken
    {
      client.tm.accessToken
    }

    method HandleAuthError(path: string) returns (redirect: Option<string>)
      modifies client.tm
      ensures (client.State(), redirect) == S.HandleAuthError(old(client.State()), path)
    {
      client.tm.ClearAllTokens();
      redirect := S.RedirectTarget(path);
    }

    method InitializeAuth(nowMs: int) returns (authenticated: bool)
      modifies client, client.tm, client.net
      ensures (client.State(), authenticated) == S.InitializeAuth(client.Env(), old(client.State()), nowMs)
    {
      var refreshed := RefreshToken(nowMs);
      if refreshed.Ok? {
        authenticated := true;
      } else {
        client.tm.ClearAllTokens();
        authenticated := false;
      }
    }
  }
}
