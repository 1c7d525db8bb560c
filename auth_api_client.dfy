/** The `AuthApiClient` object of src/api/clients/AuthApiClient.ts. It
    shares the token manager and `fetch` with the rest of the layer, keeps
    the single-flight refresh marker as `inFlight` (with the number of
    callers awaiting it) and holds whether `onAuthError` is installed and
    every invocation it received. Each method is proved to have exactly the
    effect and result of the matching function of `TransportModel`, where
    its properties are proved. */
module AuthApi {
  import opened Base
  import opened ApiClient
  import Tokens
  import M = TransportModel

  class AuthApiClient {
    const baseURL: string
    const tm: Tokens.TokenManager
    const net: Fetcher
    var inFlight: Option<nat>
    var waiters: nat
    var handlerSet: bool
    var authErrors: seq<Error>

    constructor (baseURL: string, tm: Tokens.TokenManager, net: Fetcher)
      ensures this.baseURL == baseURL && this.tm == tm && this.net == net
      ensures inFlight == None && waiters == 0 && !handlerSet && authErrors == []
    {
      this.baseURL := baseURL;
      this.tm := tm;
      this.net := net;
      inFlight := None;
      waiters := 0;
      handlerSet := false;
      authErrors := [];
    }

    function Env(): M.Env {
      M.Env(baseURL, tm.decode, net.respond)
    }

    function State(): M.ClientState
      reads this, tm, net
    {
      M.ClientState(tm.accessToken, net.log, inFlight, waiters, handlerSet, authErrors)
    }

    /** `setAuthErrorHandler`: the handler the auth service installs. */
    method SetAuthErrorHandler()
      modifies this
      ensures State() == old(State()).(handlerSet := true)
    {
      handlerSet := true;
    }

    /** `this.onAuthError?.(error)`. */
    method InvokeAuthError(e: Error)
      modifies this, tm
      ensures State() == M.Notify(old(State()), e)
    {
      if handlerSet {
        authErrors := authErrors + [e];
        tm.ClearAllTokens();
      }
    }

    /** A caller reaches `refreshAccessToken`; returns the index of the call it waits on. */
    method BeginRefresh() returns (call: nat)
      modifies this, net
      ensures State() == M.Begin(Env(), old(State()))
      ensures State().inFlight == Some(call)
    {
      if inFlight.Some? {
        call := inFlight.value;
        waiters := waiters + 1;
      } else {
        call := net.Issue(M.RefreshCall(baseURL));
        inFlight := Some(call);
        waiters := 1;
      }
    }

    /** The pending refresh call completes; `woken` callers receive `result`. */
    method SettleRefresh() returns (result: Result<Option<string>, Error>, woken: nat)
      requires inFlight.Some?
      modifies this, tm
      ensures M.Settlement(State(), result, woken) == M.Settle(Env(), old(State()))
    {
      result := M.AccessTokenOf(Complete(net.respond(inFlight.value)));
      woken := waiters;
      inFlight := None;
      waiters := 0;
      match result
      case Ok(token) =>
        tm.SetAccessToken(token);
      case Err(e) =>
        tm.ClearAllTokens();
        InvokeAuthError(e);
    }

    /** `refreshAccessToken`, awaited by the caller. */
    method RefreshAccessToken() returns (r: Result<Option<string>, Error>)
      modifies this, tm, net
      ensures (State(), r) == M.Refresh(Env(), old(State()))
    {
      var call := BeginRefresh();
      var woken;
      r, woken := SettleRefresh();
    }

    /** `refreshToken`: the new token and the seconds it has left. */
    method RefreshToken(nowMs: int) returns (r: Result<M.RefreshResponse, Error>)
      modifies this, tm, net
      ensures (State(), r) == M.RefreshToken(Env(), old(State()), nowMs)
    {
      var t := RefreshAccessToken();
      match t
      case Err(e) =>
        r := Err(e);
      case Ok(token) =>
        r := Ok(M.RefreshResponse(token, Tokens.GetTimeUntilExpiration(tm.decode, None, tm.GetAccessToken(), nowMs)));
    }

    /** `getValidAccessToken`. */
    method GetValidAccessToken(nowMs: int) returns (r: Result<Option<string>, Error>)
      modifies this, tm, net
      ensures (State(), r) == M.ValidAccessToken(Env(), old(State()), nowMs)
    {
      var currentToken := tm.GetAccessToken();
      if !Truthy(currentToken) || tm.IsCurrentTokenExpired(nowMs) {
        r := RefreshAccessToken();
      } else {
        r := Ok(currentToken);
      }
    }

    /** One attempt of `request`: header from the token obtained, then a send. */
    method Attempt(endpoint: string, config: RequestConfig, token: Result<Option<string>, Error>) returns (r: Result<Data, Error>)
      modifies net
      ensures (State(), r) == M.Attempt(Env(), old(State()), endpoint, config, token)
    {
      match token
      case Err(e) =>
        r := Err(e);
      case Ok(t) =>
        match Tokens.FormatAuthorizationHeader(t, tm.GetAccessToken())
        case Err(message) =>
          r := Err(PlainError(message));
        case Ok(header) =>
          r := ApiClient.Send(net, baseURL, endpoint, M.Authorized(config, header));
    }

    /** `request`. */
    method Request(endpoint: string, config: RequestConfig, nowMs: int) returns (r: Result<Data, Error>)
      modifies this, tm, net
      ensures (State(), r) == M.Request(Env(), old(State()), endpoint, config, nowMs)
    {
      if config.skipAuth {
        r := ApiClient.Send(net, baseURL, endpoint, config);
        return;
      }
      var t1 := GetValidAccessToken(nowMs);
      var r1 := Attempt(endpoint, config, t1);
      assert (State(), r1) == M.FirstTry(Env(), old(State()), endpoint, config, nowMs);
      if r1.Ok? || !IsUnauthorized(r1.error) {
        r := r1;
        return;
      }
      ghost var s2 := State();
      tm.ClearAccessToken();
      var t2 := RefreshAccessToken();
      var r2 := Attempt(endpoint, config, t2);
      if r2.Err? && r2.error.ApiError? {
        InvokeAuthError(r2.error);
      }
      r := r2;
      assert (State(), r) == M.Recover(Env(), s2, endpoint, config);
    }

    /** `get`: `request` with method `GET`. */
    method Get(endpoint: string, config: RequestConfig, nowMs: int) returns (r: Result<Data, Error>)
      modifies this, tm, net
      ensures (State(), r) == M.Request(Env(), old(State()), endpoint, ApiClient.Get(config), nowMs)
    {
      r := Request(endpoint, ApiClient.Get(config), nowMs);
    }

    /** `post`: `request` with method `POST` and the body given. */
    method Post(endpoint: string, data: Option<Payload>, config: RequestConfig, nowMs: int) returns (r: Result<Data, Error>)
      modifies this, tm, net
      ensures (State(), r) == M.Request(Env(), old(State()), endpoint, ApiClient.Post(data, config), nowMs)
    {
      r := Request(endpoint, ApiClient.Post(data, config), nowMs);
    }
  }
}
