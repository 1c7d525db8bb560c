/** The session state machine of src/context/AuthContext.tsx: a
    three-valued status (`None` for `undefined`, then `Some(true)` or
    `Some(false)`), a loading flag and the profile cache of the profile
    hook, driven by start-up initialisation, login and logout. */
module AuthContextModel {
  import opened Base
  import opened ApiClient
  import Tokens
  import M = TransportModel
  import S = SessionModel
  import P = ProfileModel

  datatype AppState = AppState(
    client: M.ClientState,
    profile: P.Profile,
    isAuthenticated: Option<bool>,
    isLoading: bool)

  /** Before initialisation: status unknown, loading, and a fresh profile hook. */
  function Initial(client: M.ClientState): (a: AppState)
    ensures a.isAuthenticated == None && a.isLoading && a.profile == P.Initial && a.client == client
  {
    AppState(client, P.Initial, None, true)
  }

  const InvalidTokenMessage: string := "Login succeeded but token is invalid"

  /** `initializeAuthState`. A token already held and valid sets the status
      to true and fetches the profile; a failure of that fetch is caught by
      the outer handler and sets it to false. Otherwise a refresh is made: a
      token obtained sets true and fetches the profile, and a failure of that
      fetch is caught with the refresh failures, setting false and logging
      out; a refresh that leaves no token sets false. Loading ends false and
      no error escapes. */
  function InitializeAuthState(env: M.Env, a: AppState, nowMs: int): (r: AppState)
    ensures !r.isLoading && r.isAuthenticated.Some?
    ensures r.isAuthenticated == Some(true) ==> r.profile.error == None && !r.profile.isLoading
    ensures Tokens.IsAuthenticated(env.decode, a.client.token, nowMs) ==>
      var (s1, p1, reply) := P.FetchProfile(env, a.client, nowMs);
      r == AppState(s1, p1, Some(reply.Ok?), false)
    ensures !Tokens.IsAuthenticated(env.decode, a.client.token, nowMs) && M.Refresh(env, a.client).1.Err? ==>
      r == AppState(S.Logout(env, M.Refresh(env, a.client).0), a.profile, Some(false), false)
    ensures (!Tokens.IsAuthenticated(env.decode, a.client.token, nowMs) && M.Refresh(env, a.client).1.Ok? &&
      !Truthy(M.Refresh(env, a.client).0.token)) ==>
      r == AppState(M.Refresh(env, a.client).0, a.profile, Some(false), false)
    ensures (!Tokens.IsAuthenticated(env.decode, a.client.token, nowMs) && M.Refresh(env, a.client).1.Ok? &&
      Truthy(M.Refresh(env, a.client).0.token)) ==>
      var (s2, p2, reply) := P.FetchProfile(env, M.Refresh(env, a.client).0, nowMs);
      r.profile == p2 && r.isAuthenticated == Some(reply.Ok?) &&
      r.client == (if reply.Ok? then s2 else S.Logout(env, s2))
  {
    var s := a.client;
    if Tokens.IsAuthenticated(env.decode, s.token, nowMs) then
      var (s1, p1, outcome) := P.Refetch(env, s, nowMs);
      AppState(s1, p1, Some(outcome.Done?), false)
    else
      var (s1, refreshed) := M.RefreshToken(env, s, nowMs);
      if refreshed.Err? then AppState(S.Logout(env, s1), a.profile, Some(false), false)
      else if !Truthy(s1.token) then AppState(s1, a.profile, Some(false), false)
      else
        var (s2, p2, outcome) := P.Refetch(env, s1, nowMs);
        if outcome.Done? then AppState(s2, p2, Some(true), false)
        else AppState(S.Logout(env, s2), p2, Some(false), false)
  }

  /** A valid token already held is used for the profile without any
      refresh: when the profile reply is not a 401, the only call made is
      the `GET /me` carrying that token, and the status is whether it succeeded. */
  lemma HeldTokenSkipsRefresh(env: M.Env, a: AppState, nowMs: int)
    requires Tokens.IsAuthenticated(env.decode, a.client.token, nowMs)
    requires var reply := Complete(env.respond(|a.client.log|)); reply.Ok? || !IsUnauthorized(reply.error)
    ensures var r := InitializeAuthState(env, a, nowMs);
      r.client.log == a.client.log + [Prepare(env.baseURL, P.MeEndpoint, M.Authorized(Get(NoConfig), "Bearer " + a.client.token.value))] &&
      r.isAuthenticated == Some(Complete(env.respond(|a.client.log|)).Ok?)
  {
    M.FreshTokenUsedAsIs(env, a.client, P.MeEndpoint, Get(NoConfig), nowMs);
  }

  /** With no valid token and no refresh pending, a failed refresh ends
      initialisation with status false, the profile untouched, the token
      cleared, and exactly two calls: the refresh and a logout that carries
      no access token. */
  lemma FailedStartupRefreshLogsOut(env: M.Env, a: AppState, nowMs: int, e: Error)
    requires !Tokens.IsAuthenticated(env.decode, a.client.token, nowMs) && a.client.inFlight.None?
    requires Complete(env.respond(|a.client.log|)) == Err(e)
    ensures var r := InitializeAuthState(env, a, nowMs);
      r.isAuthenticated == Some(false) && !r.isLoading && r.profile == a.profile && r.client.token == None &&
      r.client.log == a.client.log + [M.RefreshCall(env.baseURL), S.LogoutCall(env.baseURL, None)] &&
      "Authorization" !in r.client.log[|a.client.log| + 1].headers
  {
    S.LogoutCallShape(env.baseURL, None);
  }

  /** `login`: the service login, then, only if the token it stored is
      valid, status true and a profile fetch whose success decides the
      outcome. Any failure, including an invalid token and a failed profile
      fetch, sets the status to false and is rethrown. Loading is not touched. */
  function Login(env: M.Env, a: AppState, email: string, password: string, nowMs: int): (r: (AppState, Outcome<Error>))
    ensures r.1.Done? <==> r.0.isAuthenticated == Some(true)
    ensures r.0.isAuthenticated.Some? && r.0.isLoading == a.isLoading
    ensures r.1.Done? ==> r.0.profile.error == None && !r.0.profile.isLoading
    ensures S.Login(env, a.client, email, password).1.Err? ==>
      r == (a.(client := S.Login(env, a.client, email, password).0, isAuthenticated := Some(false)),
            Failed(S.Login(env, a.client, email, password).1.error)) && r.0.client.token == None
    ensures (S.Login(env, a.client, email, password).1.Ok? &&
      !Tokens.IsAuthenticated(env.decode, S.Login(env, a.client, email, password).0.token, nowMs)) ==>
      r == (a.(client := S.Login(env, a.client, email, password).0, isAuthenticated := Some(false)),
            Failed(PlainError(InvalidTokenMessage)))
    ensures var (s1, loggedIn) := S.Login(env, a.client, email, password);
      loggedIn.Ok? && Tokens.IsAuthenticated(env.decode, s1.token, nowMs) ==>
      var (s2, p2, reply) := P.FetchProfile(env, s1, nowMs);
      r.0 == a.(client := s2, profile := p2, isAuthenticated := Some(reply.Ok?)) &&
      (r.1.Done? <==> reply.Ok?) && (r.1.Failed? ==> r.1.error == reply.error)
  {
    var (s1, loggedIn) := S.Login(env, a.client, email, password);
    if loggedIn.Err? then (a.(client := s1, isAuthenticated := Some(false)), Failed(loggedIn.error))
    else if !Tokens.IsAuthenticated(env.decode, s1.token, nowMs) then
      (a.(client := s1, isAuthenticated := Some(false)), Failed(PlainError(InvalidTokenMessage)))
    else
      var (s2, p2, outcome) := P.Refetch(env, s1, nowMs);
      (a.(client := s2, profile := p2, isAuthenticated := Some(outcome.Done?)), outcome)
  }

  /** A login posts the credentials before anything else, and every call
      made before it is kept. */
  lemma LoginCallsLoginFirst(env: M.Env, a: AppState, email: string, password: string, nowMs: int)
    ensures var log := Login(env, a, email, password, nowMs).0.client.log;
      |log| > |a.client.log| && log[..|a.client.log|] == a.client.log &&
      log[|a.client.log|] == S.LoginCall(env.baseURL, email, password)
  {
    var (s1, loggedIn) := S.Login(env, a.client, email, password);
    if loggedIn.Ok? && Tokens.IsAuthenticated(env.decode, s1.token, nowMs) {
      M.RequestBounds(env, s1, P.MeEndpoint, Get(NoConfig), nowMs);
      var s2 := P.Refetch(env, s1, nowMs).0;
      assert s2.log[..|s1.log|] == s1.log;
      assert s2.log[|a.client.log|] == s1.log[|a.client.log|];
      assert s2.log[..|a.client.log|] == s1.log[..|a.client.log|];
    }
  }

  /** `logout`: the service logout, which never fails, then status false
      and the profile's user dropped; loading is not touched. */
  function Logout(env: M.Env, a: AppState): (r: AppState)
    ensures r.client == S.Logout(env, a.client) && r.client.token == None
    ensures r.isAuthenticated == Some(false) && r.isLoading == a.isLoading
    ensures r.profile.user == None && r.profile.error == a.profile.error && r.profile.isLoading == a.profile.isLoading
  {
    AppState(S.Logout(env, a.client), P.ClearProfile(a.profile), Some(false), a.isLoading)
  }
}

/** The provider as an object over the shared service and profile hook. */
module AuthContext {
  import opened Base
  import opened ApiClient
  import M = TransportModel
  import P = ProfileModel
  import C = AuthContextModel
  import Session
  import Profiles

  class AuthProvider {
    const service: Session.AuthService
    const hook: Profiles.ProfileHook
    var isAuthenticated: Option<bool>
    var isLoading: bool

    /** The hook and the service work through the same client. */
    predicate Valid() {
      hook.client == service.client
    }

    constructor (service: Session.AuthService, hook: Profiles.ProfileHook)
      requires hook.client == service.client
      ensures this.service == service && this.hook == hook && Valid()
      ensures isAuthenticated == None && isLoading
    {
      this.service := service;
      this.hook := hook;
      isAuthenticated := None;
      isLoading := true;
    }

    function Env(): M.Env {
      service.client.Env()
    }

    function State(): C.AppState
      reads this, hook, service.client, service.client.tm, service.client.net
    {
      C.AppState(service.client.State(), hook.Snapshot(), isAuthenticated, isLoading)
    }

    method InitializeAuthState(nowMs: int)
      requires Valid()
      modifies this, hook, service.client, service.client.tm, service.client.net
      ensures State() == C.InitializeAuthState(Env(), old(State()), nowMs)
    {
      isLoading := true;
      var isAuth := service.IsAuthenticated(nowMs);
      if isAuth {
        isAuthenticated := Some(true);
        var outcome := hook.Refetch(nowMs);
        if outcome.Failed? {
          isAuthenticated := Some(false);
        }
      } else {
        var refreshed := service.RefreshToken(nowMs);
        if refreshed.Ok? {
          var newAccessToken := service.GetAccessToken();
          if Truthy(newAccessToken) {
            isAuthenticated := Some(true);
            var outcome := hook.Refetch(nowMs);
            if outcome.Failed? {
              isAuthenticated := Some(false);
              service.Logout();
            }
          } else {
            isAuthenticated := Some(false);
          }
        } else {
          isAuthenticated := Some(false);
          service.Logout();
        }
      }
      isLoading := false;
    }

    method Login(email: string, password: string, nowMs: int) returns (outcome: Outcome<Error>)
      requires Valid()
      modifies this, hook, service.client, service.client.tm, service.client.net
      ensures (State(), outcome) == C.Login(Env(), old(State()), email, password, nowMs)
    {
      var loggedIn := service.Login(email, password);
      if loggedIn.Err? {
        isAuthenticated := Some(false);
        outcome := Failed(loggedIn.error);
      } else if !service.IsAuthenticated(nowMs) {
        isAuthenticated := Some(false);
        outcome := Failed(PlainError(C.InvalidTokenMessage));
      } else {
        isAuthenticated := Some(true);
        outcome := hook.Refetch(nowMs);
        if outcome.Failed? {
          isAuthenticated := Some(false);
        }
      }
    }

    method Logout()
      requires Valid()
      modifies this, hook, service.client.tm, service.client.net
      ensures State() == C.Logout(Env(), old(State()))
    {
      service.Logout();
      isAuthenticated := Some(false);
      hook.ClearProfile();
    }

    /** `refreshAuthState`: initialisation once more. */
    method RefreshAuthState(nowMs: int)
      requires Valid()
      modifies this, hook, service.client, service.client.tm, service.client.net
      ensures State() == C.InitializeAuthState(Env(), old(State()), nowMs)
    {
      InitializeAuthState(nowMs);
    }
  }
}
