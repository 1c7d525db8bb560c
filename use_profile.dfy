/** The profile cache of src/hooks/useProfile.ts: the fetched user, a
    loading flag and the last error message. The profile is fetched with an
    authenticated `GET /me` (the one-line `UserService.getProfile`). */
module ProfileModel {
  import opened Base
  import opened ApiClient
  import M = TransportModel

  /** The hook's three pieces of state. */
  datatype Profile = Profile(user: Option<Data>, isLoading: bool, error: Option<string>)

  /** On creation there is no user, loading is on and there is no error; nothing is fetched. */
  const Initial: Profile := Profile(None, true, None)

  const MeEndpoint: string := "/me"

  /** `fetchProfile`: one authenticated request. Loading ends in every case;
      success stores and returns the user with no error, where a JSON `null`
      body stores no user; failure drops the user, keeps the error's message
      and rethrows. The profile held before does not matter: all three values
      are set. */
  function FetchProfile(env: M.Env, s: M.ClientState, nowMs: int): (r: (M.ClientState, Profile, Result<Data, Error>))
    ensures (r.0, r.2) == M.Request(env, s, MeEndpoint, Get(NoConfig), nowMs)
    ensures !r.1.isLoading
    ensures r.2.Ok? && r.2.value != JsonNull ==> r.1 == Profile(Some(r.2.value), false, None)
    ensures r.2 == Ok(JsonNull) ==> r.1 == Profile(None, false, None)
    ensures r.2.Err? ==> r.1 == Profile(None, false, Some(r.2.error.message))
  {
    var (s1, reply) := M.Request(env, s, MeEndpoint, Get(NoConfig), nowMs);
    match reply
    case Ok(user) => (s1, Profile(if user == JsonNull then None else Some(user), false, None), reply)
    case Err(e) => (s1, Profile(None, false, Some(e.message)), reply)
  }

  /** The profile holds a user exactly when the last fetch succeeded with a
      non-null body, and that user is the body; it holds an error exactly
      when the fetch failed, and then no user. */
  lemma FetchedProfileConsistent(env: M.Env, s: M.ClientState, nowMs: int)
    ensures var (_, p, r) := FetchProfile(env, s, nowMs);
      (p.user.Some? <==> r.Ok? && r.value != JsonNull) && (p.user.Some? ==> r == Ok(p.user.value)) &&
      (p.error.Some? <==> r.Err?) && (p.error.Some? ==> p.user.None?)
  {
  }

  /** `refetch`: the effects of `fetchProfile`, without the value. */
  function Refetch(env: M.Env, s: M.ClientState, nowMs: int): (r: (M.ClientState, Profile, Outcome<Error>))
    ensures r.0 == FetchProfile(env, s, nowMs).0 && r.1 == FetchProfile(env, s, nowMs).1
    ensures r.2.Done? <==> FetchProfile(env, s, nowMs).2.Ok?
    ensures r.2.Failed? ==> r.2.error == FetchProfile(env, s, nowMs).2.error
  {
    var (s1, p, reply) := FetchProfile(env, s, nowMs);
    (s1, p, if reply.Ok? then Done else Failed(reply.error))
  }

  /** `clearProfile`: only the user is dropped. */
  function ClearProfile(p: Profile): (q: Profile)
    ensures q.user == None && q.isLoading == p.isLoading && q.error == p.error
  {
    p.(user := None)
  }
}

/** The hook as an object whose fields its operations update. */
module Profiles {
  import opened Base
  import opened ApiClient
  import M = TransportModel
  import P = ProfileModel
  import AuthApi

  class ProfileHook {
    const client: AuthApi.AuthApiClient
    var user: Option<Data>
    var isLoading: bool
    var error: Option<string>

    /** Creating the hook fetches nothing. */
    constructor (client: AuthApi.AuthApiClient)
      ensures this.client == client && Snapshot() == P.Initial
    {
      this.client := client;
      user := None;
      isLoading := true;
      error := None;
    }

    function Snapshot(): P.Profile
      reads this
    {
      P.Profile(user, isLoading, error)
    }

    method FetchProfile(nowMs: int) returns (r: Result<Data, Error>)
      modifies this, client, client.tm, client.net
      ensures (client.State(), Snapshot(), r) == P.FetchProfile(client.Env(), old(client.State()), nowMs)
    {
      isLoading := true;
      error := None;
      r := client.Get(P.MeEndpoint, NoConfig, nowMs);
      match r {
        case Ok(profile) =>
          user := if profile == JsonNull then None else Some(profile);
        case Err(e) =>
          error := Some(e.message);
          user := None;
      }
      isLoading := false;
    }

    method Refetch(nowMs: int) returns (outcome: Outcome<Error>)
      modifies this, client, client.tm, client.net
      ensures (client.State(), Snapshot(), outcome) == P.Refetch(client.Env(), old(client.State()), nowMs)
    {
      var r := FetchProfile(nowMs);
      outcome := if r.Ok? then Done else Failed(r.error);
    }

    method ClearProfile()
      modifies this
      ensures Snapshot() == P.ClearProfile(old(Snapshot()))
    {
      user := None;
    }
  }
}
