# Token lifecycle and authenticated transport of an admin web client

This project models the client-side authentication layer of a React admin
application in Dafny and proves properties of the model. The layer covers:

- **Token store** (`TokenManager`). It keeps one access token in memory and
  derives facts from it: the decoded claims, whether it is expired (with a
  30-second skew buffer), the whole seconds it has left, and the
  `Bearer` header value.
- **Authenticated transport** (`AuthApiClient` over `ApiClient`). It fetches
  a valid token before each call and injects `Authorization`. All callers
  share one pending `/auth/refresh` call (single flight). On a 401 it clears
  the token, refreshes and retries once. It reports failures to the
  `onAuthError` handler.
- **Session sequences** (`AuthService`, `AuthProvider`, `useProfile`).
  These are login, logout, start-up initialisation and the profile cache.
  Together they drive a three-valued status (unknown, true, false), a loading
  flag, and the user, loading flag and error of the profile.
- **Product queries** (`ProductService`). These decide which filters become
  query parameters, in what order, and what the id-based endpoints are.

## Structure

| file | modules | form |
|---|---|---|
| `base.dfy` | `Base` | `Option`, `Result`, `Outcome`, the JavaScript string functions used (`includes`, `split`, `startsWith`, `endsWith`, integer `toString`) |
| `token_manager.dfy` | `Tokens` | pure functions over the token and the clock; class `TokenManager` holding `accessToken` |
| `api_client.dfy` | `ApiClient` | pure request preparation and response mapping; class `Fetcher` (the `fetch` oracle with its call record); method `Send` |
| `transport_model.dfy` | `TransportModel` | the authenticated transport as a state machine over a value state `ClientState`, with the properties proved about it |
| `auth_api_client.dfy` | `AuthApi` | class `AuthApiClient`; each method is proved to have exactly the effect of its `TransportModel` function |
| `auth_service.dfy` | `SessionModel`, `Session` | the session operations as functions, and class `AuthService` proved equal to them |
| `use_profile.dfy` | `ProfileModel`, `Profiles` | the profile cache as functions, and class `ProfileHook` proved equal to them |
| `auth_context.dfy` | `AuthContextModel`, `AuthContext` | the provider's state machine as functions, and class `AuthProvider` proved equal to them |
| `product_service.dfy` | `ProductQuery`, `Products` | parameter selection, order and endpoints; method `BuildParams` appends step by step like the source |

Outside inputs are parameters:

- The clock is `nowMs`, read once per operation.
- `fetch` is `respond: nat -> FetchOutcome`: the i-th call ever made gets
  `respond(i)`. Every call is appended to a record (`log`), so the
  properties talk about which calls were made, in what order, and with which
  headers and credentials.
- `atob` followed by `JSON.parse` is the decoder `decode: string -> Option<Claims>`.
- The value escaping of `URLSearchParams` is `escape: string -> string`.

The one auth-error handler the application installs is
`AuthService.handleAuthError`, which clears the token. The model writes that
effect into `TransportModel.Notify`: an invocation is recorded in
`authErrors` and the token is cleared. All of its redirect apart from
`window.location` is the pure `SessionModel.RedirectTarget`.

`apiClient` and `authApiClient` are both created without a base URL. They
therefore resolve the same base, and every login, logout and authenticated
call goes through the same `fetch` and token store. The model makes them
share one `Fetcher`, one base URL and one `TokenManager`.

### Behaviour worth noting

- **Token segments.** A JWT has three segments, `header.payload.signature`,
  but `decodeToken` needs only a non-empty second `.`-segment
  (src/auth/TokenManager.ts:43-46). So `header.payload` and tokens with four
  or more segments are decoded too (`Tokens.DecodeSecondSegment`).
- **Handler invocations.** `refreshAccessToken` fires the auth-error handler
  itself when a refresh fails (src/api/clients/AuthApiClient.ts:58-60). When
  that refresh is the one in the 401 path, the 401 path fires it again
  (src/api/clients/AuthApiClient.ts:123-125). A refresh that itself fails
  with a 401 is caught as a 401 and sets off a second refresh. So one
  request can invoke the handler once, twice or three times
  (`TransportModel.FailedRecoveryNotifiesTwice`,
  `TransportModel.FailedRefreshesNotifyThrice`, `TransportModel.RequestBounds`).
- **Exactly once.** The handler fires exactly once when the retry after a
  successful refresh fails (`TransportModel.UnauthorizedRetriedOnce`).

## Model

| member | source | states |
|---|---|---|
| Base.Or | src/auth/TokenManager.ts:83 | `a \|\| b` on nullable strings: `a` when it is a non-empty string, else `b` |
| Base.Contains | src/api/services/AuthService.ts:137 | `includes` holds exactly when the substring occurs at some index |
| Base.Split | src/auth/TokenManager.ts:43 | `split` on one character always gives at least one part |
| Base.SplitJoin | src/auth/TokenManager.ts:43 | joining the parts of a split with the separator gives back the string, and no part contains the separator |
| Base.SplitCount | src/auth/TokenManager.ts:43 | a split has one more part than the string has separators |
| Base.SplitAtFirst | src/auth/TokenManager.ts:43 | a separator-free prefix becomes the first part on its own |
| Base.SplitNoSeparator | src/auth/TokenManager.ts:43 | a string without the separator splits into itself alone |
| Base.NatToString | src/api/services/ProductService.example.ts:60 | the decimal text of a natural is non-empty digits with no leading zero |
| Base.DecimalRoundTrip | src/api/services/ProductService.example.ts:60 | reading back the decimal text of a natural gives the natural |
| Base.IntToString | src/api/services/ProductService.example.ts:63 | the text of an integer starts with a digit exactly when the integer is not negative |
| Base.IntToStringInjective | src/api/services/ProductService.example.ts:78 | different integers have different texts |
| Tokens.PayloadSegment | src/auth/TokenManager.ts:43-46 | `split('.')[1]` exists exactly when the token contains a `.` |
| Tokens.DecodeToken | src/auth/TokenManager.ts:41-54 | no `.` gives no claims; any claims returned are the decoding of a non-empty second segment; failures are values, never exceptions |
| Tokens.DecodeSecondSegment | src/auth/TokenManager.ts:43-48 | with two segments, three, or more, the claims are those of the second segment |
| Tokens.IsTokenExpired | src/auth/TokenManager.ts:59-69 | a missing, empty or undecodable token, or a missing or zero `exp`, is expired; otherwise expired exactly when `floor(nowMs/1000) >= exp - 30` |
| Tokens.ExpiredFromMillisecond | src/auth/TokenManager.ts:65-69 | without division: a token with expiry `exp` is expired exactly from millisecond `(exp - 30) * 1000` on |
| Tokens.IsAuthenticated | src/auth/TokenManager.ts:99-101 | authenticated exactly when a token is stored and it is not expired; this implies a non-empty token |
| Tokens.GetUserFromToken | src/auth/TokenManager.ts:82-87 | no user when neither argument nor stored token is a non-empty string; otherwise the claims of the argument, else of the stored token |
| Tokens.GetTokenExpiration | src/auth/TokenManager.ts:106-114 | an expiry exists exactly when the chosen token has a non-zero `exp`, and it is `exp * 1000` milliseconds |
| Tokens.GetTimeUntilExpiration | src/auth/TokenManager.ts:119-127 | never negative; 0 without an expiry; otherwise the whole seconds to the expiry, clamped at 0 |
| Tokens.RemainingAgreesWithExpiry | src/auth/TokenManager.ts:119-127 | an unexpired token has at least 30 seconds left, and a token with more than 30 seconds left is not expired |
| Tokens.FormatAuthorizationHeader | src/auth/TokenManager.ts:132-138 | an error ("No token available") exactly when neither argument nor stored token is non-empty; otherwise `Bearer ` followed by the argument, else the stored token |
| Tokens.TokenManager.constructor | src/auth/TokenManager.ts:8 | the store starts without a token |
| Tokens.TokenManager.SetAccessToken | src/auth/TokenManager.ts:13-15 | afterwards `getAccessToken` returns the token set |
| Tokens.TokenManager.ClearAccessToken | src/auth/TokenManager.ts:27-29 | afterwards no token is stored |
| Tokens.TokenManager.ClearAllTokens | src/auth/TokenManager.ts:34-36 | afterwards no token is stored |
| Tokens.TokenManager.GetAccessToken | src/auth/TokenManager.ts:20-22 | the token currently stored, or none |
| Tokens.TokenManager.IsCurrentTokenExpired | src/auth/TokenManager.ts:75-77 | the expiry test applied to the stored token; with no usable token stored it is expired |
| Tokens.TokenManager.GetCurrentUser | src/auth/TokenManager.ts:92-94 | no user without a stored non-empty token; otherwise the decoded claims of the stored token |
| ApiClient.ResolveBaseUrl | src/api/clients/ApiClient.ts:37 | the given base when it is non-empty, else the configured one when non-empty, else `""` |
| ApiClient.BuildUrl | src/api/clients/ApiClient.ts:65-69 | the base without one trailing `/`, then the endpoint with a leading `/` ensured |
| ApiClient.LeadingSlashOptional | src/api/clients/ApiClient.ts:67 | `x` and `/x` reach the same URL |
| ApiClient.TrailingSlashOptional | src/api/clients/ApiClient.ts:66 | one trailing `/` on the base makes no difference |
| ApiClient.MergeHeaders | src/api/clients/ApiClient.ts:71-76 | the keys are the caller's plus `Content-Type`; the caller's values win; `Content-Type` is JSON unless the caller sets it |
| ApiClient.CredentialsFor | src/api/clients/ApiClient.ts:84-89 | `include` exactly when `includeCookies` is set, else `omit`, unless the config names a mode itself |
| ApiClient.Prepare | src/api/clients/ApiClient.ts:82-92 | the fetch call made: built URL, merged headers, chosen credentials, the config's method and body |
| ApiClient.ErrorMessage | src/api/clients/ApiClient.ts:56 | `data.message`, else `data.error`, else `HTTP <status>: <statusText>` |
| ApiClient.HandleResponse | src/api/clients/ApiClient.ts:43-63 | body read as JSON or text by content type; an unreadable body is `Failed to parse response` with the status; a non-2xx status is an `ApiError` with that status, the chosen message and `data.code`; otherwise the body |
| ApiClient.Complete | src/api/clients/ApiClient.ts:91-104 | every failure is an `ApiError`; a response error passes through; a rejected fetch becomes status 0 with its message, or `Network error occurred` |
| ApiClient.CompleteOk | src/api/clients/ApiClient.ts:43-63 | a call succeeds exactly when it got a 2xx response whose body could be read |
| ApiClient.WithMethod | src/api/clients/ApiClient.ts:112-134 | the convenience methods always set the method, carry exactly the body given, and change nothing else of the config |
| ApiClient.Get | src/api/clients/ApiClient.ts:108-110 | `get` sets the method to `GET` and leaves every other member of the config as given |
| ApiClient.Delete | src/api/clients/ApiClient.ts:136-138 | `delete` sets the method to `DELETE` and leaves every other member of the config as given |
| ApiClient.Post | src/api/clients/ApiClient.ts:112-118 | `post` sets the method to `POST`, the body to the data given, and leaves every other member as given |
| ApiClient.Put | src/api/clients/ApiClient.ts:120-126 | `put` sets the method to `PUT`, the body to the data given, and leaves every other member as given |
| ApiClient.Patch | src/api/clients/ApiClient.ts:128-134 | `patch` sets the method to `PATCH`, the body to the data given, and leaves every other member as given |
| ApiClient.Fetcher.constructor | src/api/clients/ApiClient.ts:92 | no fetch call made yet |
| ApiClient.Fetcher.Issue | src/api/clients/ApiClient.ts:92 | the call is recorded at the end, and its index is returned |
| ApiClient.Fetcher.Fetch | src/api/clients/ApiClient.ts:92 | the call is recorded, and its outcome is the oracle's for its index |
| ApiClient.Send | src/api/clients/ApiClient.ts:78-105 | `request` makes exactly the prepared fetch call, and its result is the completed outcome of that call |
| TransportModel.RefreshCall | src/api/clients/AuthApiClient.ts:44-47 | the refresh call includes cookies and carries no body and no `Authorization` |
| TransportModel.Notify | src/api/clients/AuthApiClient.ts:58-60 | with a handler set, the error is recorded and the token cleared; without one nothing changes; the calls and the refresh marker are unchanged in either case |
| TransportModel.Begin | src/api/clients/AuthApiClient.ts:40-44 | a pending refresh is joined with no new call; otherwise exactly one refresh call is issued and becomes the pending one; the waiter count grows; the invariant is kept |
| TransportModel.AccessTokenOf | src/api/clients/AuthApiClient.ts:48-51 | a failed reply passes on its error; a body's `access_token` is taken; a JSON `null` body is a failure |
| TransportModel.Settle | src/api/clients/AuthApiClient.ts:48-63 | the marker is cleared, every waiter gets the one result of the pending call; success stores the token; failure clears it and notifies the handler once |
| TransportModel.Refresh | src/api/clients/AuthApiClient.ts:38-66 | a single caller's refresh: at most one new refresh call, the stored token is the result on success and cleared on failure, nothing is left pending |
| TransportModel.SingleFlight | src/api/clients/AuthApiClient.ts:40-42 | any number of triggers before settlement issue exactly one refresh call, all wait on it, and all are woken with its one result |
| TransportModel.RefreshToken | src/api/clients/AuthApiClient.ts:27-33 | the refreshed token and the seconds left on the token now stored; fails exactly when the refresh fails |
| TransportModel.ValidAccessToken | src/api/clients/AuthApiClient.ts:71-80 | a present, unexpired token is returned as it is with nothing changed; otherwise the result of a refresh |
| TransportModel.Authorized | src/api/clients/AuthApiClient.ts:96-99 | only `Authorization` is set or overwritten; every other caller header and config member is kept |
| TransportModel.SentHeaders | src/api/clients/AuthApiClient.ts:96-104 | the sent call carries the header, the caller's other headers, and JSON `Content-Type` by default |
| TransportModel.Send | src/api/clients/AuthApiClient.ts:88 | the base send: one call recorded, and its completed outcome |
| TransportModel.FirstTry | src/api/clients/AuthApiClient.ts:91-104 | with a present, unexpired token the first try sends it as it is; otherwise it refreshes first and tries with the refresh's result |
| TransportModel.Attempt | src/api/clients/AuthApiClient.ts:93-104 | a failed token lookup is the result with no call; no usable token is `No token available` with no call; otherwise one send with `Bearer <token>` |
| TransportModel.Recover | src/api/clients/AuthApiClient.ts:106-127 | the 401 path keeps the handler setting and the transport invariant |
| TransportModel.Request | src/api/clients/AuthApiClient.ts:85-132 | with `skipAuth`, exactly the base send; the handler setting and the invariant are kept |
| TransportModel.RefreshExtends | src/api/clients/AuthApiClient.ts:38-66 | a refresh adds at most one call, a refresh call, and at most one handler invocation |
| TransportModel.AttemptExtends | src/api/clients/AuthApiClient.ts:93-104 | an attempt adds at most one call, no refresh call and no handler invocation; a call it adds carries `Authorization` |
| TransportModel.FirstTryExtends | src/api/clients/AuthApiClient.ts:91-104 | the first try adds at most one authorised call, one refresh call and one invocation |
| TransportModel.RecoverExtends | src/api/clients/AuthApiClient.ts:106-127 | the 401 path adds at most one authorised call, one refresh call and two invocations |
| TransportModel.RequestBounds | src/api/clients/AuthApiClient.ts:85-132 | an authenticated request keeps the earlier record and adds at most two sends to the endpoint, at most two refresh calls and at most three handler invocations |
| TransportModel.FreshTokenUsedAsIs | src/api/clients/AuthApiClient.ts:71-80 | with a fresh token and a reply that is not 401, the only call is the endpoint with `Bearer <stored token>`, and its reply is the result |
| TransportModel.StaleTokenRefreshedFirst | src/api/clients/AuthApiClient.ts:75-77 | a missing or expired token means the first call made is `/auth/refresh` |
| TransportModel.UnauthorizedRetriedOnce | src/api/clients/AuthApiClient.ts:106-120 | a 401 on a fresh token gives exactly: the send, one refresh, one resend with the new token; the resend's reply is the result; the handler hears only of a failed resend, once |
| TransportModel.FailedRecoveryNotifiesTwice | src/api/clients/AuthApiClient.ts:121-126 | a 401 followed by a failed refresh rethrows the refresh error, clears the token and invokes the handler twice with it |
| TransportModel.FailedRefreshesNotifyThrice | src/api/clients/AuthApiClient.ts:53-63 | with no usable token, a refresh failing with 401 and a second failing refresh give two refresh calls, no endpoint call and three invocations |
| TransportModel.OtherFailuresNotRetried | src/api/clients/AuthApiClient.ts:130 | a first failure that is not a 401 is the result, with nothing further done |
| AuthApi.AuthApiClient.constructor | src/api/clients/AuthApiClient.ts:10-15 | no refresh pending, no handler, shared base URL, store and fetch |
| AuthApi.AuthApiClient.SetAuthErrorHandler | src/api/clients/AuthApiClient.ts:20-22 | the handler becomes set; nothing else changes |
| AuthApi.AuthApiClient.InvokeAuthError | src/api/clients/AuthApiClient.ts:58-60 | the object state afterwards is `Notify` of the state before |
| AuthApi.AuthApiClient.BeginRefresh | src/api/clients/AuthApiClient.ts:40-44 | the state afterwards is `Begin` of the state before, and the returned call is the pending one |
| AuthApi.AuthApiClient.SettleRefresh | src/api/clients/AuthApiClient.ts:48-63 | state, result and waiters woken are those of `Settle` |
| AuthApi.AuthApiClient.RefreshAccessToken | src/api/clients/AuthApiClient.ts:38-66 | state and result are those of `Refresh` |
| AuthApi.AuthApiClient.RefreshToken | src/api/clients/AuthApiClient.ts:27-33 | state and result are those of `TransportModel.RefreshToken` |
| AuthApi.AuthApiClient.GetValidAccessToken | src/api/clients/AuthApiClient.ts:71-80 | state and result are those of `ValidAccessToken` |
| AuthApi.AuthApiClient.Attempt | src/api/clients/AuthApiClient.ts:93-104 | state and result are those of `TransportModel.Attempt` |
| AuthApi.AuthApiClient.Request | src/api/clients/AuthApiClient.ts:85-132 | state and result are those of `TransportModel.Request` |
| AuthApi.AuthApiClient.Get | src/api/clients/ApiClient.ts:108-110 | `request` with method `GET` |
| AuthApi.AuthApiClient.Post | src/api/clients/ApiClient.ts:112-118 | `request` with method `POST` and the body given |
| SessionModel.LoginCall | src/api/services/AuthService.ts:30-35 | the login call includes cookies, carries email and password, and no `Authorization` |
| SessionModel.Login | src/api/services/AuthService.ts:25-46 | exactly one login call; it succeeds exactly when the reply is a non-null body, which is then the result and whose `access_token` is stored; a null body is an error with no token stored; on failure, the error is the reply's and the token is left cleared; nothing else changes |
| SessionModel.LoginForgetsStoredToken | src/api/services/AuthService.ts:28 | login does not depend on the token held before it |
| SessionModel.LogoutHeaders | src/api/services/AuthService.ts:58-60 | `Authorization: Bearer <token>` exactly when a token is held, and no other header |
| SessionModel.LogoutCall | src/api/services/AuthService.ts:56-61 | logout is a bodiless `POST` to `/auth/logout` that includes cookies and sends exactly the logout headers, merged over the JSON default |
| SessionModel.LogoutCallShape | src/api/services/AuthService.ts:54-61 | the logout call always includes cookies, is a bodiless `POST`, and carries the access token exactly when one is held |
| SessionModel.Logout | src/api/services/AuthService.ts:51-69 | one logout call, then the token is cleared whatever the reply; it never fails |
| SessionModel.RedirectTarget | src/api/services/AuthService.ts:134-139 | a redirect to `/admin` exactly when the path contains neither `/admin` nor `/login` |
| SessionModel.RedirectSettles | src/api/services/AuthService.ts:137-138 | the redirect target never redirects again |
| SessionModel.HandleAuthError | src/api/services/AuthService.ts:125-141 | the token is cleared and the redirect is the one chosen from the path |
| SessionModel.InitializeAuth | src/api/services/AuthService.ts:146-156 | true exactly when the refresh succeeds; the token is cleared when it fails |
| SessionModel.ValidateToken | src/api/services/AuthService.ts:161-170 | valid exactly when the token decodes with numeric `user_id` and `exp`; a token without `.` is never valid |
| SessionModel.ValidTokenExpiry | src/api/services/AuthService.ts:164-166 | for a valid token, expiry is decided by its `exp` alone |
| Session.AuthService.constructor | src/api/services/AuthService.ts:17-20 | creating the service installs the handler |
| Session.AuthService.Login | src/api/services/AuthService.ts:25-46 | state and result are those of `SessionModel.Login` |
| Session.AuthService.Logout | src/api/services/AuthService.ts:51-69 | the state afterwards is that of `SessionModel.Logout` |
| Session.AuthService.RefreshToken | src/api/services/AuthService.ts:75-78 | the client's `refreshToken` |
| Session.AuthService.GetCurrentUser | src/api/services/AuthService.ts:83-85 | an authenticated `GET /me` |
| Session.AuthService.IsAuthenticated | src/api/services/AuthService.ts:90-92 | true exactly when the store holds a token that is not expired, which is then non-empty |
| Session.AuthService.GetAccessToken | src/api/services/AuthService.ts:104-106 | the token the shared store holds |
| Session.AuthService.HandleAuthError | src/api/services/AuthService.ts:125-141 | state and redirect are those of `SessionModel.HandleAuthError` |
| Session.AuthService.InitializeAuth | src/api/services/AuthService.ts:146-156 | state and result are those of `SessionModel.InitializeAuth` |
| ProfileModel.FetchProfile | src/hooks/useProfile.ts:23-40 | one `GET /me`; loading ends in every case; success stores the user with no error, and a JSON `null` body stores no user; failure drops the user and keeps the error's message |
| ProfileModel.FetchedProfileConsistent | src/hooks/useProfile.ts:28-35 | a user is held exactly when the fetch succeeded with a non-null body, and it is that body; an error is held exactly when the fetch failed, and then no user |
| ProfileModel.Refetch | src/hooks/useProfile.ts:49-51 | the same effects as `fetchProfile`; succeeds exactly when it does, with the same error |
| ProfileModel.ClearProfile | src/hooks/useProfile.ts:53-55 | only the user is dropped |
| Profiles.ProfileHook.constructor | src/hooks/useProfile.ts:19-21 | no user, loading, no error, and nothing fetched |
| Profiles.ProfileHook.FetchProfile | src/hooks/useProfile.ts:23-40 | client state, profile and result are those of `ProfileModel.FetchProfile` |
| Profiles.ProfileHook.Refetch | src/hooks/useProfile.ts:49-51 | client state, profile and outcome are those of `ProfileModel.Refetch` |
| Profiles.ProfileHook.ClearProfile | src/hooks/useProfile.ts:53-55 | the profile afterwards is `ClearProfile` of the one before |
| AuthContextModel.Initial | src/context/AuthContext.tsx:29-30 | status unknown and loading |
| AuthContextModel.InitializeAuthState | src/context/AuthContext.tsx:40-86 | loading ends false and a status is always decided; status true means the profile holds no error and is not loading; each branch's outcome (held token, failed refresh, refresh without token, refresh then profile) as the source orders it |
| AuthContextModel.HeldTokenSkipsRefresh | src/context/AuthContext.tsx:45-52 | a held valid token is used for `GET /me` with no refresh, and the status is whether it succeeded |
| AuthContextModel.FailedStartupRefreshLogsOut | src/context/AuthContext.tsx:70-78 | a failed start-up refresh sets false, leaves the profile, clears the token, and makes only the refresh and a logout without access token |
| AuthContextModel.Login | src/context/AuthContext.tsx:88-107 | succeeds exactly when the status becomes true, and then the profile holds no error and is not loading; a service failure or an invalid token (`Login succeeded but token is invalid`) sets false and is the error; after a valid login the profile is fetched, the status is whether that fetch succeeded, and its error is the outcome's; loading is untouched |
| AuthContextModel.LoginCallsLoginFirst | src/context/AuthContext.tsx:93 | the login call is the first call made, and earlier calls are kept |
| AuthContextModel.Logout | src/context/AuthContext.tsx:109-122 | the service logout, status false and the user dropped; loading is untouched |
| AuthContext.AuthProvider.constructor | src/context/AuthContext.tsx:29-30 | status unknown and loading |
| AuthContext.AuthProvider.InitializeAuthState | src/context/AuthContext.tsx:40-86 | the state afterwards is `AuthContextModel.InitializeAuthState` of the state before |
| AuthContext.AuthProvider.Login | src/context/AuthContext.tsx:88-107 | state and outcome are those of `AuthContextModel.Login` |
| AuthContext.AuthProvider.Logout | src/context/AuthContext.tsx:109-122 | the state afterwards is `AuthContextModel.Logout` of the state before |
| AuthContext.AuthProvider.RefreshAuthState | src/context/AuthContext.tsx:124-127 | exactly the effects of initialisation |
| ProductQuery.NumberValue | src/api/services/ProductService.example.ts:60-61 | a numeric filter is sent exactly when present and non-zero, as its decimal text |
| ProductQuery.SearchValue | src/api/services/ProductService.example.ts:62 | the search is sent exactly when it is non-empty |
| ProductQuery.ActiveValue | src/api/services/ProductService.example.ts:64 | `is_active` is sent whenever it is given, `false` included |
| ProductQuery.Append | src/api/services/ProductService.example.ts:60 | after an append at most one pair is present: the appended name looks up the value, if any, and every other name looks up nothing |
| ProductQuery.LookupAppend | src/api/services/ProductService.example.ts:58-66 | a name present in the earlier parameters keeps its value after more are appended; otherwise the appended ones decide |
| ProductQuery.LookupAfter | src/api/services/ProductService.example.ts:60 | one append changes only the lookup of its own name, and only when that name was not already present |
| ProductQuery.Params | src/api/services/ProductService.example.ts:58-66 | at most seven parameters, and none exactly when every filter is absent or falsy (`is_active` only when absent) |
| ProductQuery.ParamLookup | src/api/services/ProductService.example.ts:58-66 | each parameter name carries exactly the value selected for it, and unknown names carry none |
| ProductQuery.ParamsInOrder | src/api/services/ProductService.example.ts:60-66 | page, limit, search, category_id, is_active, price_min, price_max, in that order, each at most once |
| ProductQuery.Query | src/api/services/ProductService.example.ts:68 | the query text is empty exactly when there are no parameters |
| ProductQuery.ProductsEndpoint | src/api/services/ProductService.example.ts:68-69 | exactly `/products` when no parameter is sent, otherwise `/products?` followed by the query |
| ProductQuery.NoFiltersNoQuery | src/api/services/ProductService.example.ts:68-69 | no filters, or only omitted ones, give `/products` |
| ProductQuery.ByCategory | src/api/services/ProductService.example.ts:130-132 | the category argument replaces the filters' own, and nothing else changes |
| ProductQuery.BySearch | src/api/services/ProductService.example.ts:137-139 | the search argument replaces the filters' own, and nothing else changes |
| ProductQuery.CategoryOverrides | src/api/services/ProductService.example.ts:130-132 | the category sent is the argument's (none for 0), and every other parameter is the filters' own |
| ProductQuery.SearchOverrides | src/api/services/ProductService.example.ts:137-139 | the search sent is the argument's (none when empty), and every other parameter is the filters' own |
| ProductQuery.ProductPath | src/api/services/ProductService.example.ts:77-79 | `/products/` followed by the id's decimal text |
| ProductQuery.StatusPath | src/api/services/ProductService.example.ts:105-109 | the product's endpoint followed by `/status` |
| ProductQuery.ProductPathsDistinct | src/api/services/ProductService.example.ts:105-109 | different ids give different endpoints, and a status endpoint is never a product endpoint |
| ProductQuery.GetProducts | src/api/services/ProductService.example.ts:57-72 | an authenticated bodiless `GET` of the endpoint built from the filters |
| ProductQuery.GetProductById | src/api/services/ProductService.example.ts:77-79 | an authenticated bodiless `GET` of `/products/<id>` |
| ProductQuery.CreateProduct | src/api/services/ProductService.example.ts:84-86 | an authenticated `POST` to `/products` whose body is the data given |
| ProductQuery.UpdateProduct | src/api/services/ProductService.example.ts:91-93 | an authenticated `PUT` to `/products/<id>` whose body is the data given |
| ProductQuery.DeleteProduct | src/api/services/ProductService.example.ts:98-100 | an authenticated bodiless `DELETE` of `/products/<id>` |
| ProductQuery.ToggleProductStatus | src/api/services/ProductService.example.ts:105-109 | an authenticated `PATCH` to `/products/<id>/status` whose body is `is_active` set to the flag |
| ProductQuery.GetFeaturedProducts | src/api/services/ProductService.example.ts:144-146 | an authenticated bodiless `GET` of `/products/featured` |
| ProductQuery.BulkUpdateProducts | src/api/services/ProductService.example.ts:151-153 | an authenticated `POST` to `/products/bulk-update` whose body is the updates given |
| ProductQuery.CallVerbs | src/api/services/ProductService.example.ts:77-153 | reads (list, by id, featured) are `GET`, update `PUT`, creation and bulk update `POST`, deletion a bodiless `DELETE`, the status toggle `PATCH`; every product call goes through token injection with default headers and no cookies |
| Products.AppendNumber | src/api/services/ProductService.example.ts:60-61 | the list grows by exactly the pair `ProductQuery.Append` gives for the value `ProductQuery.NumberValue` selects: present and non-zero, as decimal text |
| Products.AppendSearch | src/api/services/ProductService.example.ts:62 | the list grows by exactly the pair `ProductQuery.Append` gives for the value `ProductQuery.SearchValue` selects: a non-empty search |
| Products.AppendActive | src/api/services/ProductService.example.ts:64 | the list grows by exactly the pair `ProductQuery.Append` gives for the value `ProductQuery.ActiveValue` selects: any given flag, `false` included |
| Products.BuildParams | src/api/services/ProductService.example.ts:58-66 | the parameters appended one by one are exactly `ProductQuery.Params`, so they have the selection of `ProductQuery.ParamLookup` and the order of `ProductQuery.ParamsInOrder` |
| Products.GetProducts | src/api/services/ProductService.example.ts:57-72 | state and result are those of an authenticated `GET` of the endpoint built from the filters |

## Left out

- Logging (`console`) is not modelled. It has no effect on state or results.
- `window.location` is not modelled: reading the path and assigning the
  redirect. Only the path test is modelled (`SessionModel.RedirectTarget`),
  with the current path as a parameter.
- React is not modelled. The model has no `useState`/`useEffect`, no
  rendering, no provider render gate and no `useAuth`. The mount effect that
  runs initialisation becomes a call the caller makes. State updates take
  effect at once, as if each `set…` were applied in order.
- Promises and the event loop are not modelled. A refresh is a trigger
  (`Begin`) and a settlement (`Settle`). Concurrent callers joining one
  pending refresh appear only in `TransportModel.SingleFlight`. Every
  operation that refreshes runs the settlement itself before it continues, so
  a second request cannot run while a first one is suspended.
- The start-up logout after a failed refresh is fire-and-forget in the
  source. The model runs it to completion before loading ends. It never
  fails, so only its timing differs.
- `fetch`, `atob`, `JSON.parse` and `URLSearchParams` escaping are oracles,
  not implementations. Response bodies keep only their string-valued members.
- `JSON.stringify` of bodies is not modelled. A body is a list of members
  whose values are already rendered.
- `post`/`put`/`patch` send a body when `data` is truthy. The model
  distinguishes only absent data from a payload object. Falsy payloads (`0`,
  `""`, `false`) are not modelled.
- Other `RequestInit` members are not modelled; `method`, `body` and
  `credentials` are.
- Header names are compared exactly, without case folding.
- `Tokens.GetTokenExpiration` gives milliseconds where the source gives a
  `Date` holding those milliseconds.
- The clock is read once per operation. Two `Date.now()` readings inside one
  operation are taken to agree.
- Token claims that are not numbers where numbers are expected are absent.
  `validateToken` tests `typeof … === 'number'`, so this is exact for it.
  Non-integer numbers are not modelled.
- Prices and other numeric filters are integers; floating-point prices are
  not modelled. So is the exponent form `toString` uses from 1e21 on.
- `uploadProductImage` is not modelled. It sends `FormData`, which only a
  browser can encode.
- `useProfile`'s fallback message `Failed to fetch profile` is not modelled.
  Every error in the layer is an `Error` with a message, so the fallback
  cannot be reached.
- `getCurrentUserFromToken`, `isTokenExpired` and `getTimeUntilExpiration` of
  `AuthService` are not modelled on their own. They are one-line delegations
  to the token store, whose functions are modelled.
- AuthContextModel.InitializeAuthState: status true does not imply that a
  user is held. A `/me` reply with a JSON `null` body leaves the user null
  (src/hooks/useProfile.ts:28-29) while the status still becomes true.
- AuthContextModel.Login: a successful login does not imply that a user is
  held, for the same reason.
- `UserService.getProfile` is modelled as its one request, `GET /me`. Its
  file is not part of this model.
- TransportModel.Recover: its own contract states only what it preserves. What
  the 401 path does is stated by these lemmas:
  `TransportModel.UnauthorizedRetriedOnce`,
  `TransportModel.FailedRecoveryNotifiesTwice`,
  `TransportModel.FailedRefreshesNotifyThrice` and
  `TransportModel.RecoverExtends`.
- TransportModel.Request: its own contract states the `skipAuth` case and
  what it preserves. The authenticated behaviour is stated by
  `TransportModel.RequestBounds`, `TransportModel.FreshTokenUsedAsIs`,
  `TransportModel.StaleTokenRefreshedFirst`,
  `TransportModel.UnauthorizedRetriedOnce` and
  `TransportModel.OtherFailuresNotRetried`.
