/** The in-memory access-token store of src/auth/TokenManager.ts and the facts
    it derives from a token: its claims, whether it is expired, the seconds
    left and the `Bearer` header value. The clock (`Date.now()`) is the
    parameter `nowMs`, milliseconds since the epoch; decoding a payload
    segment (`atob` followed by `JSON.parse`) is the oracle `decode`, whose
    `None` stands for either of them throwing. */
module Tokens {
  import opened Base

  /** The JSON payload of a token (`TokenPayload`). A member that is missing,
      or is not a number where a number is expected, is `None`. */
  datatype Claims = Claims(
    userId: Option<int>,
    username: Option<string>,
    email: Option<string>,
    exp: Option<int>,
    iat: Option<int>,
    jti: Option<string>)

  /** `JSON.parse(atob(segment))`; `None` when either throws. */
  type PayloadDecoder = string -> Option<Claims>

  /** Seconds subtracted from `exp` to allow for clock skew between client and server. */
  const SkewSeconds: int := 30

  /** `token.split('.')[1]`, when that element exists. */
  function PayloadSegment(token: string): (seg: Option<string>)
    ensures seg.Some? <==> '.' in token
  {
    var parts := Split(token, '.');
    SplitCount(token, '.');
    CountPositive(token, '.');
    if |parts| >= 2 then Some(parts[1]) else None
  }

  lemma {:induction false} CountPositive(s: string, c: char)
    ensures Count(s, c) > 0 <==> c in s
    decreases |s|
  {
    if |s| > 0 {
      CountPositive(s[1..], c);
      assert c in s <==> s[0] == c || c in s[1..];
    }
  }

  /** `decodeToken`: `None` (never an exception) when there is no `.`, when
      the second segment is empty, or when it does not decode; otherwise the
      decoded claims of the second segment. */
  function DecodeToken(decode: PayloadDecoder, token: string): (r: Option<Claims>)
    ensures '.' !in token ==> r == None
    ensures r.Some? ==> exists seg :: PayloadSegment(token) == Some(seg) && seg != "" && decode(seg) == r
  {
    match PayloadSegment(token)
    case None => None
    case Some(seg) => if seg == "" then None else decode(seg)
  }

  /** The usual three-segment shape `header.payload.signature` decodes its
      middle segment; so does `header.payload` with no signature, and so does
      a token with more than three segments: only the second is looked at. */
  lemma DecodeSecondSegment(decode: PayloadDecoder, header: string, payload: string, rest: string)
    requires '.' !in header && '.' !in payload && payload != ""
    ensures DecodeToken(decode, header + "." + payload) == decode(payload)
    ensures DecodeToken(decode, header + "." + payload + "." + rest) == decode(payload)
  {
    assert header + "." + payload == header + ['.'] + payload;
    SplitAtFirst(header, '.', payload);
    SplitNoSeparator(payload, '.');
    var t := header + "." + payload + "." + rest;
    assert t == header + ['.'] + (payload + ['.'] + rest);
    SplitAtFirst(header, '.', payload + ['.'] + rest);
    SplitAtFirst(payload, '.', rest);
  }

  /** `isTokenExpired`: a missing or empty token, one that does not decode,
      and one with a missing or zero `exp` are expired; otherwise the token
      is expired once the current second reaches `exp - 30`. */
  function IsTokenExpired(decode: PayloadDecoder, token: Option<string>, nowMs: int): (expired: bool)
    ensures !Truthy(token) ==> expired
    ensures Truthy(token) && DecodeToken(decode, token.value) == None ==> expired
    ensures Truthy(token) && DecodeToken(decode, token.value).Some? ==>
      var exp := DecodeToken(decode, token.value).value.exp;
      (exp == None || exp == Some(0) ==> expired) &&
      (exp.Some? && exp.value != 0 ==> (expired <==> nowMs / 1000 >= exp.value - SkewSeconds))
  {
    if !Truthy(token) then true
    else
      match DecodeToken(decode, token.value)
      case None => true
      case Some(claims) =>
        if claims.exp == None || claims.exp == Some(0) then true
        else
          var currentTime := nowMs / 1000;  // Math.floor(Date.now() / 1000)
          currentTime >= claims.exp.value - SkewSeconds
  }

  /** The claims of a token that `isTokenExpired` compares against the clock. */
  predicate HasExpiry(decode: PayloadDecoder, token: Option<string>, exp: int) {
    Truthy(token) && DecodeToken(decode, token.value).Some? &&
    DecodeToken(decode, token.value).value.exp == Some(exp) && exp != 0
  }

  /** The skew buffer, without division: a token with expiry `exp` counts as
      expired exactly from millisecond `(exp - 30) * 1000` on. */
  lemma ExpiredFromMillisecond(decode: PayloadDecoder, token: Option<string>, exp: int, nowMs: int)
    requires HasExpiry(decode, token, exp)
    ensures IsTokenExpired(decode, token, nowMs) <==> nowMs >= (exp - SkewSeconds) * 1000
  {
    FloorDivAtLeast(nowMs, exp - SkewSeconds);
  }

  lemma FloorDivAtLeast(n: int, k: int)
    ensures n / 1000 >= k <==> n >= k * 1000
  {
    var q, r := n / 1000, n % 1000;
    assert n == q * 1000 + r && 0 <= r < 1000;
    if q >= k {
      assert q * 1000 >= k * 1000;
    } else {
      assert q <= k - 1;
      assert q * 1000 <= k * 1000 - 1000;
    }
  }

  /** `isAuthenticated` on the stored token: stored, non-null and not expired. */
  function IsAuthenticated(decode: PayloadDecoder, stored: Option<string>, nowMs: int): (auth: bool)
    ensures auth <==> stored.Some? && !IsTokenExpired(decode, stored, nowMs)
    ensures auth ==> Truthy(stored)
  {
    stored != None && !IsTokenExpired(decode, stored, nowMs)
  }

  /** `getUserFromToken(token)`: the argument if it is a non-empty string,
      else the stored token; `None` when neither is there. */
  function GetUserFromToken(decode: PayloadDecoder, token: Option<string>, stored: Option<string>): (r: Option<Claims>)
    ensures !Truthy(token) && !Truthy(stored) ==> r == None
    ensures Truthy(token) ==> r == DecodeToken(decode, token.value)
    ensures !Truthy(token) && Truthy(stored) ==> r == DecodeToken(decode, stored.value)
  {
    var tokenToUse := Or(token, stored);
    if !Truthy(tokenToUse) then None else DecodeToken(decode, tokenToUse.value)
  }

  /** `getTokenExpiration(token)`: the expiry in milliseconds, `None` when
      there is no token, no claims, or a missing or zero `exp`. */
  function GetTokenExpiration(decode: PayloadDecoder, token: Option<string>, stored: Option<string>): (ms: Option<int>)
    ensures ms.Some? <==> exists exp :: HasExpiry(decode, Or(token, stored), exp)
    ensures forall exp :: HasExpiry(decode, Or(token, stored), exp) ==> ms == Some(exp * 1000)
  {
    var tokenToUse := Or(token, stored);
    if !Truthy(tokenToUse) then None
    else match DecodeToken(decode, tokenToUse.value)
      case None => None
      case Some(claims) =>
        if claims.exp == None || claims.exp == Some(0) then None
        else
          assert HasExpiry(decode, tokenToUse, claims.exp.value);
          Some(claims.exp.value * 1000)
  }

  /** `getTimeUntilExpiration(token)`: whole seconds left, never negative,
      and 0 when there is no expiry to go by. */
  function GetTimeUntilExpiration(decode: PayloadDecoder, token: Option<string>, stored: Option<string>, nowMs: int): (seconds: nat)
    ensures GetTokenExpiration(decode, token, stored) == None ==> seconds == 0
    ensures forall exp :: HasExpiry(decode, Or(token, stored), exp) ==>
      seconds == if exp * 1000 - nowMs < 0 then 0 else (exp * 1000 - nowMs) / 1000
  {
    match GetTokenExpiration(decode, token, stored)
    case None => 0
    case Some(expirationMs) =>
      var remaining := (expirationMs - nowMs) / 1000;  // Math.floor(... / 1000)
      if remaining < 0 then 0 else remaining
  }

  /** A token that is not expired has more than the skew buffer left, and a
      token with more than the buffer left (in whole seconds) is not expired. */
  lemma RemainingAgreesWithExpiry(decode: PayloadDecoder, token: Option<string>, nowMs: int)
    requires Truthy(token)
    ensures !IsTokenExpired(decode, token, nowMs) ==> GetTimeUntilExpiration(decode, token, None, nowMs) >= SkewSeconds
    ensures GetTimeUntilExpiration(decode, token, None, nowMs) > SkewSeconds ==> !IsTokenExpired(decode, token, nowMs)
  {
    assert Or(token, None) == token;
    if exp :| HasExpiry(decode, token, exp) {
      ExpiredFromMillisecond(decode, token, exp, nowMs);
      var d := exp * 1000 - nowMs;
      FloorDivAtLeast(d, SkewSeconds);
      FloorDivAtLeast(d, SkewSeconds + 1);
    } else {
      assert GetTokenExpiration(decode, token, None) == None;
    }
  }

  /** `formatAuthorizationHeader(token)`: `"Bearer "` followed by the
      argument if it is non-empty, else by the stored token; an error when
      neither is there. */
  function FormatAuthorizationHeader(token: Option<string>, stored: Option<string>): (r: Result<string, string>)
    ensures r.Err? <==> !Truthy(token) && !Truthy(stored)
    ensures r.Err? ==> r.error == NoTokenMessage
    ensures r.Ok? ==> StartsWith(r.value, Bearer) && r.value[|Bearer|..] == Or(token, stored).value
  {
    var tokenToUse := Or(token, stored);
    if !Truthy(tokenToUse) then Err(NoTokenMessage) else Ok(Bearer + tokenToUse.value)
  }

  const Bearer: string := "Bearer "
  const NoTokenMessage: string := "No token available"

  /** The holder of the one access token. No other state is kept: the
      refresh token lives in an HTTP-only cookie this layer never sees. */
  class TokenManager {
    var accessToken: Option<string>
    const decode: PayloadDecoder

    constructor (decode: PayloadDecoder)
      ensures accessToken == None && this.decode == decode
    {
      accessToken := None;
      this.decode := decode;
    }

    function GetAccessToken(): (t: Option<string>)
      reads this
      ensures t == accessToken
    {
      accessToken
    }

    /** `setAccessToken`; `None` is what a response without `access_token` passes. */
    method SetAccessToken(token: Option<string>)
      modifies this
      ensures GetAccessToken() == token
    {
      accessToken := token;
    }

    method ClearAccessToken()
      modifies this
      ensures GetAccessToken() == None
    {
      accessToken := None;
    }

    method ClearAllTokens()
      modifies this
      ensures GetAccessToken() == None
    {
      ClearAccessToken();
    }

    /** `isCurrentTokenExpired`: the expiry test on the stored token. */
    function IsCurrentTokenExpired(nowMs: int): (expired: bool)
      reads this
      ensures expired == IsTokenExpired(decode, accessToken, nowMs)
      ensures !Truthy(accessToken) ==> expired
    {
      IsTokenExpired(decode, accessToken, nowMs)
    }

    /** `getCurrentUser`: the claims of the stored token, none without one. */
    function GetCurrentUser(): (u: Option<Claims>)
      reads this
      ensures !Truthy(accessToken) ==> u == None
      ensures Truthy(accessToken) ==> u == DecodeToken(decode, accessToken.value)
    {
      GetUserFromToken(decode, None, accessToken)
    }
  }
}
