/** The OAuth2 client-credentials token cache. The clock is an integer count
    of seconds and the token endpoint is an oracle: a function from the
    request sent to the reply received. */
module OAuth {
  import opened Wrappers
  import opened Errors

  /** A cached session: the access token, the refresh token if the server
      issued one, and the instant (in seconds) the access token expires. */
  datatype TokenSession = TokenSession(accessToken: string, refreshToken: Option<string>, expiresAt: int)

  /** Seconds before `expiresAt` from which a session counts as expired. */
  const ExpiryMargin: int := 30

  /** Lifetime assumed when the token response carries no `expires_in`. */
  const DefaultLifetime: nat := 3600

  /** `OAuthTokenSession::is_expired`: expired from 30 seconds before its
      expiry instant on. */
  function IsExpired(s: TokenSession, now: int): (b: bool)
    ensures b <==> s.expiresAt - now <= ExpiryMargin
  {
    now >= s.expiresAt - ExpiryMargin
  }

  /** Expiry is permanent as the clock advances, and the margin is exact: a
      session is still valid one second before `expiresAt - 30` and expired
      from that instant on. */
  lemma ExpiryIsMonotone(s: TokenSession, now: int, later: int)
    requires now <= later
    ensures IsExpired(s, now) ==> IsExpired(s, later)
    ensures !IsExpired(s, s.expiresAt - ExpiryMargin - 1)
    ensures IsExpired(s, s.expiresAt - ExpiryMargin)
  {
  }

  /** What the token endpoint is asked for. */
  datatype TokenRequest =
    | ClientCredentials(scopes: seq<string>)
    | RefreshGrant(refreshToken: string)

  /** A successful token response; `expiresIn` is in seconds. */
  datatype TokenResponse = TokenResponse(accessToken: string, refreshToken: Option<string>, expiresIn: Option<nat>)

  /** The token endpoint, seen from the client: a reply or the text of the
      oauth2 crate's error. */
  type TokenEndpoint = TokenRequest -> Result<TokenResponse, string>

  /** `OAuth2Config`. */
  datatype OAuth2Config = OAuth2Config(clientId: string, clientSecret: string, tokenUrl: string, scopes: seq<string>)

  /** The builder default for `scopes`. */
  const DefaultScopes: seq<string> := ["management-api:read", "management-api:write"]

  /** `OAuth2Config::builder()` with only the mandatory fields set. */
  function ConfigWithDefaultScopes(clientId: string, clientSecret: string, tokenUrl: string): (c: OAuth2Config)
    ensures c.clientId == clientId && c.clientSecret == clientSecret && c.tokenUrl == tokenUrl
    ensures c.scopes == ["management-api:read", "management-api:write"]
  {
    OAuth2Config(clientId, clientSecret, tokenUrl, DefaultScopes)
  }

  /** `OAuth2Internal`: the requested scopes and the cached session. */
  datatype OAuth2Client = OAuth2Client(scopes: seq<string>, session: Option<TokenSession>)

  /** `OAuth2::init`: no session yet. */
  function Init(cfg: OAuth2Config): (c: OAuth2Client)
    ensures c.scopes == cfg.scopes && c.session == None
  {
    OAuth2Client(cfg.scopes, None)
  }

  /** The expiry instant of a session whose exchange completed at `done`. */
  function ExpiresAt(resp: TokenResponse, done: int): (t: int)
    ensures resp.expiresIn.Some? ==> t == done + resp.expiresIn.value
    ensures resp.expiresIn.None? ==> t == done + 3600
  {
    done + resp.expiresIn.GetOr(DefaultLifetime)
  }

  /** `new_session`: a client-credentials exchange for the configured scopes;
      the clock is read at `done`, once the exchange has completed. */
  function NewSession(scopes: seq<string>, done: int, endpoint: TokenEndpoint): (r: Result<TokenSession, Error>)
    ensures endpoint(ClientCredentials(scopes)).Err? ==> r == Err(Auth(endpoint(ClientCredentials(scopes)).error))
    ensures endpoint(ClientCredentials(scopes)).Ok? ==>
      var resp := endpoint(ClientCredentials(scopes)).value;
      r == Ok(TokenSession(resp.accessToken, resp.refreshToken, ExpiresAt(resp, done)))
  {
    match endpoint(ClientCredentials(scopes))
    case Err(e) => Err(Auth(e))
    case Ok(resp) => Ok(TokenSession(resp.accessToken, resp.refreshToken, ExpiresAt(resp, done)))
  }

  /** `refresh_session`: a refresh-token exchange that keeps the old refresh
      token when the reply omits one; without a refresh token, a fresh
      client-credentials session instead. The clock is read at `done`, once
      the exchange has completed. */
  function RefreshSession(scopes: seq<string>, s: TokenSession, done: int, endpoint: TokenEndpoint): (r: Result<TokenSession, Error>)
    ensures s.refreshToken.None? ==> r == NewSession(scopes, done, endpoint)
    ensures s.refreshToken.Some? && endpoint(RefreshGrant(s.refreshToken.value)).Err? ==>
      r == Err(Auth(endpoint(RefreshGrant(s.refreshToken.value)).error))
    ensures s.refreshToken.Some? && endpoint(RefreshGrant(s.refreshToken.value)).Ok? ==>
      var resp := endpoint(RefreshGrant(s.refreshToken.value)).value;
      && r.Ok?
      && r.value.accessToken == resp.accessToken
      && r.value.expiresAt == ExpiresAt(resp, done)
      && r.value.refreshToken == (if resp.refreshToken.Some? then resp.refreshToken else s.refreshToken)
  {
    match s.refreshToken
    case None => NewSession(scopes, done, endpoint)
    case Some(refresh) =>
      match endpoint(RefreshGrant(refresh))
      case Err(e) => Err(Auth(e))
      case Ok(resp) =>
        Ok(TokenSession(resp.accessToken, resp.refreshToken.OrElse(Some(refresh)), ExpiresAt(resp, done)))
  }

  /** `OAuth2Internal::token`: the cached access token while it is valid;
      otherwise a refreshed or new session, which replaces the cached one
      only when it was obtained. The cache is checked at `now`; a session
      obtained here is stamped at `done`, the instant its exchange completed. */
  function Token(c: OAuth2Client, now: int, done: int, endpoint: TokenEndpoint): (r: (OAuth2Client, Result<string, Error>))
    ensures r.0.scopes == c.scopes
    ensures c.session.Some? && !IsExpired(c.session.value, now) ==>
      r == (c, Ok(c.session.value.accessToken))
    ensures r.1.Err? ==> r.0 == c
    ensures r.1.Ok? ==> r.0.session.Some? && r.1.value == r.0.session.value.accessToken
    ensures c.session.None? ==>
      match NewSession(c.scopes, done, endpoint)
      case Ok(s) => r == (OAuth2Client(c.scopes, Some(s)), Ok(s.accessToken))
      case Err(e) => r == (c, Err(e))
    ensures c.session.Some? && IsExpired(c.session.value, now) ==>
      match RefreshSession(c.scopes, c.session.value, done, endpoint)
      case Ok(s) => r == (OAuth2Client(c.scopes, Some(s)), Ok(s.accessToken))
      case Err(e) => r == (c, Err(e))
  {
    match c.session
    case Some(t) =>
      if !IsExpired(t, now) then
        (c, Ok(t.accessToken))
      else (
        match RefreshSession(c.scopes, t, done, endpoint)
        case Ok(s) => (c.(session := Some(s)), Ok(s.accessToken))
        case Err(e) => (c, Err(e)))
    case None =>
      match NewSession(c.scopes, done, endpoint)
      case Ok(s) => (c.(session := Some(s)), Ok(s.accessToken))
      case Err(e) => (c, Err(e))
  }

  /** A token handed out by a call stays cached, without further requests to
      the endpoint, until 30 seconds before its lifetime ends: any later call
      at `later` before that point returns the same token and leaves the cache
      as it was, whatever its own exchange would have taken. */
  lemma CachedUntilMargin(c: OAuth2Client, now: int, done: int, later: int, laterDone: int,
                          endpoint: TokenEndpoint, other: TokenEndpoint)
    requires Token(c, now, done, endpoint).1.Ok?
    requires now <= done <= later <= laterDone
    requires later < Token(c, now, done, endpoint).0.session.value.expiresAt - ExpiryMargin
    ensures Token(Token(c, now, done, endpoint).0, later, laterDone, other) ==
      (Token(c, now, done, endpoint).0, Ok(Token(c, now, done, endpoint).1.value))
  {
  }

  /** A freshly obtained session is usable the moment its exchange completes
      exactly when its lifetime exceeds the 30-second margin. */
  lemma FreshSessionValidIff(scopes: seq<string>, done: int, endpoint: TokenEndpoint)
    requires NewSession(scopes, done, endpoint).Ok?
    ensures !IsExpired(NewSession(scopes, done, endpoint).value, done) <==>
      endpoint(ClientCredentials(scopes)).value.expiresIn.GetOr(DefaultLifetime) > ExpiryMargin
  {
  }

  /** A refresh never loses the ability to refresh: if the old session had a
      refresh token, the new one has one too. */
  lemma RefreshKeepsRefreshToken(c: OAuth2Client, now: int, done: int, endpoint: TokenEndpoint)
    requires c.session.Some? && c.session.value.refreshToken.Some?
    requires Token(c, now, done, endpoint).1.Ok?
    ensures Token(c, now, done, endpoint).0.session.value.refreshToken.Some?
  {
  }

  /** A failed refresh does not fall back to client credentials: with a
      refresh token in hand only the refresh grant is sent, and its failure is
      reported as is. */
  lemma RefreshFailureIsFinal(c: OAuth2Client, now: int, done: int, endpoint: TokenEndpoint)
    requires c.session.Some? && IsExpired(c.session.value, now)
    requires c.session.value.refreshToken.Some?
    requires endpoint(RefreshGrant(c.session.value.refreshToken.value)).Err?
    ensures Token(c, now, done, endpoint) == (c, Err(Auth(endpoint(RefreshGrant(c.session.value.refreshToken.value)).error)))
  {
  }
}
