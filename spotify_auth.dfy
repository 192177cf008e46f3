/**
 * The Spotify side of the OAuth 2.0 authorization-code flow (RFC 6749):
 * the authorization URL of section 4.1.1, the token request of section 4.1.3,
 * the refresh request of section 6, client authentication with HTTP Basic
 * credentials (section 2.3.1), and the reading of the token endpoint's reply.
 * The token endpoint itself is a parameter: a function from the request sent
 * to the reply received.
 */
module SpotifyAuth {
  import opened Wrappers
  import opened JsString
  import opened Config
  import opened Http

  const AUTHORIZE_URL: String := "https://accounts.spotify.com/authorize"
  const TOKEN_URL: String := "https://accounts.spotify.com/api/token"
  const FORM_CONTENT_TYPE: String := "application/x-www-form-urlencoded"

  const SCOPES: seq<String> := [
    "playlist-read-private",
    "playlist-modify-private",
    "playlist-modify-public",
    "user-read-recently-played",
    "user-read-private"
  ]

  /**
   * The configured redirect URI with one trailing '/' removed (`replace(/\/$/, '')`);
   * an unset value becomes ''. The same text goes into the authorization URL and the
   * token request, as section 4.1.3 of RFC 6749 requires.
   */
  function NormalizeRedirectUri(configured: Option<String>): (r: String)
    ensures configured.None? ==> r == ""
    ensures configured.Some? ==> StartsWith(configured.value, r) && |configured.value| - 1 <= |r|
    ensures configured.Some? && configured.value != [] && configured.value[|configured.value| - 1] == '/'
      ==> r + "/" == configured.value
    ensures configured.Some? && (configured.value == [] || configured.value[|configured.value| - 1] != '/')
      ==> r == configured.value
  {
    var v := OrEmpty(configured);
    if v != [] && v[|v| - 1] == '/' then v[..|v| - 1] else v
  }

  /**
   * `getSpotifyAuthUrl`: URLSearchParams renders an unset client id as the text "undefined".
   */
  function AuthorizeUrl(env: Env, state: String): (u: Url)
    ensures u.base == AUTHORIZE_URL
    ensures |u.query| == 5
    ensures Lookup(u.query, "client_id") == Some(if env.spotifyClientId.Some? then env.spotifyClientId.value else "undefined")
    ensures Lookup(u.query, "response_type") == Some("code")
    ensures Lookup(u.query, "redirect_uri") == Some(NormalizeRedirectUri(env.spotifyRedirectUri))
    ensures Lookup(u.query, "scope") == Some(Join(SCOPES, " "))
    ensures Lookup(u.query, "state") == Some(state)
  {
    var clientId := Param("client_id", if env.spotifyClientId.Some? then env.spotifyClientId.value else "undefined");
    var responseType := Param("response_type", "code");
    var redirectUri := Param("redirect_uri", NormalizeRedirectUri(env.spotifyRedirectUri));
    var scope := Param("scope", Join(SCOPES, " "));
    var stateParam := Param("state", state);
    LookupOfFive(clientId, responseType, redirectUri, scope, stateParam);
    var q := [clientId, responseType, redirectUri, scope, stateParam];
    Url(AUTHORIZE_URL, q)
  }

  /** A POST to the token endpoint: the Basic credentials before base64 encoding and the form body. */
  datatype TokenRequest = TokenRequest(url: String, contentType: String, basicCredentials: String, form: seq<Param>)

  /** "clientId:clientSecret", each part '' when unset. */
  function BasicCredentials(env: Env): String {
    OrEmpty(env.spotifyClientId) + ":" + OrEmpty(env.spotifyClientSecret)
  }

  /** A client id without ':' can be read back from the credentials, and so can the secret. */
  lemma BasicCredentialsSplit(env: Env)
    requires ':' !in OrEmpty(env.spotifyClientId)
    ensures var c := BasicCredentials(env);
      var id := TakeUntil(c, ':');
      id == OrEmpty(env.spotifyClientId) && c[|id| + 1..] == OrEmpty(env.spotifyClientSecret)
  {
    var id := OrEmpty(env.spotifyClientId);
    var c := BasicCredentials(env);
    assert c[..|id|] == id && c[|id|] == ':';
    assert IndexOf(c, ':') == Some(|id|);
    assert c[|id| + 1..] == OrEmpty(env.spotifyClientSecret);
  }

  /**
   * `exchangeCodeForTokens` posts the code together with the redirect URI; its last
   * ensures and `AuthorizeUrl`'s say the two requests carry the same redirect URI.
   */
  function ExchangeRequest(env: Env, code: String): (r: TokenRequest)
    ensures r.url == TOKEN_URL && r.contentType == FORM_CONTENT_TYPE
    ensures r.basicCredentials == BasicCredentials(env)
    ensures r.form == [
      Param("grant_type", "authorization_code"),
      Param("code", code),
      Param("redirect_uri", NormalizeRedirectUri(env.spotifyRedirectUri))]
    ensures Lookup(r.form, "redirect_uri") == Some(NormalizeRedirectUri(env.spotifyRedirectUri))
  {
    var form := [
      Param("grant_type", "authorization_code"),
      Param("code", code),
      Param("redirect_uri", NormalizeRedirectUri(env.spotifyRedirectUri))];
    LookupAt(form, 2, "redirect_uri");
    TokenRequest(TOKEN_URL, FORM_CONTENT_TYPE, BasicCredentials(env), form)
  }

  function RefreshRequest(env: Env, refreshToken: String): (r: TokenRequest)
    ensures r.url == TOKEN_URL && r.contentType == FORM_CONTENT_TYPE
    ensures r.basicCredentials == BasicCredentials(env)
    ensures r.form == [Param("grant_type", "refresh_token"), Param("refresh_token", refreshToken)]
  {
    TokenRequest(TOKEN_URL, FORM_CONTENT_TYPE, BasicCredentials(env), [
      Param("grant_type", "refresh_token"),
      Param("refresh_token", refreshToken)])
  }

  /** The JSON fields `access_token`, `refresh_token` and `expires_in` of a token reply. */
  datatype TokenPayload = TokenPayload(access_token: String, refresh_token: String, expires_in: int)

  /** What fetch yields: a rejected promise (no reply) or a reply with its status, text and JSON body. */
  datatype TokenReply =
    | TokenUnreachable
    | TokenReply(status: int, text: String, payload: TokenPayload)

  datatype TokenError = NetworkFailure | Rejected(status: int, text: String)

  datatype Tokens = Tokens(accessToken: String, refreshToken: String, expiresIn: int)

  datatype RefreshedToken = RefreshedToken(accessToken: String, expiresIn: int)

  /** `exchangeCodeForTokens`: a non-2xx reply throws; a 2xx reply is copied field for field. */
  function ExchangeCodeForTokens(env: Env, code: String, endpoint: TokenRequest -> TokenReply): (r: Result<Tokens, TokenError>)
    ensures var reply := endpoint(ExchangeRequest(env, code));
      && (r.Ok? <==> reply.TokenReply? && IsOk(reply.status))
      && (r.Ok? ==> r.value == Tokens(reply.payload.access_token, reply.payload.refresh_token, reply.payload.expires_in))
      && (r.Err? && reply.TokenReply? ==> r.error == Rejected(reply.status, reply.text))
  {
    match endpoint(ExchangeRequest(env, code))
    case TokenUnreachable => Err(NetworkFailure)
    case TokenReply(status, text, payload) =>
      if !IsOk(status) then Err(Rejected(status, text))
      else Ok(Tokens(payload.access_token, payload.refresh_token, payload.expires_in))
  }

  /** `refreshAccessToken`: as the exchange, but the result carries no refresh token. */
  function RefreshAccessToken(env: Env, refreshToken: String, endpoint: TokenRequest -> TokenReply): (r: Result<RefreshedToken, TokenError>)
    ensures var reply := endpoint(RefreshRequest(env, refreshToken));
      && (r.Ok? <==> reply.TokenReply? && IsOk(reply.status))
      && (r.Ok? ==> r.value == RefreshedToken(reply.payload.access_token, reply.payload.expires_in))
      && (r.Err? && reply.TokenReply? ==> r.error == Rejected(reply.status, reply.text))
  {
    match endpoint(RefreshRequest(env, refreshToken))
    case TokenUnreachable => Err(NetworkFailure)
    case TokenReply(status, text, payload) =>
      if !IsOk(status) then Err(Rejected(status, text))
      else Ok(RefreshedToken(payload.access_token, payload.expires_in))
  }
}
