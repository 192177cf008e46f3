/** `GET /auth/spotify`: starts the authorization-code flow (section 4.1.1 of RFC 6749). */
module LoginRoute {
  import opened Wrappers
  import opened JsString
  import opened Config
  import opened Http
  import opened Cookies
  import opened Session
  import opened SpotifyAuth

  const NOT_CONFIGURED: String := "Spotify and session env are not set. Copy .env.example to .env and set SPOTIFY_CLIENT_ID, SPOTIFY_CLIENT_SECRET, SPOTIFY_REDIRECT_URI, and SESSION_SECRET, then run: pnpm dev"

  /** The state cookie lives ten minutes, for the whole site, out of reach of scripts. */
  const STATE_COOKIE_OPTIONS: CookieOptions := CookieOptions("/", true, Lax, 600, None)

  predicate Configured(env: Env) {
    IsSet(env.spotifyClientId) && IsSet(env.spotifyRedirectUri) && IsSet(env.sessionSecret)
  }

  /**
   * Without the client id, redirect URI or session secret: a plain-text 503 and no cookie.
   * Otherwise the fresh state goes sealed into the state cookie and unsealed into the
   * authorization URL (section 10.12 of RFC 6749), and the browser is sent there.
   */
  method Get(jar: CookieJar, env: Env, freshState: String) returns (response: Response)
    requires IsUuid(freshState)
    modifies jar
    ensures !Configured(env) ==>
      response == Text(503, NOT_CONFIGURED, Some("text/plain")) && jar.outgoing == old(jar.outgoing)
    ensures Configured(env) ==>
      && response == Redirect(302, External(AuthorizeUrl(env, freshState)))
      && jar.outgoing == old(jar.outgoing)[STATE_COOKIE := SetTo(Seal(freshState, env.sessionSecret.value), STATE_COOKIE_OPTIONS)]
      && Unseal(jar.outgoing[STATE_COOKIE].value, env.sessionSecret.value) == Some(freshState)
  {
    if !IsSet(env.spotifyClientId) || !IsSet(env.spotifyRedirectUri) || !IsSet(env.sessionSecret) {
      return Text(503, NOT_CONFIGURED, Some("text/plain"));
    }
    var state := freshState;
    var stateValue := SealValue(state, env.sessionSecret.value);
    var authUrl := AuthorizeUrl(env, state);
    jar.Set(STATE_COOKIE, stateValue, STATE_COOKIE_OPTIONS);
    UuidIsCookieSafe(state);
    SealUnseal(state, env.sessionSecret.value);
    response := Redirect(302, External(authUrl));
  }
}
