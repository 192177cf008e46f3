/**
 * `GET /auth/spotify/callback`: the redirection endpoint of the authorization-code
 * flow (section 4.1.2 of RFC 6749). It checks, in order: the configuration, the
 * provider's `error`, the `state` against the sealed state cookie (section 10.12),
 * the `code`, the token exchange, the profile request and the user lookup; then it
 * finds or creates the user, creates a session and sets the session cookie.
 */
module CallbackRoute {
  import opened Wrappers
  import opened JsString
  import opened Json
  import opened Config
  import opened Http
  import opened Cookies
  import opened Schema
  import opened SpotifyAuth
  import opened Session

  const SPOTIFY_ME: String := "https://api.spotify.com/v1/me"

  datatype Image = Image(url: Option<String>)

  /** The fields of the Spotify profile the callback reads. */
  datatype Profile = Profile(id: Option<Json>, display_name: Option<String>, images: Option<seq<Image>>)

  /** The profile endpoint, given the access token: unreachable, or a status and the profile. */
  datatype ProfileReply = ProfileUnreachable | ProfileReply(status: int, profile: Profile)

  /** `String(me.id)`: an absent id is rendered "undefined". */
  function SpotifyIdOf(p: Profile): String {
    if p.id.None? then "undefined" else ToJsString(p.id.value)
  }

  /** `me.images?.[0]?.url ?? null`. */
  function ImageUrlOf(p: Profile): Option<String> {
    if p.images.Some? && |p.images.value| > 0 then p.images.value[0].url else None
  }

  predicate Configured(env: Env) {
    IsSet(env.databaseUrl) && IsSet(env.sessionSecret)
  }

  /** The state check: a non-empty `state` equal to the value the state cookie unseals to. */
  predicate StateVerified(env: Env, state: Option<String>, stateCookie: Option<String>)
    requires Configured(env)
  {
    && state.Some? && state.value != []
    && stateCookie.Some? && stateCookie.value != []
    && Unseal(stateCookie.value, env.sessionSecret.value) == Some(state.value)
  }

  /** Where the checks lead: a response with no store write, or a sign-in with what was learnt. */
  datatype Step =
    | Stop(response: Response, clearState: bool)
    | SignIn(tokens: Tokens, spotifyId: String, displayName: Option<String>, imageUrl: Option<String>)

  /** The callback's checks, in the order the handler makes them. */
  function Decide(env: Env, code: Option<String>, state: Option<String>, error: Option<String>,
                  stateCookie: Option<String>, exchange: TokenRequest -> TokenReply,
                  profileEndpoint: String -> ProfileReply, lookupFails: bool): (s: Step)
    ensures !Configured(env) ==> s == Stop(Text(500, "Server not configured", None), false)
    ensures Configured(env) && IsSet(error) ==> s == Stop(Redirect(302, RootWithError(error.value)), true)
    ensures Configured(env) && !IsSet(error) && !StateVerified(env, state, stateCookie) ==>
      s == Stop(Redirect(302, RootWithError("state_mismatch")), false)
    ensures Configured(env) && !IsSet(error) && StateVerified(env, state, stateCookie) && !IsSet(code) ==>
      s == Stop(Redirect(302, RootWithError("no_code")), false)
    ensures s.Stop? && s.clearState ==> Configured(env) && IsSet(error)
    ensures Configured(env) && !IsSet(error) && StateVerified(env, state, stateCookie) ==>
      s == AfterStateCheck(env, code, exchange, profileEndpoint, lookupFails)
    ensures (&& Configured(env) && !IsSet(error) && StateVerified(env, state, stateCookie) && IsSet(code)
             && ExchangeCodeForTokens(env, code.value, exchange).Ok?
             && (var reply := profileEndpoint(ExchangeCodeForTokens(env, code.value, exchange).value.accessToken);
                 reply.ProfileReply? && IsOk(reply.status))
             && !lookupFails)
      ==> s.SignIn?
    ensures s.SignIn? ==>
      && Configured(env) && !IsSet(error) && StateVerified(env, state, stateCookie) && IsSet(code)
      && ExchangeCodeForTokens(env, code.value, exchange) == Ok(s.tokens)
      && !lookupFails
      && (var reply := profileEndpoint(s.tokens.accessToken);
          && reply.ProfileReply? && IsOk(reply.status)
          && s.spotifyId == SpotifyIdOf(reply.profile)
          && s.displayName == reply.profile.display_name
          && s.imageUrl == ImageUrlOf(reply.profile))
  {
    if !Configured(env) then Stop(Text(500, "Server not configured", None), false)
    else if IsSet(error) then Stop(Redirect(302, RootWithError(error.value)), true)
    else if !StateVerified(env, state, stateCookie) then Stop(Redirect(302, RootWithError("state_mismatch")), false)
    else AfterStateCheck(env, code, exchange, profileEndpoint, lookupFails)
  }

  /** The checks after the state check: none of them answers `state_mismatch` or clears the state cookie. */
  function AfterStateCheck(env: Env, code: Option<String>, exchange: TokenRequest -> TokenReply,
                           profileEndpoint: String -> ProfileReply, lookupFails: bool): (s: Step)
    ensures s != Stop(Redirect(302, RootWithError("state_mismatch")), false)
    ensures s.Stop? ==> !s.clearState
    ensures !IsSet(code) ==> s == Stop(Redirect(302, RootWithError("no_code")), false)
    ensures IsSet(code) && ExchangeCodeForTokens(env, code.value, exchange).Err? ==>
      s == Stop(Redirect(302, RootWithError("token_exchange_failed")), false)
    ensures IsSet(code) && ExchangeCodeForTokens(env, code.value, exchange).Ok? ==>
      var tokens := ExchangeCodeForTokens(env, code.value, exchange).value;
      var reply := profileEndpoint(tokens.accessToken);
      && (reply.ProfileUnreachable? ==> s == Stop(InternalError, false))
      && (reply.ProfileReply? && !IsOk(reply.status) ==> s == Stop(Redirect(302, RootWithError("me_failed")), false))
      && (reply.ProfileReply? && IsOk(reply.status) && lookupFails ==>
            s == Stop(Redirect(302, RootWithError("db_setup")), false))
      && (reply.ProfileReply? && IsOk(reply.status) && !lookupFails ==>
            s == SignIn(tokens, SpotifyIdOf(reply.profile), reply.profile.display_name, ImageUrlOf(reply.profile)))
    ensures s.SignIn? ==>
      && IsSet(code)
      && ExchangeCodeForTokens(env, code.value, exchange) == Ok(s.tokens)
      && !lookupFails
      && (var reply := profileEndpoint(s.tokens.accessToken);
          && reply.ProfileReply? && IsOk(reply.status)
          && s.spotifyId == SpotifyIdOf(reply.profile)
          && s.displayName == reply.profile.display_name
          && s.imageUrl == ImageUrlOf(reply.profile))
  {
    if !IsSet(code) then Stop(Redirect(302, RootWithError("no_code")), false)
    else match ExchangeCodeForTokens(env, code.value, exchange)
      case Err(_) => Stop(Redirect(302, RootWithError("token_exchange_failed")), false)
      case Ok(tokens) =>
        match profileEndpoint(tokens.accessToken)
        case ProfileUnreachable => Stop(InternalError, false)
        case ProfileReply(status, profile) =>
          if !IsOk(status) then Stop(Redirect(302, RootWithError("me_failed")), false)
          else if lookupFails then Stop(Redirect(302, RootWithError("db_setup")), false)
          else SignIn(tokens, SpotifyIdOf(profile), profile.display_name, ImageUrlOf(profile))
  }

  /**
   * The state the login route put into the authorization URL, returned with the cookie
   * it set, passes the state check: the flow is only stopped by a later step.
   */
  lemma LoginStatePassesStateCheck(env: Env, freshState: String, code: Option<String>,
                                   exchange: TokenRequest -> TokenReply,
                                   profileEndpoint: String -> ProfileReply, lookupFails: bool)
    requires Configured(env) && IsUuid(freshState)
    ensures StateVerified(env, Some(freshState), Some(Seal(freshState, env.sessionSecret.value)))
    ensures Decide(env, code, Some(freshState), None, Some(Seal(freshState, env.sessionSecret.value)),
                   exchange, profileEndpoint, lookupFails)
         != Stop(Redirect(302, RootWithError("state_mismatch")), false)
  {
    UuidIsCookieSafe(freshState);
    SealUnseal(freshState, env.sessionSecret.value);
    assert Decide(env, code, Some(freshState), None, Some(Seal(freshState, env.sessionSecret.value)),
                  exchange, profileEndpoint, lookupFails)
        == AfterStateCheck(env, code, exchange, profileEndpoint, lookupFails);
  }

  /** A state cookie sealed for a different state, or under another secret, is refused. */
  lemma ForeignStateIsRefused(env: Env, state: String, other: String, otherSecret: String, code: Option<String>,
                              exchange: TokenRequest -> TokenReply,
                              profileEndpoint: String -> ProfileReply, lookupFails: bool)
    requires Configured(env) && '.' !in other && other != state
    ensures Decide(env, code, Some(state), None, Some(Seal(other, otherSecret)), exchange, profileEndpoint, lookupFails).Stop?
  {
    var cookie := Seal(other, otherSecret);
    var u := Unseal(cookie, env.sessionSecret.value);
    if u.Some? {
      assert cookie[..|other|] == other;
      assert IndexOf(cookie, '.') == Some(|other|);
    }
  }

  /** The cookie options of the session cookie; `Secure` only for an https origin. */
  function SessionCookieOptions(origin: String): CookieOptions {
    CookieOptions("/", true, Lax, SESSION_MAX_AGE, Some(StartsWith(origin, "https://")))
  }

  /**
   * The tables after the sign-in `s`: the user with the profile's Spotify id is reused,
   * or exactly one user row is inserted under the fresh id; either way the Spotify id
   * now names that user, and exactly one session row for that user is inserted under
   * the fresh session id, expiring `expires_in` seconds from `now`.
   */
  ghost predicate SignedIn(oldUsers: map<String, UserRow>, oldSessions: map<String, SessionRow>,
                           users: map<String, UserRow>, sessions: map<String, SessionRow>,
                           s: Step, freshUserId: String, freshSessionId: String, now: int)
    requires s.SignIn?
  {
    var existing := UserBySpotifyId(oldUsers, s.spotifyId);
    var userId := if existing.Some? then existing.value else freshUserId;
    && users == (if existing.Some? then oldUsers
                 else oldUsers[freshUserId := UserRow(s.spotifyId, s.displayName, s.imageUrl, now)])
    && UserBySpotifyId(users, s.spotifyId) == Some(userId)
    && sessions == oldSessions[freshSessionId :=
         SessionRow(userId, s.tokens.accessToken, s.tokens.refreshToken, now + s.tokens.expiresIn * 1000)]
  }

  /**
   * The callback handler. Every stop leaves both tables as they were; only the provider
   * error also deletes the state cookie. A sign-in reuses the user with the same Spotify
   * id or inserts exactly one user under the fresh id, inserts exactly one session under
   * the fresh session id, sets the session cookie, deletes the state cookie and redirects
   * to `/`.
   */
  method Get(db: Database, jar: CookieJar, env: Env,
             code: Option<String>, state: Option<String>, error: Option<String>, origin: String,
             exchange: TokenRequest -> TokenReply, profileEndpoint: String -> ProfileReply,
             lookupFails: bool, freshUserId: String, freshSessionId: String, now: int)
    returns (response: Response)
    requires db.Valid()
    requires IsUuid(freshUserId) && freshUserId !in db.users
    requires IsUuid(freshSessionId) && freshSessionId !in db.sessions
    modifies db, jar
    ensures db.Valid()
    ensures db.blocked == old(db.blocked) && db.nextBlockedId == old(db.nextBlockedId)
    ensures var s := Decide(env, code, state, error, jar.Get(STATE_COOKIE), exchange, profileEndpoint, lookupFails);
      s.Stop? ==>
        && response == s.response
        && db.users == old(db.users) && db.sessions == old(db.sessions)
        && jar.outgoing == if s.clearState then old(jar.outgoing)[STATE_COOKIE := Deleted("/")] else old(jar.outgoing)
    ensures var s := Decide(env, code, state, error, jar.Get(STATE_COOKIE), exchange, profileEndpoint, lookupFails);
      s.SignIn? ==>
        && SignedIn(old(db.users), old(db.sessions), db.users, db.sessions, s, freshUserId, freshSessionId, now)
        && jar.outgoing == old(jar.outgoing)
             [SESSION_COOKIE := SetTo(Seal(freshSessionId, env.sessionSecret.value), SessionCookieOptions(origin))]
             [STATE_COOKIE := Deleted("/")]
        && response == Redirect(302, Root)
  {
    var stateCookie := jar.Get(STATE_COOKIE);
    ghost var s := Decide(env, code, state, error, stateCookie, exchange, profileEndpoint, lookupFails);
    if !IsSet(env.databaseUrl) || !IsSet(env.sessionSecret) {
      return Text(500, "Server not configured", None);
    }
    var secret := env.sessionSecret.value;
    if IsSet(error) {
      jar.Delete(STATE_COOKIE, "/");
      return Redirect(302, RootWithError(error.value));
    }
    var verifiedState: Option<String> := None;
    if stateCookie.Some? && stateCookie.value != [] {
      verifiedState := VerifyStateCookie(stateCookie.value, secret);
    }
    if state.None? || state.value == [] || verifiedState != state {
      assert !StateVerified(env, state, stateCookie);
      return Redirect(302, RootWithError("state_mismatch"));
    }
    assert StateVerified(env, state, stateCookie);
    if !IsSet(code) {
      return Redirect(302, RootWithError("no_code"));
    }
    var exchanged := ExchangeCodeForTokens(env, code.value, exchange);
    if exchanged.Err? {
      assert s == Stop(Redirect(302, RootWithError("token_exchange_failed")), false);
      return Redirect(302, RootWithError("token_exchange_failed"));
    }
    var tokens := exchanged.value;
    var meRes := profileEndpoint(tokens.accessToken);
    if meRes.ProfileUnreachable? {
      assert s == Stop(InternalError, false);
      return InternalError;
    }
    if !IsOk(meRes.status) {
      assert s == Stop(Redirect(302, RootWithError("me_failed")), false);
      return Redirect(302, RootWithError("me_failed"));
    }
    var me := meRes.profile;
    var spotifyId := SpotifyIdOf(me);
    if lookupFails {
      assert s == Stop(Redirect(302, RootWithError("db_setup")), false);
      return Redirect(302, RootWithError("db_setup"));
    }
    assert s == SignIn(tokens, spotifyId, me.display_name, ImageUrlOf(me));
    response := CompleteSignIn(db, jar, secret, origin, tokens, spotifyId, me.display_name, ImageUrlOf(me),
                               freshUserId, freshSessionId, now);
  }

  /** Find-or-create the user, create the session, set the session cookie, drop the state cookie. */
  method CompleteSignIn(db: Database, jar: CookieJar, secret: String, origin: String, tokens: Tokens,
                        spotifyId: String, displayName: Option<String>, imageUrl: Option<String>,
                        freshUserId: String, freshSessionId: String, now: int)
    returns (response: Response)
    requires db.Valid()
    requires freshUserId !in db.users && freshSessionId !in db.sessions
    modifies db, jar
    ensures db.Valid()
    ensures db.blocked == old(db.blocked) && db.nextBlockedId == old(db.nextBlockedId)
    ensures SignedIn(old(db.users), old(db.sessions), db.users, db.sessions,
                     SignIn(tokens, spotifyId, displayName, imageUrl), freshUserId, freshSessionId, now)
    ensures jar.outgoing == old(jar.outgoing)
           [SESSION_COOKIE := SetTo(Seal(freshSessionId, secret), SessionCookieOptions(origin))]
           [STATE_COOKIE := Deleted("/")]
      && response == Redirect(302, Root)
  {
    var existing: Option<String> := None;
    if exists u :: u in db.users && db.users[u].spotifyId == spotifyId {
      var u :| u in db.users && db.users[u].spotifyId == spotifyId;
      existing := Some(u);
    }
    assert existing == UserBySpotifyId(db.users, spotifyId);
    var finalUserId := if existing.Some? then existing.value else freshUserId;
    if existing.None? {
      db.InsertUser(freshUserId, UserRow(spotifyId, displayName, imageUrl, now));
    }
    UserBySpotifyIdFinds(db.users, finalUserId);
    var sessionId := CreateSession(db, finalUserId, tokens.accessToken, tokens.refreshToken, tokens.expiresIn, now, freshSessionId);
    assert sessionId == Some(freshSessionId);
    var cookieValue := SealValue(sessionId.value, secret);
    jar.Set(SESSION_COOKIE, cookieValue, SessionCookieOptions(origin));
    jar.Delete(STATE_COOKIE, "/");
    response := Redirect(302, Root);
  }
}
