/** `POST /auth/logout`: forgets the session, server side when it can be identified. */
module LogoutRoute {
  import opened Wrappers
  import opened JsString
  import opened Config
  import opened Http
  import opened Cookies
  import opened Schema
  import opened Session

  /** The session row logout deletes: only with a database and a secret, and only for a verified cookie. */
  function SessionToDelete(env: Env, header: Option<String>): (r: Option<String>)
    ensures r.Some? ==>
      && IsSet(env.databaseUrl) && IsSet(env.sessionSecret)
      && SessionKey(header, env.sessionSecret.value) == r && r.value != []
    ensures IsSet(env.databaseUrl) && IsSet(env.sessionSecret) && SessionKey(header, env.sessionSecret.value).Some? ==> r.Some?
  {
    if IsSet(env.databaseUrl) && IsSet(env.sessionSecret) then SessionKey(header, env.sessionSecret.value) else None
  }

  /** A request carrying the session cookie issued for `id` logs out exactly that session. */
  lemma LogoutTargetsIssuedSession(env: Env, id: String, rest: String)
    requires IsSet(env.databaseUrl) && IsSet(env.sessionSecret)
    requires id != [] && '.' !in id && ';' !in id
    requires rest == [] || rest[0] == ';'
    ensures SessionToDelete(env, Some(SESSION_COOKIE + "=" + Seal(id, env.sessionSecret.value) + rest)) == Some(id)
  {
    SessionCookieRoundTrip(id, env.sessionSecret.value, rest);
  }

  /**
   * Deletes at most the one session row the cookie names (no other row changes), always
   * deletes the session cookie and always redirects to `/`.
   */
  method Post(db: Database, jar: CookieJar, env: Env, header: Option<String>) returns (response: Response)
    requires db.Valid()
    modifies db, jar
    ensures db.Valid()
    ensures response == Redirect(302, Root)
    ensures jar.outgoing == old(jar.outgoing)[SESSION_COOKIE := Deleted("/")]
    ensures var target := SessionToDelete(env, header);
      db.sessions == if target.Some? then old(db.sessions) - {target.value} else old(db.sessions)
    ensures db.users == old(db.users) && db.blocked == old(db.blocked) && db.nextBlockedId == old(db.nextBlockedId)
  {
    if IsSet(env.databaseUrl) && IsSet(env.sessionSecret) {
      var sessionId := GetSessionIdFromCookie(header, env.sessionSecret.value);
      if sessionId.Some? && sessionId.value != [] {
        db.DeleteSession(sessionId.value);
      }
    }
    jar.Delete(SESSION_COOKIE, "/");
    response := Redirect(302, Root);
  }
}
