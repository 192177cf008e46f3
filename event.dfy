/** The per-request state the better-auth hook fills in and the protected routes read. */
module Event {
  import opened Wrappers
  import opened JsString

  /** better-auth's user record, as far as the application reads it. */
  datatype AuthUser = AuthUser(id: String, name: Option<String>, image: Option<String>, email: Option<String>)

  /** better-auth's session record; its contents are opaque to the application. */
  datatype AuthSession = AuthSession(id: String, userId: String)

  /** `event.locals`: every field starts out absent. */
  class Locals {
    var session: Option<AuthSession>
    var user: Option<AuthUser>
    var accessToken: Option<String>
    var spotifyUserId: Option<String>

    constructor ()
      ensures session.None? && user.None? && accessToken.None? && spotifyUserId.None?
    {
      session, user, accessToken, spotifyUserId := None, None, None, None;
    }
  }
}
