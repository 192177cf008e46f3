/** `requireAuth`: the check every protected route makes first. */
module Guard {
  import opened Wrappers
  import opened JsString
  import opened Json
  import opened Http
  import opened Event
  import opened Session

  /** The response `requireAuth` throws: 401 with a JSON error body. */
  const UNAUTHORIZED: Response := Text(401, "{\"error\":\"Unauthorized\"}", Some("application/json"))

  /**
   * The caller's identity when the request carries a user with a non-empty id and a
   * non-empty access token; the 401 response otherwise. Only reads the locals.
   */
  function RequireAuth(locals: Locals): (r: Result<Identity, Response>)
    reads locals
    ensures r.Ok? <==>
      && locals.user.Some? && locals.user.value.id != []
      && locals.accessToken.Some? && locals.accessToken.value != []
    ensures r.Ok? ==> r.value == Identity(locals.user.value.id, locals.accessToken.value)
    ensures r.Err? ==> r.error == UNAUTHORIZED
  {
    if locals.user.None? || locals.user.value.id == [] || locals.accessToken.None? || locals.accessToken.value == [] then
      Err(UNAUTHORIZED)
    else Ok(Identity(locals.user.value.id, locals.accessToken.value))
  }
}
