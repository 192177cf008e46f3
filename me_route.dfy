/** `GET /api/me`: the signed-in user's profile, projected from the request's locals. */
module MeRoute {
  import opened Wrappers
  import opened JsString
  import opened Json
  import opened Http
  import opened Event
  import opened Session
  import opened Guard

  const USER_NOT_FOUND: String := "User not found"

  /** `value ?? null`. */
  function OrNull(v: Option<String>): (j: Json)
    ensures v.None? <==> j == JNull
    ensures v.Some? ==> j == JStr(v.value)
  {
    if v.Some? then JStr(v.value) else JNull
  }

  function ProfileJson(user: AuthUser, userId: String): Json {
    JObj(map[
      "id" := JStr(user.id),
      "userId" := JStr(userId),
      "displayName" := OrNull(user.name),
      "imageUrl" := OrNull(user.image),
      "email" := OrNull(user.email)])
  }

  /** What the handler answers once the guard has passed: 404 without a user, else the profile. */
  function Respond(user: Option<AuthUser>, userId: String): (r: Response)
    ensures r.JsonBody? && r.body.JObj?
    ensures r.status == 404 <==> user.None?
  {
    if user.None? then ErrorJson(404, USER_NOT_FOUND)
    else JsonBody(200, ProfileJson(user.value, userId))
  }

  /** The handler as written: the guard, then the user check. */
  function Get(locals: Locals): (r: Response)
    reads locals
    ensures RequireAuth(locals).Err? ==> r == UNAUTHORIZED
    ensures RequireAuth(locals).Ok? ==> r == Respond(locals.user, RequireAuth(locals).value.userId)
  {
    match RequireAuth(locals)
    case Err(e) => e
    case Ok(id) => Respond(locals.user, id.userId)
  }

  /**
   * The guard already rejects a request without a user, so the 404 branch is never
   * taken: the answer is the 401 or the profile, whose `id` and `userId` are both the
   * user's id and whose optional fields are the user's or null.
   */
  lemma NeverNotFound(locals: Locals)
    ensures Get(locals) == UNAUTHORIZED || Get(locals).status == 200
    ensures Get(locals).status == 200 ==>
      var user := locals.user.value;
      && Get(locals).body.fields["id"] == JStr(user.id)
      && Get(locals).body.fields["userId"] == JStr(user.id)
      && (Get(locals).body.fields["displayName"] == JNull <==> user.name.None?)
      && (Get(locals).body.fields["imageUrl"] == JNull <==> user.image.None?)
      && (Get(locals).body.fields["email"] == JNull <==> user.email.None?)
  {
  }
}
