/**
 * The server hook: it asks better-auth for the request's session, applies the
 * optional single-account allow list, and fills in the request's locals for an
 * admitted user. better-auth's session lookup, its account table and its token
 * lookup are inputs.
 */
module Hooks {
  import opened Wrappers
  import opened JsString
  import opened Config
  import opened Event

  /** What `auth.api.getSession` yields: either part may be absent. */
  datatype SessionLookup = SessionLookup(session: Option<AuthSession>, user: Option<AuthUser>)

  /** A row of better-auth's account table. */
  datatype Account = Account(userId: String, providerId: String, accountId: String)

  /** What `auth.api.getAccessToken` yields, if anything. */
  datatype TokenResult = TokenResult(accessToken: Option<String>)

  /** How `handle` ends: handing the request to the framework, or its own 302 to `/access-denied`. */
  datatype Outcome = Delegated | RedirectToAccessDenied

  const ACCESS_DENIED_PATH: String := "/access-denied"

  /** The first Spotify account row of `userId`. */
  function SpotifyAccountOf(accounts: seq<Account>, userId: String): (r: Option<Account>)
    ensures r.Some? ==> r.value in accounts && r.value.userId == userId && r.value.providerId == "spotify"
    ensures r.None? ==> forall a :: a in accounts ==> !(a.userId == userId && a.providerId == "spotify")
  {
    if accounts == [] then None
    else if accounts[0].userId == userId && accounts[0].providerId == "spotify" then Some(accounts[0])
    else SpotifyAccountOf(accounts[1..], userId)
  }

  /** The allow list admits everyone when unset or empty, and otherwise only the one Spotify account. */
  predicate Admits(allowedSpotifyId: Option<String>, account: Option<Account>) {
    !IsSet(allowedSpotifyId) || (account.Some? && account.value.accountId == allowedSpotifyId.value)
  }

  /** The decision `handle` takes before touching the locals. */
  datatype Decision =
    | PassThrough                 // building, or no signed-in user: locals stay as they are
    | Deny(redirect: bool)        // not on the allow list: redirect, unless already on /access-denied
    | Admit(account: Option<Account>)

  function Decide(building: bool, lookup: SessionLookup, accounts: seq<Account>,
                  allowedSpotifyId: Option<String>, pathname: String): (d: Decision)
    ensures building ==> d == PassThrough
    ensures !building && (lookup.user.None? || lookup.session.None?) ==> d == PassThrough
    ensures d.Admit? <==>
      && !building && lookup.user.Some? && lookup.session.Some?
      && Admits(allowedSpotifyId, SpotifyAccountOf(accounts, lookup.user.value.id))
    ensures d.Admit? ==> d.account == SpotifyAccountOf(accounts, lookup.user.value.id)
    ensures d.Deny? ==> IsSet(allowedSpotifyId) && (d.redirect <==> pathname != ACCESS_DENIED_PATH)
  {
    if building || lookup.user.None? || lookup.session.None? then PassThrough
    else
      var account := SpotifyAccountOf(accounts, lookup.user.value.id);
      if !Admits(allowedSpotifyId, account) then Deny(pathname != ACCESS_DENIED_PATH)
      else Admit(account)
  }

  /** With no allow list configured, every signed-in request is admitted. */
  lemma UnsetAllowListAdmitsAll(lookup: SessionLookup, accounts: seq<Account>, allowedSpotifyId: Option<String>, pathname: String)
    requires !IsSet(allowedSpotifyId)
    requires lookup.user.Some? && lookup.session.Some?
    ensures Decide(false, lookup, accounts, allowedSpotifyId, pathname).Admit?
  {
  }

  /**
   * With an allow list, a request is admitted exactly when the user's first Spotify
   * account row carries the listed id; an admitted user then owns such a row.
   */
  lemma AllowListAdmitsExactlyItsAccount(lookup: SessionLookup, accounts: seq<Account>, allowedSpotifyId: Option<String>, pathname: String)
    requires IsSet(allowedSpotifyId)
    requires lookup.user.Some? && lookup.session.Some?
    ensures var d := Decide(false, lookup, accounts, allowedSpotifyId, pathname);
      var acc := SpotifyAccountOf(accounts, lookup.user.value.id);
      && (d.Admit? <==> acc.Some? && acc.value.accountId == allowedSpotifyId.value)
      && (d.Deny? <==> !d.Admit?)
      && (d.Admit? ==> exists a :: a in accounts && a.userId == lookup.user.value.id
                                && a.providerId == "spotify" && a.accountId == allowedSpotifyId.value)
  {
    var acc := SpotifyAccountOf(accounts, lookup.user.value.id);
    if acc.Some? && acc.value.accountId == allowedSpotifyId.value {
      assert acc.value in accounts;
    }
  }

  /**
   * `handle` (outside the build): on admission the locals get the session, the user and the
   * Spotify account id (or none); the access token only when the token lookup gave a non-empty one.
   */
  method Handle(locals: Locals, building: bool, lookup: SessionLookup, accounts: seq<Account>,
                tokenResult: Option<TokenResult>, allowedSpotifyId: Option<String>, pathname: String)
    returns (outcome: Outcome)
    modifies locals
    ensures var d := Decide(building, lookup, accounts, allowedSpotifyId, pathname);
      && (outcome == RedirectToAccessDenied <==> d == Deny(true))
      && (!d.Admit? ==> unchanged(locals))
      && (d.Admit? ==>
        && locals.session == lookup.session
        && locals.user == lookup.user
        && locals.spotifyUserId == (if d.account.Some? then Some(d.account.value.accountId) else None)
        && locals.accessToken ==
             (if tokenResult.Some? && tokenResult.value.accessToken.Some? && tokenResult.value.accessToken.value != []
              then tokenResult.value.accessToken
              else old(locals.accessToken)))
  {
    if building {
      return Delegated;
    }
    if lookup.user.Some? && lookup.session.Some? {
      var spotifyAccount := SpotifyAccountOf(accounts, lookup.user.value.id);
      if IsSet(allowedSpotifyId) && (spotifyAccount.None? || spotifyAccount.value.accountId != allowedSpotifyId.value) {
        if pathname != ACCESS_DENIED_PATH {
          return RedirectToAccessDenied;
        }
        return Delegated;
      }
      locals.session := lookup.session;
      locals.user := lookup.user;
      locals.spotifyUserId := if spotifyAccount.Some? then Some(spotifyAccount.value.accountId) else None;
      if tokenResult.Some? && tokenResult.value.accessToken.Some? && tokenResult.value.accessToken.value != [] {
        locals.accessToken := tokenResult.value.accessToken;
      }
    }
    outcome := Delegated;
  }
}
