/** The environment configuration the handlers read (each entry may be unset). */
module Config {
  import opened Wrappers
  import opened JsString

  datatype Env = Env(
    databaseUrl: Option<String>,
    spotifyClientId: Option<String>,
    spotifyClientSecret: Option<String>,
    spotifyRedirectUri: Option<String>,
    sessionSecret: Option<String>,
    anthropicApiKey: Option<String>,
    allowedSpotifyId: Option<String>)

  /** JavaScript truthiness of an optional string: set and not empty. */
  predicate IsSet(v: Option<String>) {
    v.Some? && v.value != ""
  }

  /** `v ?? ''`. */
  function OrEmpty(v: Option<String>): String {
    if v.Some? then v.value else ""
  }
}
