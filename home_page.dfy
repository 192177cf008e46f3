/**
 * The home page's server load: of the `error` query parameter, only the two codes the
 * page explains are passed on; every other value, and its absence, becomes null.
 */
module HomePage {
  import opened Wrappers
  import opened JsString
  import opened Http

  const KNOWN_ERRORS: set<String> := {"token_exchange_failed", "db_setup"}

  /** The `error` the page receives (None for null). */
  function Load(params: seq<Param>): (r: Option<String>)
    ensures r.Some? <==> Lookup(params, "error").Some? && Lookup(params, "error").value in KNOWN_ERRORS
    ensures r.Some? ==> r == Lookup(params, "error")
  {
    var raw := Lookup(params, "error");
    if raw.Some? && raw.value != [] && raw.value in KNOWN_ERRORS then raw else None
  }

  /** The result depends on the `error` parameter alone. */
  lemma LoadDependsOnErrorOnly(p1: seq<Param>, p2: seq<Param>)
    requires Lookup(p1, "error") == Lookup(p2, "error")
    ensures Load(p1) == Load(p2)
  {
  }

  /** The callback's other codes are not shown. */
  lemma OtherCallbackCodesHidden(params: seq<Param>)
    requires Lookup(params, "error") in {Some("state_mismatch"), Some("no_code"), Some("me_failed"), Some(""), None}
    ensures Load(params).None?
  {
  }
}
