/** Requests to upstream services and responses of the route handlers. */
module Http {
  import opened Wrappers
  import opened JsString
  import opened Json

  /** A query or form parameter, before URL encoding. */
  datatype Param = Param(key: String, value: String)

  /** A URL as base address plus ordered query parameters (the encoding is not modelled). */
  datatype Url = Url(base: String, query: seq<Param>)

  /** The value of the first parameter named `key`. */
  function Lookup(params: seq<Param>, key: String): (r: Option<String>)
    ensures r.Some? <==> exists i :: 0 <= i < |params| && params[i].key == key
  {
    if params == [] then None
    else if params[0].key == key then Some(params[0].value)
    else Lookup(params[1..], key)
  }

  /** Five parameters with different names: each is found under its own name. */
  lemma LookupOfFive(a: Param, b: Param, c: Param, d: Param, e: Param)
    requires a.key != b.key && a.key != c.key && a.key != d.key && a.key != e.key
    requires b.key != c.key && b.key != d.key && b.key != e.key
    requires c.key != d.key && c.key != e.key && d.key != e.key
    ensures var q := [a, b, c, d, e];
      && Lookup(q, a.key) == Some(a.value) && Lookup(q, b.key) == Some(b.value)
      && Lookup(q, c.key) == Some(c.value) && Lookup(q, d.key) == Some(d.value)
      && Lookup(q, e.key) == Some(e.value)
  {
    var q := [a, b, c, d, e];
    LookupAt(q, 1, b.key);
    LookupAt(q, 2, c.key);
    LookupAt(q, 3, d.key);
    LookupAt(q, 4, e.key);
  }

  /** Lookup finds the parameter at `i` when no earlier parameter has that name. */
  lemma {:induction false} LookupAt(params: seq<Param>, i: nat, key: String)
    requires i < |params| && params[i].key == key
    requires forall j :: 0 <= j < i ==> params[j].key != key
    ensures Lookup(params, key) == Some(params[i].value)
  {
    if i > 0 {
      LookupAt(params[1..], i - 1, key);
    }
  }

  /** Redirect targets used by the application. */
  datatype Location =
    | Root                        // "/"
    | RootWithError(code: String) // "/?error=" + encodeURIComponent(code)
    | AccessDenied                // "/access-denied"
    | External(url: Url)

  datatype Response =
    | Redirect(status: int, location: Location)
    | Text(status: int, text: String, contentType: Option<String>)
    | JsonBody(status: int, body: Json)
    | InternalError               // the framework's 500 for an exception the handler lets escape

  /** `res.ok` of fetch. */
  predicate IsOk(status: int) {
    200 <= status < 300
  }

  /** `json({ error: message }, { status })`. */
  function ErrorJson(status: int, message: String): Response {
    JsonBody(status, Single("error", JStr(message)))
  }
}
