/**
 * `GET /api/search`: a proxy to the Web API's search endpoint. After the guard, the
 * query `q` is trimmed and must be at least two characters long; `type` defaults to
 * artists and tracks and the result count is fixed at 20.
 */
module SearchRoute {
  import opened Wrappers
  import opened JsString
  import opened Json
  import opened Http
  import opened Event
  import opened Session
  import opened Guard

  const SPOTIFY_SEARCH: String := "https://api.spotify.com/v1/search"
  const DEFAULT_TYPE: String := "artist,track"
  const LIMIT: String := "20"
  const QUERY_REQUIRED: String := "Query \"q\" required (min 2 chars)"

  datatype SearchCall = SearchCall(url: Url, bearer: String)

  /** A rejected fetch, or the status, the text and the parsed body of the reply. */
  datatype SearchAnswer = SearchUnreachable | SearchAnswer(status: int, text: String, data: Json)

  /** `searchParams.get('q')?.trim()`, kept only when at least two characters remain. */
  function Query(params: seq<Param>): (r: Option<String>)
    ensures r.Some? <==> Lookup(params, "q").Some? && |Trim(Lookup(params, "q").value)| >= 2
    ensures r.Some? ==> r.value == Trim(Lookup(params, "q").value) && IsTrimmed(r.value)
  {
    match Lookup(params, "q")
    case None => None
    case Some(raw) => var q := Trim(raw); if |q| < 2 then None else Some(q)
  }

  /** `searchParams.get('type') || 'artist,track'`: an absent or empty type gives the default. */
  function SearchType(params: seq<Param>): (r: String)
    ensures r != []
    ensures Lookup(params, "type").None? || Lookup(params, "type") == Some([]) ==> r == DEFAULT_TYPE
    ensures Lookup(params, "type").Some? && Lookup(params, "type").value != [] ==> r == Lookup(params, "type").value
  {
    match Lookup(params, "type")
    case Some(t) => if t == [] then DEFAULT_TYPE else t
    case None => DEFAULT_TYPE
  }

  /** The upstream request: the query, the type and the fixed limit of 20, with the caller's token. */
  function CallFor(q: String, searchType: String, bearer: String): (c: SearchCall)
    ensures Lookup(c.url.query, "q") == Some(q)
    ensures Lookup(c.url.query, "type") == Some(searchType)
    ensures Lookup(c.url.query, "limit") == Some(LIMIT)
  {
    var query := [Param("q", q), Param("type", searchType), Param("limit", LIMIT)];
    LookupAt(query, 2, "limit");
    SearchCall(Url(SPOTIFY_SEARCH, query), bearer)
  }

  /**
   * The handler: the guard, then the query check, then one upstream call whose answer is
   * passed through (the body on success, the status and text otherwise).
   */
  function Get(locals: Locals, params: seq<Param>, search: SearchCall -> SearchAnswer): (r: Response)
    reads locals
    ensures RequireAuth(locals).Err? ==> r == UNAUTHORIZED
    ensures RequireAuth(locals).Ok? && Query(params).None? ==> r == ErrorJson(400, QUERY_REQUIRED)
    ensures RequireAuth(locals).Ok? && Query(params).Some? ==>
      var answer := search(CallFor(Query(params).value, SearchType(params), RequireAuth(locals).value.accessToken));
      && (answer.SearchUnreachable? ==> r == InternalError)
      && (answer.SearchAnswer? && !IsOk(answer.status) ==> r == ErrorJson(answer.status, answer.text))
      && (answer.SearchAnswer? && IsOk(answer.status) ==> r == JsonBody(200, answer.data))
  {
    match RequireAuth(locals)
    case Err(e) => e
    case Ok(id) =>
      match Query(params)
      case None => ErrorJson(400, QUERY_REQUIRED)
      case Some(q) =>
        match search(CallFor(q, SearchType(params), id.accessToken))
        case SearchUnreachable => InternalError
        case SearchAnswer(status, text, data) =>
          if IsOk(status) then JsonBody(200, data) else ErrorJson(status, text)
  }

  /** A rejected query is answered without the upstream service: any two of them agree. */
  lemma RejectedWithoutUpstream(locals: Locals, params: seq<Param>, s1: SearchCall -> SearchAnswer, s2: SearchCall -> SearchAnswer)
    requires Query(params).None?
    ensures Get(locals, params, s1) == Get(locals, params, s2)
  {
  }

  /** A query of fewer than two characters after trimming is rejected, whatever the padding. */
  lemma ShortQueryRejected(locals: Locals, params: seq<Param>, search: SearchCall -> SearchAnswer)
    requires RequireAuth(locals).Ok?
    requires Lookup(params, "q").Some? && |Trim(Lookup(params, "q").value)| < 2
    ensures Get(locals, params, search) == ErrorJson(400, QUERY_REQUIRED)
  {
  }
}
