/**
 * `POST /api/generate-playlist`: after the guard and the API-key check, the request
 * body is sanitised (seed lists trimmed, de-blanked and capped, strings cut to length,
 * the limit clamped), a request without any seed or direction is refused, and the
 * generation runs with the caller's blocklist.
 */
module GenerateRoute {
  import opened Wrappers
  import opened JsString
  import opened Json
  import opened Http
  import opened Config
  import opened Schema
  import opened Event
  import opened Session
  import opened Guard
  import opened GeneratePlaylist

  const MAX_SEEDS: nat := 10
  const MAX_SEED_STRING: nat := 200
  const MAX_SUMMARY: nat := 2000
  const MAX_PROMPT: nat := 500
  const DEFAULT_LIMIT: int := 20
  const MAX_LIMIT: int := 200

  const NO_API_KEY: String := "ANTHROPIC_API_KEY is not set. Add it to .env."
  const NO_SEEDS: String := "Provide at least one seed artist, genre, playlist, or a text description (prompt)."

  /** `.map((s) => String(s).trim())`. */
  function TrimAll(xs: seq<Json>): (r: seq<String>)
    ensures |r| == |xs|
    ensures forall i :: 0 <= i < |r| ==> r[i] == Trim(ToJsString(xs[i])) && IsTrimmed(r[i])
  {
    seq(|xs|, i requires 0 <= i < |xs| => Trim(ToJsString(xs[i])))
  }

  /**
   * `.map((s) => String(s).trim()).filter(Boolean)`: every kept entry is trimmed and
   * non-empty; a single entry is kept, trimmed, exactly when it is not blank.
   */
  function NonBlank(xs: seq<Json>): (r: seq<String>)
    ensures |r| <= |xs|
    ensures forall i :: 0 <= i < |r| ==> r[i] != [] && IsTrimmed(r[i])
    ensures |xs| == 1 ==> r == if Trim(ToJsString(xs[0])) == [] then [] else [Trim(ToJsString(xs[0]))]
  {
    NonEmpty(TrimAll(xs))
  }

  /** The entries of two runs are the entries of each, in order. */
  lemma NonBlankAppend(xs: seq<Json>, ys: seq<Json>)
    ensures NonBlank(xs + ys) == NonBlank(xs) + NonBlank(ys)
  {
    assert TrimAll(xs + ys) == TrimAll(xs) + TrimAll(ys);
    NonEmptyAppend(TrimAll(xs), TrimAll(ys));
  }

  /** `.map((s) => s.slice(0, n))`. */
  function CutEach(xs: seq<String>, n: nat): (r: seq<String>)
    ensures |r| == |xs|
    ensures forall i :: 0 <= i < |r| ==> |r[i]| <= n && r[i] == Take(xs[i], n)
  {
    seq(|xs|, i requires 0 <= i < |xs| => Take(xs[i], n))
  }

  /**
   * A seed list: the first 10 non-blank entries, trimmed and each cut to 200
   * characters; a non-array gives [].
   */
  function SanitizeSeeds(v: Option<Json>): (r: seq<String>)
    ensures |r| <= MAX_SEEDS
    ensures forall i :: 0 <= i < |r| ==> 0 < |r[i]| <= MAX_SEED_STRING
    ensures !(v.Some? && v.value.JArr?) ==> r == []
    ensures v.Some? && v.value.JArr? ==>
      var kept := NonBlank(v.value.elems);
      && |r| == (if |kept| < MAX_SEEDS then |kept| else MAX_SEEDS)
      && forall i :: 0 <= i < |r| ==> r[i] == Take(kept[i], MAX_SEED_STRING)
  {
    if v.Some? && v.value.JArr? then CutEach(Take(NonBlank(v.value.elems), MAX_SEEDS), MAX_SEED_STRING)
    else []
  }

  function Strings(names: seq<String>): (r: seq<Json>)
    ensures |r| == |names| && forall i :: 0 <= i < |r| ==> r[i] == JStr(names[i])
  {
    seq(|names|, i requires 0 <= i < |names| => JStr(names[i]))
  }

  lemma NonBlankOfClean(names: seq<String>)
    requires forall i :: 0 <= i < |names| ==> names[i] != [] && IsTrimmed(names[i])
    ensures NonBlank(Strings(names)) == names
  {
    forall i | 0 <= i < |names| ensures Trim(ToJsString(Strings(names)[i])) == names[i] {
      TrimOfTrimmed(names[i]);
    }
    assert TrimAll(Strings(names)) == names;
    NonEmptyKeeps(names);
  }

  /** A list that is already clean passes unchanged. */
  lemma SeedsOfCleanList(names: seq<String>)
    requires |names| <= MAX_SEEDS
    requires forall i :: 0 <= i < |names| ==> names[i] != [] && IsTrimmed(names[i]) && |names[i]| <= MAX_SEED_STRING
    ensures SanitizeSeeds(Some(JArr(Strings(names)))) == names
  {
    var r := SanitizeSeeds(Some(JArr(Strings(names))));
    NonBlankOfClean(names);
    assert |r| == |names|;
    forall i | 0 <= i < |r| ensures r[i] == names[i] {
      assert r[i] == Take(names[i], MAX_SEED_STRING);
    }
  }

  /** An object whose `name` and `trackSummary` are both strings. */
  predicate IsSeedPlaylist(x: Json) {
    x.JObj? && "name" in x.fields && x.fields["name"].JStr?
    && "trackSummary" in x.fields && x.fields["trackSummary"].JStr?
  }

  /** `p && typeof p.name === 'string' && typeof p.trackSummary === 'string'`, then cut to length. */
  function ValidPlaylists(xs: seq<Json>): (r: seq<SeedPlaylist>)
    ensures |r| <= |xs|
    ensures forall i :: 0 <= i < |r| ==> |r[i].name| <= MAX_SEED_STRING && |r[i].trackSummary| <= MAX_SUMMARY
    ensures |xs| == 1 && !IsSeedPlaylist(xs[0]) ==> r == []
    ensures |xs| == 1 && IsSeedPlaylist(xs[0]) ==>
      r == [SeedPlaylist(Take(xs[0].fields["name"].s, MAX_SEED_STRING),
                         Take(xs[0].fields["trackSummary"].s, MAX_SUMMARY))]
  {
    if xs == [] then []
    else
      var rest := ValidPlaylists(xs[1..]);
      match xs[0]
      case JObj(m) =>
        if "name" in m && m["name"].JStr? && "trackSummary" in m && m["trackSummary"].JStr?
        then [SeedPlaylist(Take(m["name"].s, MAX_SEED_STRING), Take(m["trackSummary"].s, MAX_SUMMARY))] + rest
        else rest
      case _ => rest
  }

  /** The filter distributes over concatenation: kept playlists keep their order. */
  lemma {:induction false} ValidPlaylistsAppend(xs: seq<Json>, ys: seq<Json>)
    ensures ValidPlaylists(xs + ys) == ValidPlaylists(xs) + ValidPlaylists(ys)
  {
    if xs == [] {
      assert xs + ys == ys;
    } else {
      assert (xs + ys)[0] == xs[0];
      assert (xs + ys)[1..] == xs[1..] + ys;
      ValidPlaylistsAppend(xs[1..], ys);
    }
  }

  /** Only the first 10 raw entries are looked at, whether or not they are valid. */
  function SanitizePlaylists(v: Option<Json>): (r: seq<SeedPlaylist>)
    ensures |r| <= MAX_SEEDS
    ensures !(v.Some? && v.value.JArr?) ==> r == []
    ensures v.Some? && v.value.JArr? ==> r == ValidPlaylists(Take(v.value.elems, MAX_SEEDS))
  {
    if v.Some? && v.value.JArr? then ValidPlaylists(Take(v.value.elems, MAX_SEEDS)) else []
  }

  /** Entries after the tenth never matter, even when some of the first ten are dropped. */
  lemma PlaylistsBeyondTenIgnored(xs: seq<Json>, more: seq<Json>)
    requires |xs| == MAX_SEEDS
    ensures SanitizePlaylists(Some(JArr(xs + more))) == SanitizePlaylists(Some(JArr(xs)))
  {
    assert (xs + more)[..MAX_SEEDS] == xs;
  }

  /** A string prompt cut to 500 characters; anything else is undefined. */
  function SanitizePrompt(v: Option<Json>): (r: Option<String>)
    ensures r.Some? <==> IsString(v)
    ensures r.Some? ==> |r.value| <= MAX_PROMPT && StartsWith(v.value.s, r.value)
    ensures r.Some? ==> r.value == Take(v.value.s, MAX_PROMPT)
  {
    if IsString(v) then Some(Take(v.value.s, MAX_PROMPT)) else None
  }

  /** `Math.min(Math.max(Number(v) || 20, 1), 200)`. */
  function ClampLimit(v: Option<Json>): (r: int)
    ensures 1 <= r <= MAX_LIMIT
    ensures ToNumber(v).None? || ToNumber(v) == Some(0) ==> r == DEFAULT_LIMIT
    ensures ToNumber(v).Some? && 1 <= ToNumber(v).value <= MAX_LIMIT ==> r == ToNumber(v).value
    ensures ToNumber(v).Some? && ToNumber(v).value < 0 ==> r == 1
    ensures ToNumber(v).Some? && ToNumber(v).value > MAX_LIMIT ==> r == MAX_LIMIT
  {
    var n := ToNumber(v);
    var x := if n.None? || n.value == 0 then DEFAULT_LIMIT else n.value;
    var atLeastOne := if x < 1 then 1 else x;
    if atLeastOne > MAX_LIMIT then MAX_LIMIT else atLeastOne
  }

  /** A limit sent as a number string in range is taken as is. */
  lemma LimitFromRenderedNumber(n: int)
    requires 1 <= n <= MAX_LIMIT
    ensures ClampLimit(Some(JStr(IntToString(n, 10)))) == n
  {
    NumberOfRenderedInteger(n);
  }

  /** The sanitised body (for a body that is not null). */
  datatype Sanitized = Sanitized(
    seedArtists: seq<String>,
    seedGenres: seq<String>,
    seedPlaylists: seq<SeedPlaylist>,
    prompt: Option<String>,
    limit: int)

  function Field(body: Json, key: String): Option<Json>
    requires !body.JNull?
  {
    Member(body, key).value
  }

  function Sanitize(body: Json): (s: Sanitized)
    requires !body.JNull?
    ensures |s.seedArtists| <= MAX_SEEDS && |s.seedGenres| <= MAX_SEEDS && |s.seedPlaylists| <= MAX_SEEDS
    ensures 1 <= s.limit <= MAX_LIMIT
  {
    Sanitized(
      SanitizeSeeds(Field(body, "seedArtists")),
      SanitizeSeeds(Field(body, "seedGenres")),
      SanitizePlaylists(Field(body, "seedPlaylists")),
      SanitizePrompt(Field(body, "prompt")),
      ClampLimit(Field(body, "limit")))
  }

  /** No seed of any kind and no non-blank direction. */
  predicate NothingToGoOn(s: Sanitized) {
    && s.seedArtists == [] && s.seedGenres == [] && s.seedPlaylists == []
    && (s.prompt.None? || Trim(s.prompt.value) == [])
  }

  function BlockedNames(rows: seq<BlockedArtistRow>): (r: seq<String>)
    ensures |r| == |rows| && forall i :: 0 <= i < |r| ==> r[i] == rows[i].name
  {
    seq(|rows|, i requires 0 <= i < |rows| => rows[i].name)
  }

  function BlockedIds(rows: seq<BlockedArtistRow>): (r: seq<String>)
    ensures |r| == |rows| && forall i :: 0 <= i < |r| ==> r[i] == rows[i].spotifyArtistId
  {
    seq(|rows|, i requires 0 <= i < |rows| => rows[i].spotifyArtistId)
  }

  /** The generation input: an empty playlist list is passed as undefined; the blocklist is the caller's rows in row order. */
  function InputOf(s: Sanitized, rows: seq<BlockedArtistRow>): (input: GenerateInput)
    ensures input.seedPlaylists.None? <==> s.seedPlaylists == []
    ensures input.blockedArtistNames == BlockedNames(rows) && input.blockedArtistIds == BlockedIds(rows)
    ensures input.limit == s.limit
  {
    GenerateInput(s.seedArtists, s.seedGenres, if s.seedPlaylists == [] then None else Some(s.seedPlaylists),
                  s.prompt, s.limit, BlockedNames(rows), BlockedIds(rows))
  }

  function TrackJson(t: TrackResult): Json {
    JObj(map["uri" := JStr(t.uri), "name" := JStr(t.name), "artists" := JStr(t.artists),
             "artistIds" := JArr(Strings(t.artistIds))]
         + (if t.album.Some? then map["album" := JStr(t.album.value)] else map[]))
  }

  function TracksResponse(ts: seq<TrackResult>): Response {
    JsonBody(200, Single("tracks", JArr(seq(|ts|, i requires 0 <= i < |ts| => TrackJson(ts[i])))))
  }

  /**
   * The handler. The guard comes first, then the API key, then the body; a body that is
   * JSON `null` makes the first property read throw.
   */
  function Post(locals: Locals, env: Env, body: Json, db: Database, llm: Llm, search: SearchRequest -> SearchReply)
    : (r: Response)
    reads locals, db
    ensures RequireAuth(locals).Err? ==> r == UNAUTHORIZED
    ensures RequireAuth(locals).Ok? && !IsSet(env.anthropicApiKey) ==> r == ErrorJson(503, NO_API_KEY)
    ensures RequireAuth(locals).Ok? && IsSet(env.anthropicApiKey) && body.JNull? ==> r == InternalError
    ensures RequireAuth(locals).Ok? && IsSet(env.anthropicApiKey) && !body.JNull? && NothingToGoOn(Sanitize(body))
      ==> r == ErrorJson(400, NO_SEEDS)
    ensures RequireAuth(locals).Ok? && IsSet(env.anthropicApiKey) && !body.JNull? && !NothingToGoOn(Sanitize(body))
      ==> var id := RequireAuth(locals).value;
          r == Generated(id.accessToken, InputOf(Sanitize(body), RowsOfUser(db.blocked, id.userId)), llm, search)
    ensures r.JsonBody? && r.status == 200 ==>
      && RequireAuth(locals).Ok? && !body.JNull? && !NothingToGoOn(Sanitize(body))
      && var id := RequireAuth(locals).value;
         var g := Generate(id.accessToken, InputOf(Sanitize(body), RowsOfUser(db.blocked, id.userId)), llm, search);
         g.Ok? && r == TracksResponse(g.value)
  {
    match RequireAuth(locals)
    case Err(unauthorized) => unauthorized
    case Ok(id) =>
      if !IsSet(env.anthropicApiKey) then ErrorJson(503, NO_API_KEY)
      else if body.JNull? then InternalError
      else
        var s := Sanitize(body);
        if NothingToGoOn(s) then ErrorJson(400, NO_SEEDS)
        else
          Generated(id.accessToken, InputOf(s, RowsOfUser(db.blocked, id.userId)), llm, search)
  }

  /** The generation's outcome: the tracks, or a 500 carrying the error's message. */
  function Generated(accessToken: String, input: GenerateInput, llm: Llm, search: SearchRequest -> SearchReply)
    : (r: Response)
    ensures r.JsonBody? && r.status == 200 ==>
      Generate(accessToken, input, llm, search).Ok? && r == TracksResponse(Generate(accessToken, input, llm, search).value)
    ensures Generate(accessToken, input, llm, search).Err? ==> r == ErrorJson(500, Generate(accessToken, input, llm, search).error)
  {
    match Generate(accessToken, input, llm, search)
    case Err(message) => ErrorJson(500, message)
    case Ok(tracks) => TracksResponse(tracks)
  }

  /**
   * A playlist the route returns has at most 200 tracks, never the same uri twice,
   * and no track by an artist on the caller's blocklist.
   */
  lemma ReturnedPlaylist(locals: Locals, env: Env, body: Json, db: Database, llm: Llm,
                         search: SearchRequest -> SearchReply)
    requires Post(locals, env, body, db, llm, search).JsonBody?
    requires Post(locals, env, body, db, llm, search).status == 200
    ensures exists ts: seq<TrackResult> ::
      && Post(locals, env, body, db, llm, search) == TracksResponse(ts)
      && |ts| <= MAX_LIMIT
      && DistinctUris(ts)
      && forall a, j, row: BlockedArtistRow ::
           (0 <= a < |ts| && 0 <= j < |ts[a].artistIds| && row in db.blocked
            && row.userId == locals.user.value.id && row.spotifyArtistId != "")
           ==> ts[a].artistIds[j] != row.spotifyArtistId
  {
    var id := RequireAuth(locals).value;
    var rows := RowsOfUser(db.blocked, id.userId);
    var input := InputOf(Sanitize(body), rows);
    var ts := Generate(id.accessToken, input, llm, search).value;
    GeneratedPlaylist(id.accessToken, input, llm, search);
    forall a, j, row | 0 <= a < |ts| && 0 <= j < |ts[a].artistIds|
      && row in db.blocked && row.userId == id.userId && row.spotifyArtistId != ""
      ensures ts[a].artistIds[j] != row.spotifyArtistId
    {
      assert row in rows;
      var k :| 0 <= k < |rows| && rows[k] == row;
      assert input.blockedArtistIds[k] == row.spotifyArtistId;
    }
  }
}
