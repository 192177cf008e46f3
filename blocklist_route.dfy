/**
 * `/api/blocklist`: the caller's blocked artists. GET lists the caller's rows; POST
 * validates the body, refuses an artist the caller has already blocked and otherwise
 * inserts one row. The table itself allows duplicates, so per-user uniqueness rests on
 * this check alone; it is proved for requests handled one at a time, since two
 * concurrent requests can both pass the check before either inserts.
 */
module BlocklistRoute {
  import opened Wrappers
  import opened JsString
  import opened Json
  import opened Http
  import opened Schema
  import opened Event
  import opened Session
  import opened Guard

  const REQUIRED: String := "spotifyArtistId and name are required"
  const ALREADY_BLOCKED: String := "Artist already in blocklist"

  /** A row as `json` renders it; `createdAt` is kept as its millisecond count. */
  function RowJson(row: BlockedArtistRow): Json {
    JObj(map[
      "id" := JNum(row.id),
      "userId" := JStr(row.userId),
      "spotifyArtistId" := JStr(row.spotifyArtistId),
      "name" := JStr(row.name),
      "createdAt" := JNum(row.createdAt)])
  }

  function ListJson(rows: seq<BlockedArtistRow>): (j: Json)
    ensures j.JObj? && "blocklist" in j.fields && j.fields["blocklist"].JArr?
    ensures |j.fields["blocklist"].elems| == |rows|
    ensures forall i :: 0 <= i < |rows| ==> j.fields["blocklist"].elems[i] == RowJson(rows[i])
  {
    JObj(map["blocklist" := JArr(seq(|rows|, i requires 0 <= i < |rows| => RowJson(rows[i])))])
  }

  /** GET: after the guard, exactly the caller's rows, in row order. */
  function Get(locals: Locals, db: Database): (r: Response)
    reads locals, db
    ensures RequireAuth(locals).Err? ==> r == UNAUTHORIZED
    ensures RequireAuth(locals).Ok? ==>
      r == JsonBody(200, ListJson(RowsOfUser(db.blocked, RequireAuth(locals).value.userId)))
  {
    match RequireAuth(locals)
    case Err(e) => e
    case Ok(id) => JsonBody(200, ListJson(RowsOfUser(db.blocked, id.userId)))
  }

  /** No user has blocked the same artist twice. */
  ghost predicate BlocksUnique(blocked: seq<BlockedArtistRow>) {
    forall i, j :: 0 <= i < j < |blocked| && blocked[i].userId == blocked[j].userId ==>
      blocked[i].spotifyArtistId != blocked[j].spotifyArtistId
  }

  /** `existingList.some((d) => d.spotifyArtistId === spotifyArtistId)` over the caller's rows. */
  function AlreadyBlocked(rows: seq<BlockedArtistRow>, spotifyArtistId: String): (r: bool)
    ensures r <==> exists i :: 0 <= i < |rows| && rows[i].spotifyArtistId == spotifyArtistId
  {
    if rows == [] then false
    else rows[0].spotifyArtistId == spotifyArtistId || AlreadyBlocked(rows[1..], spotifyArtistId)
  }

  /** `body.spotifyArtistId?.trim()`: undefined when missing or null, a TypeError when not a string. */
  function OptionalTrim(v: Option<Json>): (r: Result<Option<String>, TypeError>)
    ensures r.Ok? && r.value.Some? ==> v.Some? && v.value.JStr? && r.value.value == Trim(v.value.s)
    ensures r.Err? <==> v.Some? && !v.value.JNull? && !v.value.JStr?
  {
    if v.None? || v.value.JNull? then Ok(None)
    else if v.value.JStr? then Ok(Some(Trim(v.value.s)))
    else Err(TypeError)
  }

  /** `(body.name ?? '').trim()`: '' when missing or null, a TypeError when not a string. */
  function TrimOrEmpty(v: Option<Json>): (r: Result<String, TypeError>)
    ensures r.Ok? && v.Some? && v.value.JStr? ==> r.value == Trim(v.value.s)
    ensures r.Ok? && (v.None? || v.value.JNull?) ==> r.value == []
    ensures r.Err? <==> v.Some? && !v.value.JNull? && !v.value.JStr?
  {
    if v.None? || v.value.JNull? then Ok([])
    else if v.value.JStr? then Ok(Trim(v.value.s))
    else Err(TypeError)
  }

  /**
   * The body's artist id and name, both trimmed and non-empty; a body that throws
   * gives the framework's 500 and a missing or blank field gives 400.
   */
  function ParseBody(body: Json): (r: Result<(String, String), Response>)
    ensures body.JNull? ==> r == Err(InternalError)
    ensures r.Ok? ==> r.value.0 != [] && r.value.1 != [] && IsTrimmed(r.value.0) && IsTrimmed(r.value.1)
    ensures r.Ok? ==>
      var id := Member(body, "spotifyArtistId");
      var name := Member(body, "name");
      && id.Ok? && id.value.Some? && id.value.value.JStr? && r.value.0 == Trim(id.value.value.s)
      && name.Ok? && name.value.Some? && name.value.value.JStr? && r.value.1 == Trim(name.value.value.s)
    ensures r.Err? && r.error != InternalError ==> r.error == ErrorJson(400, REQUIRED)
    ensures !body.JNull? ==>
      var id := OptionalTrim(Member(body, "spotifyArtistId").value);
      var name := TrimOrEmpty(Member(body, "name").value);
      && (r == Err(InternalError) <==> id.Err? || name.Err?)
      && (id.Ok? && name.Ok? ==> (r.Ok? <==> id.value.Some? && id.value.value != [] && name.value != []))
  {
    match Member(body, "spotifyArtistId")
    case Err(_) => Err(InternalError)
    case Ok(rawId) =>
      match OptionalTrim(rawId)
      case Err(_) => Err(InternalError)
      case Ok(id) =>
        match TrimOrEmpty(Member(body, "name").value)
        case Err(_) => Err(InternalError)
        case Ok(name) =>
          if id.None? || id.value == [] || name == [] then Err(ErrorJson(400, REQUIRED))
          else Ok((id.value, name))
  }

  /** Appending a row leaves every other user's rows as they were. */
  lemma {:induction false} AppendKeepsOthers(blocked: seq<BlockedArtistRow>, row: BlockedArtistRow, userId: String)
    ensures RowsOfUser(blocked + [row], userId) ==
      RowsOfUser(blocked, userId) + (if row.userId == userId then [row] else [])
  {
    if blocked != [] {
      AppendKeepsOthers(blocked[1..], row, userId);
      assert (blocked + [row])[1..] == blocked[1..] + [row];
    } else {
      assert [] + [row] == [row];
    }
  }

  /**
   * Appending a row for an artist the user has not blocked keeps blocks unique; the
   * same artist blocked by another user does not matter.
   */
  lemma AppendKeepsUnique(blocked: seq<BlockedArtistRow>, row: BlockedArtistRow)
    requires BlocksUnique(blocked)
    requires !AlreadyBlocked(RowsOfUser(blocked, row.userId), row.spotifyArtistId)
    ensures BlocksUnique(blocked + [row])
  {
    var b := blocked + [row];
    forall i, j | 0 <= i < j < |b| && b[i].userId == b[j].userId
      ensures b[i].spotifyArtistId != b[j].spotifyArtistId
    {
      if j == |blocked| {
        var rows := RowsOfUser(blocked, row.userId);
        assert b[i] in rows;
        var k :| 0 <= k < |rows| && rows[k] == b[i];
      }
    }
  }

  /**
   * POST. On success exactly one row (the caller, the trimmed id and name, `now`) is
   * appended and returned; every other outcome leaves the table as it was.
   */
  method Post(locals: Locals, db: Database, body: Json, now: int) returns (response: Response)
    requires db.Valid()
    modifies db
    ensures db.Valid()
    ensures db.users == old(db.users) && db.sessions == old(db.sessions)
    ensures BlocksUnique(old(db.blocked)) ==> BlocksUnique(db.blocked)
    ensures forall u :: RequireAuth(locals).Ok? && u != RequireAuth(locals).value.userId ==>
      RowsOfUser(db.blocked, u) == RowsOfUser(old(db.blocked), u)
    ensures RequireAuth(locals).Err? ==> response == UNAUTHORIZED && db.blocked == old(db.blocked)
    ensures RequireAuth(locals).Ok? ==>
      var userId := RequireAuth(locals).value.userId;
      var parsed := ParseBody(body);
      && (parsed.Err? ==> response == parsed.error && db.blocked == old(db.blocked))
      && (parsed.Ok? && AlreadyBlocked(RowsOfUser(old(db.blocked), userId), parsed.value.0) ==>
            response == ErrorJson(409, ALREADY_BLOCKED) && db.blocked == old(db.blocked))
      && (parsed.Ok? && !AlreadyBlocked(RowsOfUser(old(db.blocked), userId), parsed.value.0) ==>
            if userId in old(db.users) then
              var row := BlockedArtistRow(old(db.nextBlockedId), userId, parsed.value.0, parsed.value.1, now);
              && db.blocked == old(db.blocked) + [row]
              && response == JsonBody(200, RowJson(row))
            else response == InternalError && db.blocked == old(db.blocked))
  {
    var auth := RequireAuth(locals);
    if auth.Err? {
      return auth.error;
    }
    var userId := auth.value.userId;
    var parsed := ParseBody(body);
    if parsed.Err? {
      return parsed.error;
    }
    var (spotifyArtistId, name) := parsed.value;
    var existing := RowsOfUser(db.blocked, userId);
    if AlreadyBlocked(existing, spotifyArtistId) {
      return ErrorJson(409, ALREADY_BLOCKED);
    }
    ghost var before := db.blocked;
    var inserted := db.InsertBlockedArtist(userId, spotifyArtistId, name, now);
    if inserted.None? {
      return InternalError;
    }
    if BlocksUnique(before) {
      AppendKeepsUnique(before, inserted.value);
    }
    forall u | u != userId
      ensures RowsOfUser(db.blocked, u) == RowsOfUser(before, u)
    {
      AppendKeepsOthers(before, inserted.value, u);
    }
    response := JsonBody(200, RowJson(inserted.value));
  }
}
