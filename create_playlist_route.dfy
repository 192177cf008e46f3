/**
 * `POST /api/playlists/create`: create a private playlist for the caller's Spotify
 * account, then add the tracks in consecutive batches of at most 100 (the Web API's
 * limit per request), stopping at the first batch that fails.
 */
module CreatePlaylistRoute {
  import opened Wrappers
  import opened JsString
  import opened Json
  import opened Http
  import opened Schema
  import opened Event
  import opened Session
  import opened Guard

  const BATCH_SIZE: nat := 100
  const DEFAULT_NAME: String := "New Playlist"
  const NO_SPOTIFY_ID: String := "User Spotify ID not found"
  const ADD_FAILED: String := "Playlist created but adding tracks failed: "

  // ---- Batching ----

  function Min(a: int, b: int): int {
    if a <= b then a else b
  }

  /** `uris.slice(i, i + 100)` for i = 0, 100, 200, ... while i < |uris|. */
  function Batches(uris: seq<String>): (bs: seq<seq<String>>)
    decreases |uris|
  {
    if uris == [] then []
    else [uris[..Min(BATCH_SIZE, |uris|)]] + Batches(uris[Min(BATCH_SIZE, |uris|)..])
  }

  function Flatten(bs: seq<seq<String>>): seq<String> {
    if bs == [] then [] else bs[0] + Flatten(bs[1..])
  }

  /** The batches, put back together, are the list; none is empty or longer than 100. */
  lemma {:induction false} BatchesPartition(uris: seq<String>)
    ensures Flatten(Batches(uris)) == uris
    ensures forall k :: 0 <= k < |Batches(uris)| ==> 1 <= |Batches(uris)[k]| <= BATCH_SIZE
    decreases |uris|
  {
    if uris != [] {
      var m := Min(BATCH_SIZE, |uris|);
      BatchesPartition(uris[m..]);
      assert Batches(uris)[1..] == Batches(uris[m..]);
      assert uris[..m] + uris[m..] == uris;
    }
  }

  /** There are ceil(n / 100) batches, none for an empty list. */
  lemma {:induction false} BatchCount(uris: seq<String>)
    ensures |Batches(uris)| == (|uris| + BATCH_SIZE - 1) / BATCH_SIZE
    decreases |uris|
  {
    if uris != [] {
      var m := Min(BATCH_SIZE, |uris|);
      BatchCount(uris[m..]);
    }
  }

  /** Batch `k` is the slice starting at 100 k. */
  lemma {:induction false} BatchAt(uris: seq<String>, k: nat)
    requires k < |Batches(uris)|
    ensures BATCH_SIZE * k < |uris|
    ensures Batches(uris)[k] == uris[BATCH_SIZE * k..Min(BATCH_SIZE * k + BATCH_SIZE, |uris|)]
    decreases |uris|
  {
    var m := Min(BATCH_SIZE, |uris|);
    if k > 0 {
      BatchAt(uris[m..], k - 1);
      assert m == BATCH_SIZE;
    }
  }

  /** After the first `n` batches, the next one starts at 100 n, and it is the last exactly when the list ends within it. */
  lemma NextBatch(uris: seq<String>, sent: seq<seq<String>>)
    requires |sent| < |Batches(uris)| && sent == Batches(uris)[..|sent|]
    ensures BATCH_SIZE * |sent| < |uris|
    ensures var n := |sent|;
      && sent + [uris[BATCH_SIZE * n..Min(BATCH_SIZE * n + BATCH_SIZE, |uris|)]] == Batches(uris)[..n + 1]
      && (n + 1 < |Batches(uris)| <==> BATCH_SIZE * (n + 1) < |uris|)
  {
    var n := |sent|;
    BatchAt(uris, n);
    BatchCount(uris);
    assert Batches(uris)[..n + 1] == Batches(uris)[..n] + [Batches(uris)[n]];
  }

  /** Every batch but the last holds exactly 100 uris. */
  lemma FullBatches(uris: seq<String>, k: nat)
    requires k + 1 < |Batches(uris)|
    ensures |Batches(uris)[k]| == BATCH_SIZE
  {
    BatchAt(uris, k);
    BatchAt(uris, k + 1);
  }

  // ---- Upstream requests ----

  datatype CreateRequest = CreateRequest(url: String, bearer: String, name: String, isPublic: bool)

  /** A rejected fetch, or a status, the text and the fields of the created playlist. */
  datatype CreateReply =
    | CreateUnreachable
    | CreateReply(status: int, text: String, playlistId: String, spotifyUrl: Option<String>)

  datatype AddRequest = AddRequest(url: String, bearer: String, uris: seq<String>)

  datatype AddReply = AddUnreachable | AddReply(status: int, text: String)

  function CreateRequestFor(spotifyId: String, accessToken: String, name: String): CreateRequest {
    CreateRequest("https://api.spotify.com/v1/users/" + spotifyId + "/playlists", accessToken, name, false)
  }

  function AddRequestFor(playlistId: String, accessToken: String, batch: seq<String>): AddRequest {
    AddRequest("https://api.spotify.com/v1/playlists/" + playlistId + "/tracks", accessToken, batch)
  }

  /** The answers to the add requests, batch by batch. */
  function Replies(playlistId: String, accessToken: String, bs: seq<seq<String>>, add: AddRequest -> AddReply)
    : (rs: seq<AddReply>)
    ensures |rs| == |bs| && forall k :: 0 <= k < |bs| ==> rs[k] == add(AddRequestFor(playlistId, accessToken, bs[k]))
  {
    seq(|bs|, k requires 0 <= k < |bs| => add(AddRequestFor(playlistId, accessToken, bs[k])))
  }

  predicate AddSucceeded(r: AddReply) {
    r.AddReply? && IsOk(r.status)
  }

  /** The index of the first add request that did not succeed. */
  function FirstFailure(rs: seq<AddReply>): (r: Option<nat>)
    ensures r.None? <==> forall k :: 0 <= k < |rs| ==> AddSucceeded(rs[k])
    ensures r.Some? ==>
      (r.value < |rs| && !AddSucceeded(rs[r.value]) && forall k :: 0 <= k < r.value ==> AddSucceeded(rs[k]))
  {
    if rs == [] then None
    else if !AddSucceeded(rs[0]) then Some(0)
    else match FirstFailure(rs[1..])
      case None => None
      case Some(k) => Some(k + 1)
  }

  // ---- The request body ----

  lemma DefaultNameIsTrimmed()
    ensures IsTrimmed(DEFAULT_NAME)
  {
    assert DEFAULT_NAME[0] == 'N' && DEFAULT_NAME[|DEFAULT_NAME| - 1] == 't';
  }

  /** `'New Playlist'.trim()` is the name itself. */
  lemma DefaultNameTrimmed()
    ensures Trim(DEFAULT_NAME) == DEFAULT_NAME
  {
    DefaultNameIsTrimmed();
    TrimOfTrimmed(DEFAULT_NAME);
  }

  /** `(body.name ?? 'New Playlist').trim()`: a name that is not a string throws (None). */
  function NameOf(v: Option<Json>): (r: Option<String>)
    ensures r.Some? ==> IsTrimmed(r.value)
    ensures v.None? || v == Some(JNull) ==> r == Some(DEFAULT_NAME)
    ensures v.Some? && v.value.JStr? ==> r == Some(Trim(v.value.s))
    ensures r.None? <==> v.Some? && !v.value.JNull? && !v.value.JStr?
  {
    if v.None? || v.value.JNull? then
      // the trim of the default name is the name itself (DefaultNameTrimmed)
      DefaultNameIsTrimmed();
      Some(DEFAULT_NAME)
    else if v.value.JStr? then Some(Trim(v.value.s))
    else None
  }

  /** `filter((u) => typeof u === 'string')`: the string entries, in order. */
  function StringsOf(xs: seq<Json>): (r: seq<String>)
    ensures |r| <= |xs|
    ensures forall s :: s in r <==> JStr(s) in xs
    ensures (forall i :: 0 <= i < |xs| ==> xs[i].JStr?) ==>
      |r| == |xs| && forall i :: 0 <= i < |xs| ==> r[i] == xs[i].s
  {
    if xs == [] then []
    else (if xs[0].JStr? then [xs[0].s] else []) + StringsOf(xs[1..])
  }

  /** The filter distributes over concatenation: order and repeated entries are kept. */
  lemma {:induction false} StringsOfAppend(xs: seq<Json>, ys: seq<Json>)
    ensures StringsOf(xs + ys) == StringsOf(xs) + StringsOf(ys)
  {
    if xs != [] {
      assert (xs + ys)[0] == xs[0];
      assert (xs + ys)[1..] == xs[1..] + ys;
      StringsOfAppend(xs[1..], ys);
    } else {
      assert xs + ys == ys;
    }
  }

  /** The string entries of `trackUris` in order; anything but an array gives []. */
  function UrisOf(v: Option<Json>): (r: seq<String>)
    ensures !(v.Some? && v.value.JArr?) ==> r == []
    ensures v.Some? && v.value.JArr? ==> r == StringsOf(v.value.elems)
    ensures v.Some? && v.value.JArr? && (forall i :: 0 <= i < |v.value.elems| ==> v.value.elems[i].JStr?) ==>
      |r| == |v.value.elems| && forall i :: 0 <= i < |r| ==> r[i] == v.value.elems[i].s
  {
    if v.Some? && v.value.JArr? then StringsOf(v.value.elems) else []
  }

  function SuccessBody(playlistId: String, spotifyUrl: Option<String>): Json {
    JObj(map["playlistId" := JStr(playlistId)] + (if spotifyUrl.Some? then map["url" := JStr(spotifyUrl.value)] else map[]))
  }

  /**
   * The batches sent and the failure met, given the answers to the add requests: all
   * batches and no failure if every request succeeds, else the batches up to and
   * including the first that failed, and its reply.
   */
  predicate Added(playlistId: String, accessToken: String, uris: seq<String>, add: AddRequest -> AddReply,
                  failed: Option<AddReply>, sent: seq<seq<String>>)
  {
    var rs := Replies(playlistId, accessToken, Batches(uris), add);
    && (FirstFailure(rs).None? ==> failed.None? && sent == Batches(uris))
    && (FirstFailure(rs).Some? ==>
          failed == Some(rs[FirstFailure(rs).value]) && sent == Batches(uris)[..FirstFailure(rs).value + 1])
  }

  /**
   * The response and the batches sent once the playlist exists: 200 with its id and
   * url after every batch, else the failure of the first batch that failed.
   */
  predicate Finished(playlistId: String, spotifyUrl: Option<String>, accessToken: String, uris: seq<String>,
                     add: AddRequest -> AddReply, response: Response, sent: seq<seq<String>>)
  {
    var rs := Replies(playlistId, accessToken, Batches(uris), add);
    && (FirstFailure(rs).None? ==>
          sent == Batches(uris) && response == JsonBody(200, SuccessBody(playlistId, spotifyUrl)))
    && (FirstFailure(rs).Some? ==>
          sent == Batches(uris)[..FirstFailure(rs).value + 1] && response == AddFailure(rs[FirstFailure(rs).value]))
  }

  /** The batch just sent failed after all before it succeeded: the loop stops with it. */
  lemma StopsAtFailure(playlistId: String, accessToken: String, uris: seq<String>, add: AddRequest -> AddReply,
                       reply: AddReply, sent: seq<seq<String>>)
    requires 0 < |sent| <= |Batches(uris)| && sent == Batches(uris)[..|sent|]
    requires var rs := Replies(playlistId, accessToken, Batches(uris), add);
      && rs[|sent| - 1] == reply && !AddSucceeded(reply)
      && forall k :: 0 <= k < |sent| - 1 ==> AddSucceeded(rs[k])
    ensures Added(playlistId, accessToken, uris, add, Some(reply), sent)
  {
    var rs := Replies(playlistId, accessToken, Batches(uris), add);
    var f := FirstFailure(rs);
    assert f.Some? && f.value == |sent| - 1 by {
      assert !AddSucceeded(rs[|sent| - 1]);
    }
  }

  /** Every batch was sent and succeeded: the loop ends with no failure. */
  lemma AllSucceeded(playlistId: String, accessToken: String, uris: seq<String>, add: AddRequest -> AddReply,
                     sent: seq<seq<String>>)
    requires sent == Batches(uris)
    requires var rs := Replies(playlistId, accessToken, Batches(uris), add);
      forall k :: 0 <= k < |sent| ==> AddSucceeded(rs[k])
    ensures Added(playlistId, accessToken, uris, add, None, sent)
  {
  }

  /**
   * The loop over the batches: one add request per batch, in order, stopping at the
   * first that does not succeed, which it returns with the batches sent so far.
   */
  method AddBatches(playlistId: String, accessToken: String, uris: seq<String>, add: AddRequest -> AddReply)
    returns (failed: Option<AddReply>, sent: seq<seq<String>>)
    ensures Added(playlistId, accessToken, uris, add, failed, sent)
  {
    ghost var bs := Batches(uris);
    ghost var rs := Replies(playlistId, accessToken, bs, add);
    BatchCount(uris);
    sent := [];
    var i := 0;
    while i < |uris|
      invariant i == BATCH_SIZE * |sent| && |sent| <= |bs|
      invariant |sent| < |bs| <==> i < |uris|
      invariant sent == bs[..|sent|]
      invariant forall k :: 0 <= k < |sent| ==> AddSucceeded(rs[k])
      decreases |uris| - i
    {
      NextBatch(uris, sent);
      var batch := uris[i..Min(i + BATCH_SIZE, |uris|)];
      var reply := add(AddRequestFor(playlistId, accessToken, batch));
      sent := sent + [batch];
      if !AddSucceeded(reply) {
        StopsAtFailure(playlistId, accessToken, uris, add, reply, sent);
        return Some(reply), sent;
      }
      i := i + BATCH_SIZE;
    }
    AllSucceeded(playlistId, accessToken, uris, add, sent);
    failed := None;
  }

  /** The response to a failed add request. */
  function AddFailure(reply: AddReply): Response {
    if reply.AddUnreachable? then InternalError else ErrorJson(reply.status, ADD_FAILED + reply.text)
  }

  /**
   * The handler. It returns the response and, for the proofs, the batches it sent.
   * No request is made before the guard, the body and the user lookup pass; after a
   * successful create, the batches sent are the first ones of `Batches(uris)`, all of
   * them unless one fails, and then exactly up to and including the failing one.
   */
  method Post(locals: Locals, db: Database, body: Json,
              create: CreateRequest -> CreateReply, add: AddRequest -> AddReply)
    returns (response: Response, sent: seq<seq<String>>)
    ensures RequireAuth(locals).Err? ==> response == UNAUTHORIZED && sent == []
    ensures RequireAuth(locals).Ok? && body.JNull? ==> response == InternalError && sent == []
    ensures RequireAuth(locals).Ok? && !body.JNull? ==>
      var id := RequireAuth(locals).value;
      var name := NameOf(Member(body, "name").value);
      var uris := UrisOf(Member(body, "trackUris").value);
      && (name.None? ==> response == InternalError && sent == [])
      && (name.Some? && (id.userId !in db.users || db.users[id.userId].spotifyId == []) ==>
            response == ErrorJson(400, NO_SPOTIFY_ID) && sent == [])
      && (name.Some? && id.userId in db.users && db.users[id.userId].spotifyId != [] ==>
            var created := create(CreateRequestFor(db.users[id.userId].spotifyId, id.accessToken, name.value));
            && (created.CreateUnreachable? ==> response == InternalError && sent == [])
            && (created.CreateReply? && !IsOk(created.status) ==>
                  response == ErrorJson(created.status, created.text) && sent == [])
            && (created.CreateReply? && IsOk(created.status) ==>
                  Finished(created.playlistId, created.spotifyUrl, id.accessToken, uris, add, response, sent)))
  {
    sent := [];
    var auth := RequireAuth(locals);
    if auth.Err? {
      return auth.error, sent;
    }
    var id := auth.value;
    if body.JNull? {
      return InternalError, sent;
    }
    var name := NameOf(Member(body, "name").value);
    if name.None? {
      return InternalError, sent;
    }
    var uris := UrisOf(Member(body, "trackUris").value);
    if id.userId !in db.users || db.users[id.userId].spotifyId == [] {
      return ErrorJson(400, NO_SPOTIFY_ID), sent;
    }
    response, sent := CreateAndFill(db.users[id.userId].spotifyId, id.accessToken, name.value, uris, create, add);
  }

  /** The create request, then, for a playlist that was created, the tracks. */
  method CreateAndFill(spotifyId: String, accessToken: String, name: String, uris: seq<String>,
                       create: CreateRequest -> CreateReply, add: AddRequest -> AddReply)
    returns (response: Response, sent: seq<seq<String>>)
    ensures var created := create(CreateRequestFor(spotifyId, accessToken, name));
      && (created.CreateUnreachable? ==> response == InternalError && sent == [])
      && (created.CreateReply? && !IsOk(created.status) ==>
            response == ErrorJson(created.status, created.text) && sent == [])
      && (created.CreateReply? && IsOk(created.status) ==>
            Finished(created.playlistId, created.spotifyUrl, accessToken, uris, add, response, sent))
  {
    sent := [];
    var created := create(CreateRequestFor(spotifyId, accessToken, name));
    if created.CreateUnreachable? {
      return InternalError, sent;
    }
    if !IsOk(created.status) {
      return ErrorJson(created.status, created.text), sent;
    }
    response, sent := AddTracks(created.playlistId, created.spotifyUrl, accessToken, uris, add);
  }

  /**
   * What the handler does once the playlist exists: the batches, when there are tracks,
   * then the success body or the first failure.
   */
  method AddTracks(playlistId: String, spotifyUrl: Option<String>, accessToken: String, uris: seq<String>,
                   add: AddRequest -> AddReply)
    returns (response: Response, sent: seq<seq<String>>)
    ensures Finished(playlistId, spotifyUrl, accessToken, uris, add, response, sent)
  {
    var failed: Option<AddReply> := None;
    sent := [];
    if |uris| > 0 {
      failed, sent := AddBatches(playlistId, accessToken, uris, add);
      if failed.Some? {
        response := AddFailure(failed.value);
        return;
      }
    } else {
      assert Batches(uris) == [];
    }
    response := JsonBody(200, SuccessBody(playlistId, spotifyUrl));
  }
}
