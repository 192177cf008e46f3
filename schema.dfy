/**
 * The three application tables (`users`, `sessions`, `blocked_artists`) with
 * the constraints the schema declares: primary keys, the unique and non-null
 * `spotify_id`, the foreign keys to `users.id` with cascading delete, and the
 * serial id of `blocked_artists`. Rows are keyed by their primary key; the
 * blocked artists are kept in insertion order, as their serial ids are.
 */
module Schema {
  import opened Wrappers
  import opened JsString

  datatype UserRow = UserRow(spotifyId: String, displayName: Option<String>, imageUrl: Option<String>, createdAt: int)

  /** Every column of a session row is NOT NULL. Instants are millisecond counts. */
  datatype SessionRow = SessionRow(userId: String, accessToken: String, refreshToken: String, expiresAt: int)

  datatype BlockedArtistRow = BlockedArtistRow(id: nat, userId: String, spotifyArtistId: String, name: String, createdAt: int)

  /** `users.spotify_id` is UNIQUE. */
  ghost predicate SpotifyIdsUnique(users: map<String, UserRow>) {
    forall a, b :: a in users && b in users && users[a].spotifyId == users[b].spotifyId ==> a == b
  }

  /** `sessions.user_id` REFERENCES `users.id`. */
  ghost predicate SessionsReferenceUsers(users: map<String, UserRow>, sessions: map<String, SessionRow>) {
    forall s :: s in sessions ==> sessions[s].userId in users
  }

  /** `blocked_artists.user_id` REFERENCES `users.id`. */
  ghost predicate BlockedReferenceUsers(users: map<String, UserRow>, blocked: seq<BlockedArtistRow>) {
    forall i :: 0 <= i < |blocked| ==> blocked[i].userId in users
  }

  /** `blocked_artists.id` is a SERIAL primary key: increasing in insertion order, below the next value. */
  ghost predicate SerialIds(blocked: seq<BlockedArtistRow>, next: nat) {
    && IdsIncreasing(blocked)
    && (forall i :: 0 <= i < |blocked| ==> blocked[i].id < next)
  }

  ghost predicate IdsIncreasing(blocked: seq<BlockedArtistRow>) {
    forall i, j :: 0 <= i < j < |blocked| ==> blocked[i].id < blocked[j].id
  }

  ghost predicate Consistent(users: map<String, UserRow>, sessions: map<String, SessionRow>,
                             blocked: seq<BlockedArtistRow>, next: nat) {
    && SpotifyIdsUnique(users)
    && SessionsReferenceUsers(users, sessions)
    && BlockedReferenceUsers(users, blocked)
    && SerialIds(blocked, next)
  }

  /** The schema itself does not keep a user from blocking the same artist twice. */
  lemma SchemaAllowsDuplicateBlocks()
    ensures exists users, blocked: seq<BlockedArtistRow> ::
      && Consistent(users, map[], blocked, 2)
      && |blocked| == 2 && blocked[0].userId == blocked[1].userId
      && blocked[0].spotifyArtistId == blocked[1].spotifyArtistId
  {
    var users := map["u" := UserRow("sp", None, None, 0)];
    var blocked := [BlockedArtistRow(0, "u", "a", "A", 0), BlockedArtistRow(1, "u", "a", "A", 0)];
    assert Consistent(users, map[], blocked, 2);
  }

  /** The id of the user whose `spotify_id` is `spotifyId`, if there is one. */
  ghost function UserBySpotifyId(users: map<String, UserRow>, spotifyId: String): (r: Option<String>)
    ensures r.Some? ==> r.value in users && users[r.value].spotifyId == spotifyId
    ensures r.None? ==> forall u :: u in users ==> users[u].spotifyId != spotifyId
  {
    if exists u :: u in users && users[u].spotifyId == spotifyId then
      Some(var u :| u in users && users[u].spotifyId == spotifyId; u)
    else None
  }

  /** With unique Spotify ids, the lookup finds exactly the row that carries the id. */
  lemma UserBySpotifyIdFinds(users: map<String, UserRow>, u: String)
    requires SpotifyIdsUnique(users) && u in users
    ensures UserBySpotifyId(users, users[u].spotifyId) == Some(u)
  {
  }

  /** The rows of `blocked_artists` whose `user_id` is `userId`, in row order. */
  function RowsOfUser(blocked: seq<BlockedArtistRow>, userId: String): (r: seq<BlockedArtistRow>)
    ensures forall i :: 0 <= i < |r| ==> r[i].userId == userId
    ensures forall x :: x in r <==> x in blocked && x.userId == userId
    ensures |r| <= |blocked|
  {
    if blocked == [] then []
    else
      var rest := RowsOfUser(blocked[1..], userId);
      if blocked[0].userId == userId then [blocked[0]] + rest else rest
  }

  /** A row below every row of an increasing list can be put in front of it. */
  lemma ConsIncreasing(head: BlockedArtistRow, rest: seq<BlockedArtistRow>)
    requires IdsIncreasing(rest)
    requires forall x :: x in rest ==> head.id < x.id
    ensures IdsIncreasing([head] + rest)
  {
    var r := [head] + rest;
    forall i, j | 0 <= i < j < |r| ensures r[i].id < r[j].id {
      assert r[j] == rest[j - 1];
      if i > 0 { assert r[i] == rest[i - 1]; } else { assert rest[j - 1] in rest; }
    }
  }

  /** In an increasing list, the first row is below every row after it. */
  lemma HeadBelowTail(blocked: seq<BlockedArtistRow>)
    requires blocked != [] && IdsIncreasing(blocked)
    ensures IdsIncreasing(blocked[1..])
    ensures forall x :: x in blocked[1..] ==> blocked[0].id < x.id
  {
    var tail := blocked[1..];
    forall x | x in tail ensures blocked[0].id < x.id {
      var k :| 0 <= k < |tail| && tail[k] == x;
      assert blocked[k + 1] == x;
    }
  }

  /** The caller's rows keep their relative order. */
  lemma {:induction false} RowsOfUserKeepOrder(blocked: seq<BlockedArtistRow>, userId: String)
    requires IdsIncreasing(blocked)
    ensures IdsIncreasing(RowsOfUser(blocked, userId))
  {
    if blocked != [] {
      HeadBelowTail(blocked);
      RowsOfUserKeepOrder(blocked[1..], userId);
      var rest := RowsOfUser(blocked[1..], userId);
      if blocked[0].userId == userId {
        ConsIncreasing(blocked[0], rest);
      }
    }
  }

  class Database {
    var users: map<String, UserRow>
    var sessions: map<String, SessionRow>
    var blocked: seq<BlockedArtistRow>
    var nextBlockedId: nat

    ghost predicate Valid()
      reads this
    {
      Consistent(users, sessions, blocked, nextBlockedId)
    }

    constructor ()
      ensures Valid()
      ensures users == map[] && sessions == map[] && blocked == [] && nextBlockedId == 1
    {
      users, sessions, blocked, nextBlockedId := map[], map[], [], 1;
    }

    /** INSERT INTO users; the caller has checked that neither the id nor the Spotify id is taken. */
    method InsertUser(id: String, row: UserRow)
      requires Valid()
      requires id !in users
      requires UserBySpotifyId(users, row.spotifyId).None?
      modifies this
      ensures Valid()
      ensures users == old(users)[id := row]
      ensures sessions == old(sessions) && blocked == old(blocked) && nextBlockedId == old(nextBlockedId)
    {
      users := users[id := row];
    }

    /** INSERT INTO sessions; the id is fresh and the user exists. */
    method InsertSession(id: String, row: SessionRow)
      requires Valid()
      requires id !in sessions
      requires row.userId in users
      modifies this
      ensures Valid()
      ensures sessions == old(sessions)[id := row]
      ensures users == old(users) && blocked == old(blocked) && nextBlockedId == old(nextBlockedId)
    {
      sessions := sessions[id := row];
    }

    /** UPDATE sessions SET access_token, expires_at WHERE id = ...: no effect when there is no such row. */
    method UpdateSessionTokens(id: String, accessToken: String, expiresAt: int)
      requires Valid()
      modifies this
      ensures Valid()
      ensures sessions == if id in old(sessions)
        then old(sessions)[id := old(sessions)[id].(accessToken := accessToken, expiresAt := expiresAt)]
        else old(sessions)
      ensures users == old(users) && blocked == old(blocked) && nextBlockedId == old(nextBlockedId)
    {
      if id in sessions {
        sessions := sessions[id := sessions[id].(accessToken := accessToken, expiresAt := expiresAt)];
      }
    }

    /** DELETE FROM sessions WHERE id = ... */
    method DeleteSession(id: String)
      requires Valid()
      modifies this
      ensures Valid()
      ensures sessions == old(sessions) - {id}
      ensures users == old(users) && blocked == old(blocked) && nextBlockedId == old(nextBlockedId)
    {
      sessions := sessions - {id};
    }

    /**
     * INSERT INTO blocked_artists ... RETURNING *: the row gets the next serial id;
     * the foreign key rejects (None) a user id that is not in `users`.
     */
    method InsertBlockedArtist(userId: String, spotifyArtistId: String, name: String, createdAt: int)
      returns (inserted: Option<BlockedArtistRow>)
      requires Valid()
      modifies this
      ensures Valid()
      ensures inserted.Some? <==> userId in users
      ensures inserted.Some? ==>
        && inserted.value == BlockedArtistRow(old(nextBlockedId), userId, spotifyArtistId, name, createdAt)
        && blocked == old(blocked) + [inserted.value] && nextBlockedId == old(nextBlockedId) + 1
      ensures inserted.None? ==> blocked == old(blocked) && nextBlockedId == old(nextBlockedId)
      ensures users == old(users) && sessions == old(sessions)
    {
      if userId !in users {
        return None;
      }
      var row := BlockedArtistRow(nextBlockedId, userId, spotifyArtistId, name, createdAt);
      blocked := blocked + [row];
      nextBlockedId := nextBlockedId + 1;
      inserted := Some(row);
    }

    /** DELETE FROM users WHERE id = ...: ON DELETE CASCADE removes the user's sessions and blocked artists. */
    method DeleteUser(id: String)
      requires Valid()
      modifies this
      ensures Valid()
      ensures users == old(users) - {id}
      ensures sessions == map s | s in old(sessions) && old(sessions)[s].userId != id :: old(sessions)[s]
      ensures blocked == RemoveRowsOfUser(old(blocked), id)
      ensures nextBlockedId == old(nextBlockedId)
    {
      users := users - {id};
      sessions := map s | s in sessions && sessions[s].userId != id :: sessions[s];
      RemoveRowsKeepsSerial(blocked, nextBlockedId, id);
      blocked := RemoveRowsOfUser(blocked, id);
    }
  }

  function RemoveRowsOfUser(blocked: seq<BlockedArtistRow>, userId: String): (r: seq<BlockedArtistRow>)
    ensures forall x :: x in r <==> x in blocked && x.userId != userId
  {
    if blocked == [] then []
    else
      var rest := RemoveRowsOfUser(blocked[1..], userId);
      if blocked[0].userId == userId then rest else [blocked[0]] + rest
  }

  lemma {:induction false} RemoveRowsKeepsSerial(blocked: seq<BlockedArtistRow>, next: nat, userId: String)
    requires SerialIds(blocked, next)
    ensures SerialIds(RemoveRowsOfUser(blocked, userId), next)
  {
    RemoveRowsKeepOrder(blocked, userId);
    var r := RemoveRowsOfUser(blocked, userId);
    forall i | 0 <= i < |r| ensures r[i].id < next {
      assert r[i] in blocked;
    }
  }

  lemma {:induction false} RemoveRowsKeepOrder(blocked: seq<BlockedArtistRow>, userId: String)
    requires IdsIncreasing(blocked)
    ensures IdsIncreasing(RemoveRowsOfUser(blocked, userId))
  {
    if blocked != [] {
      HeadBelowTail(blocked);
      RemoveRowsKeepOrder(blocked[1..], userId);
      var rest := RemoveRowsOfUser(blocked[1..], userId);
      if blocked[0].userId != userId {
        ConsIncreasing(blocked[0], rest);
      }
    }
  }
}
