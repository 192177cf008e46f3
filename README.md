# playlistify — a Dafny model of its session, OAuth and playlist rules

playlistify is a SvelteKit web application that signs a user in with Spotify
(OAuth 2.0 authorization-code flow), asks a language model for an "Artist - Track"
playlist in the style of some seeds, resolves each line with the Spotify search API,
and saves the result as a private Spotify playlist. Users can keep a per-user
blocklist of artists.

This project models the logic core of the application and proves properties of it:

- **Cookie signing and the session store** (`Session`). The rolling-hash signature
  `h := 31*h + c` wraps to signed 32 bits and is rendered in base 36. The model
  covers the `value.signature` envelope of the state cookie and the session cookie,
  the session-cookie search in a `Cookie` header, the read-only lookup, the
  refreshing lookup and session creation. The `sessions` table is a map from id to row.
- **The OAuth flow.** This covers the authorization URL, the token requests and the
  replies (`SpotifyAuth`), and login initiation (`LoginRoute`). The callback
  (`CallbackRoute`) checks in this order: provider error, state, code, exchange,
  profile, user lookup. It then finds or creates the user and creates a session.
  Logout is `LogoutRoute`.
- **The request guard and the allow-list gate** (`Guard`, `Hooks`) over the request's
  locals (`Event`).
- **The schema** (`Schema`): the three tables with their keys, the unique Spotify id,
  the foreign keys with cascading delete, and the serial ids.
- **The playlist features:**
  - prompt building, reply parsing, search-result mapping and the result filter
    (`GeneratePlaylist`);
  - body sanitisation and the limit clamp (`GenerateRoute`);
  - 100-item batching (`CreatePlaylistRoute`);
  - bounded, host-guarded pagination (`PlaylistsRoute`);
  - the blocklist check-then-insert (`BlocklistRoute`);
  - search validation (`SearchRoute`);
  - the profile projection (`MeRoute`);
  - the home page's error whitelist (`HomePage`).

These outside calls are parameters of the model: the network (Spotify's token,
profile, search and playlist endpoints, and the language model), `crypto.randomUUID`
and the clock. Two database failures are parameters too, the two the code catches:
the callback's user lookup (`lookupFails`) and the refresh's update of the session
row (`updateFails`). Other database failures are left out (see below). Shared helper modules model
what the source takes from JavaScript and the framework:
- `Wrappers`: Option and Result;
- `JsString`: `trim`, `indexOf`, `split`, `join`, `toString(radix)` and its parser;
- `Json`: JSON values, with `String(v)`, `Number(v)` and property reads;
- `Http`: query parameters, redirect targets and responses;
- `Config`: the environment record;
- `Cookies`: the response cookie jar.

The regular expression `^(.+?)\s*[-–—|]\s*(.+)$` of the line parser is specified as
a predicate over match positions (`RegexMatch`). Its lazy first group takes the
*shortest* artist. So "Jay-Z - Song" parses as artist "Jay" and track "Z - Song",
as the code does (`ArtistEndsAtFirstSeparator` states this for every such line).

The result filter tests artist ids only (`generatePlaylist.ts:98`). Blocked names
reach the language model only as a request in the prompt.

## Model

| member | source | states |
|---|---|---|
| Session.SecureCompare | src/lib/auth/session.ts:11-16 | the loop ORs the XOR of each character pair; it returns true exactly when the two strings are equal, and strings of different lengths are rejected |
| Session.ToInt32 | src/lib/auth/session.ts:24-25 | the result is a signed 32-bit integer congruent to its argument modulo 2^32, and an int32 is left unchanged |
| Session.ShiftSubtractStep | src/lib/auth/session.ts:24-25 | `(h << 5) - h + c` followed by `h & h` is the step ToInt32(31*h + c) |
| Session.RollingHash | src/lib/auth/session.ts:20-26 | the hash of the data, folded left from 0, is always a signed 32-bit integer |
| Session.Signature | src/lib/auth/session.ts:18-28 | the signature is non-empty and has no '.' or ';'; read back in base 36 it is the rolling hash of value + "." + secret |
| Session.Sign | src/lib/auth/session.ts:18-28 | the loop over `data` computes exactly the signature |
| Session.HashSeparatesOneCharChange | src/lib/auth/session.ts:20-26 | two strings that differ in one character hash to different values modulo 2^32 |
| Session.Seal | src/lib/auth/session.ts:30-33 | for a value without '.', the first '.' of the envelope sits right after the value; a value without ';' gives an envelope without ';' |
| Session.Unseal | src/lib/auth/session.ts:35-41 | a value is returned exactly when the envelope has a '.' and the part after the first '.' is the signature of the part before; that value has no '.' and seals back to the envelope |
| Session.SealUnseal | src/lib/auth/session.ts:30-41 | unsealing a sealed value with the same secret gives back every value without '.' |
| Session.UnsealRejectsOneCharChange | src/lib/auth/session.ts:35-41 | an envelope whose value was altered in one character, keeping the old signature, is rejected |
| Session.SealValue | src/lib/auth/session.ts:30-33 | `setStateCookie` builds the envelope `Seal` |
| Session.VerifyStateCookie | src/lib/auth/session.ts:35-41 | `verifyStateCookie` returns exactly `Unseal` of the cookie |
| Session.UuidIsCookieSafe | src/lib/auth/session.ts:127 | a UUID is non-empty and has no '.' or ';', so it survives sealing and the cookie search |
| Session.CookieMatchFrom | src/lib/auth/session.ts:45-46 | the capture of `playlistify_session=([^;]+)`: none exactly when the pattern matches nowhere; otherwise the run of non-';' characters after the leftmost match, which is non-empty |
| Session.CookieMatchAtStart | src/lib/auth/session.ts:45-46 | a header starting with the cookie name and a ';'-free value captures exactly that value |
| Session.LeftmostMatchCaptured | src/lib/auth/session.ts:45-46 | when the pattern first matches at a position, the capture is the value there |
| Session.CookieMatchAfterOthers | src/lib/auth/session.ts:45-46 | cookies before the sought one, not containing its name, do not disturb the capture |
| Session.SessionIdFromCookie | src/lib/auth/session.ts:43-53 | a missing header or a header where the pattern matches nowhere gives null; otherwise the result is the unsealed capture, and a recovered id has no '.' or ';' |
| Session.SessionCookieRoundTrip | src/lib/auth/session.ts:43-62 | a header starting with `playlistify_session=` and the sealed id yields that id, for any id without '.' or ';' |
| Session.SessionCookieAfterOthers | src/lib/auth/session.ts:43-53 | a header where the session cookie follows other cookies (`a=1; playlistify_session=...`) yields the sealed id |
| Session.GetSessionIdFromCookie | src/lib/auth/session.ts:43-53 | `getSessionIdFromCookie` returns exactly `SessionIdFromCookie` |
| Session.SessionKey | src/lib/auth/session.ts:73-74 | an empty recovered id counts as none |
| Session.BuildSessionCookie | src/lib/auth/session.ts:55-58 | the Set-Cookie text carries the same sealed value as `getSessionCookieValue`, the fixed attributes, the Max-Age, and `Secure` only when asked |
| Session.BuiltCookieCarriesId | src/lib/auth/session.ts:43-58 | a built session cookie, sent back as a Cookie header, yields the id it was built for |
| Session.ClearSessionCookie | src/lib/auth/session.ts:64-66 | the clearing cookie is the session cookie with an empty value and Max-Age 0 |
| Session.LiveSession | src/lib/auth/session.ts:76-85 | an identity is returned exactly when the row exists and `now < expiresAt`; it holds the row's userId and accessToken |
| Session.IssuedCookieFindsSession | src/lib/auth/session.ts:68-86 | the cookie issued for an unexpired stored session resolves to that session's user |
| Session.GetSession | src/lib/auth/session.ts:68-86 | `getSession` returns `LiveSession` of the cookie's id and writes nothing |
| Session.AfterRefresh | src/lib/auth/session.ts:103-114 | an identity is returned exactly when the refresh succeeds and the update does not fail; then only that row's accessToken and expiresAt (= now + expiresIn*1000) change, and userId and refreshToken are kept. Otherwise exactly that row is deleted |
| Session.GetSessionWithRefresh | src/lib/auth/session.ts:88-118 | three outcomes. A live session is returned unchanged. An expired one whose refresh and update both succeed changes only that row's accessToken and expiresAt. A failed refresh or a failed update deletes exactly that row and returns null. Other tables are unchanged |
| Session.CreateSession | src/lib/auth/session.ts:120-137 | exactly one row is inserted under the fresh id, holding the given tokens and expiresAt = now + expiresIn*1000; the foreign key rejects an unknown user |
| SpotifyAuth.NormalizeRedirectUri | src/lib/auth/spotify.ts:15 | at most one trailing '/' is removed, and a missing value becomes '' |
| SpotifyAuth.AuthorizeUrl | src/lib/auth/spotify.ts:14-24 | the URL carries client_id, response_type=code, the normalised redirect_uri, the five scopes space-joined in order, and the state unchanged |
| SpotifyAuth.BasicCredentialsSplit | src/lib/auth/spotify.ts:36 | "clientId:clientSecret" (missing parts '') splits back into its two parts when the id has no ':' |
| SpotifyAuth.ExchangeRequest | src/lib/auth/spotify.ts:30-44 | the form is grant_type=authorization_code, code and the same normalised redirect_uri as the authorization URL, with Basic credentials (section 4.1.3 of RFC 6749) |
| SpotifyAuth.RefreshRequest | src/lib/auth/spotify.ts:65-77 | the form holds only grant_type=refresh_token and refresh_token (section 6 of RFC 6749) |
| SpotifyAuth.ExchangeCodeForTokens | src/lib/auth/spotify.ts:26-59 | tokens are returned exactly for a 2xx reply, copied field for field; a non-2xx reply is an error carrying its status and text |
| SpotifyAuth.RefreshAccessToken | src/lib/auth/spotify.ts:61-84 | as for the exchange, but the result carries no refresh token |
| LoginRoute.Get | src/routes/auth/spotify/+server.ts:6-25 | without the client id, redirect URI or secret: a plain-text 503 and no cookie. Otherwise the sealed state goes into the state cookie (path /, httpOnly, lax, 600 s), it unseals to the state, and there is a 302 to the authorization URL carrying the raw state |
| CallbackRoute.Decide | src/routes/auth/spotify/callback/+server.ts:15-73 | the precedence of the checks: configuration (500), then provider error (which also clears the state cookie), then state mismatch; past those, the answer is that of the later checks. A sign-in happens exactly when every check passed |
| CallbackRoute.AfterStateCheck | src/routes/auth/spotify/callback/+server.ts:36-73 | missing code gives no_code, a failed exchange token_exchange_failed, an unreachable profile endpoint 500, a non-ok profile me_failed, a failed lookup db_setup; otherwise a sign-in with the tokens and the profile's id, name and first image |
| CallbackRoute.LoginStatePassesStateCheck | src/routes/auth/spotify/callback/+server.ts:30-34 | the state the login route issued, returned with its cookie, passes the state check |
| CallbackRoute.ForeignStateIsRefused | src/routes/auth/spotify/callback/+server.ts:30-34 | a cookie sealed for a different state is refused |
| CallbackRoute.Get | src/routes/auth/spotify/callback/+server.ts:15-104 | every stop leaves users and sessions as they were. A sign-in reuses the user with that Spotify id or inserts exactly one, so Spotify ids stay unique. It then inserts exactly one session, sets the session cookie (30 days, Secure iff https), deletes the state cookie and redirects to / |
| CallbackRoute.CompleteSignIn | src/routes/auth/spotify/callback/+server.ts:72-103 | the find-or-create of the user, the session insert and the two cookie writes of a sign-in |
| LogoutRoute.SessionToDelete | src/routes/auth/logout/+server.ts:11-17 | a row is targeted exactly when the database URL and secret are set and the cookie verifies; the target is the recovered id |
| LogoutRoute.LogoutTargetsIssuedSession | src/routes/auth/logout/+server.ts:11-17 | the cookie issued for a session targets exactly that session |
| LogoutRoute.Post | src/routes/auth/logout/+server.ts:8-21 | at most the targeted row is deleted and all other rows are unchanged; the session cookie is always deleted and the response is always a 302 to / |
| Guard.RequireAuth | src/lib/api/auth.ts:4-14 | the identity is returned exactly when there is a user with a non-empty id and a non-empty access token, and it carries both unchanged; otherwise the 401 JSON response. Only the locals are read |
| Hooks.SpotifyAccountOf | src/hooks.server.ts:20-35 | the first Spotify account row of the user, or none when the user has no such row |
| Hooks.Decide | src/hooks.server.ts:9-56 | while building, or without user and session, the request passes through. A user is admitted exactly when the allow list admits their account. A denial redirects unless the path is already /access-denied |
| Hooks.UnsetAllowListAdmitsAll | src/hooks.server.ts:37-38 | with no allow list, every signed-in user is admitted |
| Hooks.AllowListAdmitsExactlyItsAccount | src/hooks.server.ts:37-46 | with an allow list, admission happens exactly when the first Spotify account's id is the listed one |
| Hooks.Handle | src/hooks.server.ts:9-57 | locals are set only on admission: session, user and the account id or null, plus the access token only when it is non-empty. A denial or pass-through leaves them unchanged |
| Schema.UserBySpotifyId | src/lib/db/schema.ts:5 | the user found carries the Spotify id; none is found only when no user does |
| Schema.UserBySpotifyIdFinds | src/lib/db/schema.ts:5 | with unique Spotify ids, the lookup finds exactly the row that carries the id |
| Schema.SchemaAllowsDuplicateBlocks | src/lib/db/schema.ts:21-29 | a consistent table can hold the same artist twice for one user: the schema has no such constraint |
| Schema.RowsOfUser | src/lib/db/schema.ts:23-25 | exactly the rows of the user, no more rows than the table |
| Schema.RowsOfUserKeepOrder | src/lib/db/schema.ts:22 | the user's rows keep the increasing serial-id order |
| Schema.Database.InsertUser | src/lib/db/schema.ts:3-9 | the insert keeps the keys, the unique Spotify id and the foreign keys valid, and adds exactly the row |
| Schema.Database.InsertSession | src/lib/db/schema.ts:11-19 | the insert adds exactly the row, whose user exists |
| Schema.Database.UpdateSessionTokens | src/lib/db/schema.ts:11-19 | only the tokens and expiry of that one row change |
| Schema.Database.DeleteSession | src/lib/db/schema.ts:11-19 | exactly that row is removed |
| Schema.Database.InsertBlockedArtist | src/lib/db/schema.ts:21-29 | the row gets the next serial id; the foreign key rejects an unknown user |
| Schema.Database.DeleteUser | src/lib/db/schema.ts:13-15 | deleting a user cascades to their sessions and blocked artists, keeping the serial order |
| Schema.RemoveRowsKeepsSerial | src/lib/db/schema.ts:22-25 | the cascade keeps the serial ids increasing and below the next value |
| GeneratePlaylist.SeedPartsOf | src/lib/ai/generatePlaylist.ts:36-43 | one part for the artists if any, one for the genres if any, and one per reference playlist |
| GeneratePlaylist.SeedParts | src/lib/ai/generatePlaylist.ts:36-43 | the loop pushes exactly the parts of `SeedPartsOf` |
| GeneratePlaylist.SeedBlock | src/lib/ai/generatePlaylist.ts:44 | the seed block is empty exactly when there are no parts |
| GeneratePlaylist.BlockBlock | src/lib/ai/generatePlaylist.ts:45-48 | the blocked-artist instruction appears exactly when there are blocked names |
| GeneratePlaylist.PromptLine | src/lib/ai/generatePlaylist.ts:49 | the "Additional direction" line appears exactly when the prompt is non-blank, and carries the untrimmed prompt |
| GeneratePlaylist.MessageAsksForLimit | src/lib/ai/generatePlaylist.ts:58-60 | the message always ends by asking for exactly `limit` songs |
| GeneratePlaylist.TextsOf | src/lib/ai/generatePlaylist.ts:70-72 | exactly the texts of the "text" blocks that carry a text are kept; one block gives its text or nothing |
| GeneratePlaylist.TextsOfAppend | src/lib/ai/generatePlaylist.ts:70-72 | the texts of two runs of blocks are the texts of each, in block order, so the kept texts keep their order |
| GeneratePlaylist.TrimmedNonEmpty | src/lib/ai/generatePlaylist.ts:76-77 | every kept line is trimmed and non-empty; one part gives its trim, or nothing when it is blank |
| GeneratePlaylist.TrimmedNonEmptyComplete | src/lib/ai/generatePlaylist.ts:76-77 | no part that is not blank is lost: its trim is among the lines |
| GeneratePlaylist.TrimmedNonEmptyAppend | src/lib/ai/generatePlaylist.ts:76-77 | the lines of two runs of parts are the lines of each, in order, so lines keep their order and repeats |
| GeneratePlaylist.Lines | src/lib/ai/generatePlaylist.ts:74-77 | every line is trimmed, non-empty and free of '\n', and every part of the split that is not blank is among the lines, trimmed |
| GeneratePlaylist.LinesOfJoined | src/lib/ai/generatePlaylist.ts:74-77 | trimmed, non-empty, newline-free lines joined by '\n' split back into themselves |
| GeneratePlaylist.TrackStart | src/lib/ai/generatePlaylist.ts:81 | the second group starts at the last position the regex allows after the separator, and does not start at all when nothing can follow |
| GeneratePlaylist.MatchFrom | src/lib/ai/generatePlaylist.ts:81 | the backtracking search finds the leftmost end of group 1 that matches and, for it, the longest group 2; none is found only when the line does not match |
| GeneratePlaylist.ParseLineIffMatch | src/lib/ai/generatePlaylist.ts:81-84 | a pair is produced exactly when the line matches the regex |
| GeneratePlaylist.ParsedPartsNonEmpty | src/lib/ai/generatePlaylist.ts:81-84 | artist and track of a pair are trimmed and non-empty |
| GeneratePlaylist.FirstMatch | src/lib/ai/generatePlaylist.ts:81-84 | the pair is the trimmed groups of the leftmost match with the longest track |
| GeneratePlaylist.ParseLineOfMatch | src/lib/ai/generatePlaylist.ts:81-84 | the pair is the two trimmed groups of the match found |
| GeneratePlaylist.ParseSplitsAt | src/lib/ai/generatePlaylist.ts:81-84 | a line with no earlier match splits at the given separator |
| GeneratePlaylist.ParseLineRoundTrip | src/lib/ai/generatePlaylist.ts:81-84 | "artist - track" parses back to the pair, for a trimmed artist without a separator and a trimmed track |
| GeneratePlaylist.ArtistEndsAtFirstSeparator | src/lib/ai/generatePlaylist.ts:81-84 | the artist ends at the first separator character, even inside a name such as "Jay-Z" |
| GeneratePlaylist.PairsNonEmpty | src/lib/ai/generatePlaylist.ts:79-85 | every parsed pair has a non-empty artist and track |
| GeneratePlaylist.PairsOfAppend | src/lib/ai/generatePlaylist.ts:79-85 | the pairs of two runs of lines are the pairs of each, in line order |
| GeneratePlaylist.PairsOfSnoc | src/lib/ai/generatePlaylist.ts:80-84 | one more line appends its pair, if it matches, at the end |
| GeneratePlaylist.ParsePairs | src/lib/ai/generatePlaylist.ts:79-85 | the forward loop that pushes keeps exactly the pairs of the matching lines, in order |
| GeneratePlaylist.SearchQuery | src/lib/ai/generatePlaylist.ts:111 | the query is `artist:<a> track:<t>` with every '"' removed from both parts, so it contains no '"' |
| GeneratePlaylist.SearchQueryOfQuoteFree | src/lib/ai/generatePlaylist.ts:111 | for quote-free parts the query is `artist:<a> track:<t>` |
| GeneratePlaylist.TrackOf | src/lib/ai/generatePlaylist.ts:112-128 | a non-ok reply or empty items gives null. Otherwise uri, name and album are copied, and the names (comma-joined) and ids follow the artist order. An unreachable search is an error |
| GeneratePlaylist.SearchAll | src/lib/ai/generatePlaylist.ts:88-90 | all searches succeed or the first failure is the error; the results are one per pair, in pair order |
| GeneratePlaylist.BlockedIdSet | src/lib/ai/generatePlaylist.ts:34 | definition: the set of the non-empty blocked ids. What it is for, that no result carries a blocked id, is stated by FilterDistinctUnblocked and GeneratedPlaylist |
| GeneratePlaylist.FilterResults | src/lib/ai/generatePlaylist.ts:92-103 | the loop with its seen-uri set computes exactly `Filter` |
| GeneratePlaylist.FilterBounded | src/lib/ai/generatePlaylist.ts:96 | never more results than `limit`, and none for a limit of 0 or less |
| GeneratePlaylist.FilterDistinctUnblocked | src/lib/ai/generatePlaylist.ts:93-99 | no two results share a uri, and no result has a blocked artist id |
| GeneratePlaylist.FilterSubsequence | src/lib/ai/generatePlaylist.ts:92-103 | the results are an order-preserving subsequence of the non-null search results |
| GeneratePlaylist.FilterComplete | src/lib/ai/generatePlaylist.ts:92-103 | below the limit, every non-null, unblocked search result is represented by its uri: items are skipped only as null, duplicate or blocked |
| GeneratePlaylist.GeneratedPlaylist | src/lib/ai/generatePlaylist.ts:27-104 | whatever the model and the searches answer, the playlist is within the limit, has distinct uris, and carries no non-empty blocked artist id |
| GeneratePlaylist.GeneratePlaylistWithAi | src/lib/ai/generatePlaylist.ts:27-104 | the method does the prompt, the call, the parse, the searches and the filter of `Generate` |
| GenerateRoute.SanitizeSeeds | src/routes/api/generate-playlist/+server.ts:26-31 | the first 10 entries of `NonBlank` of the array, in order, each cut to 200 characters (so 1 to 200 characters); a non-array gives [] |
| GenerateRoute.SeedsOfCleanList | src/routes/api/generate-playlist/+server.ts:26-31 | a list of at most 10 trimmed, non-empty, short strings passes unchanged |
| GenerateRoute.NonBlank | src/routes/api/generate-playlist/+server.ts:26-27 | each entry is `String(s).trim()`, and blanks are dropped: all kept entries are trimmed and non-empty; one entry gives its trim, or nothing when it is blank |
| GenerateRoute.NonBlankAppend | src/routes/api/generate-playlist/+server.ts:26-27 | the entries of two runs are the entries of each, in order, so kept entries keep their order and repeats |
| GenerateRoute.SanitizePlaylists | src/routes/api/generate-playlist/+server.ts:32-35 | for an array, exactly `ValidPlaylists` of its first 10 entries (so at most 10); a non-array gives [] |
| GenerateRoute.PlaylistsBeyondTenIgnored | src/routes/api/generate-playlist/+server.ts:32 | entries after the tenth never matter |
| GenerateRoute.ValidPlaylists | src/routes/api/generate-playlist/+server.ts:33-35 | only objects with string `name` and `trackSummary` are kept, cut to 200 and 2000 characters; one entry gives its cut pair, or nothing when it is not such an object |
| GenerateRoute.ValidPlaylistsAppend | src/routes/api/generate-playlist/+server.ts:33-35 | the playlists of two runs are the playlists of each, in order |
| GenerateRoute.SanitizePrompt | src/routes/api/generate-playlist/+server.ts:36 | a prompt exists exactly when the field is a string, and it is that string's first 500 characters |
| GenerateRoute.ClampLimit | src/routes/api/generate-playlist/+server.ts:37 | always in [1, 200]. Missing, 0 or NaN gives 20; a value in range is kept; a negative gives 1; above 200 gives 200 |
| GenerateRoute.LimitFromRenderedNumber | src/routes/api/generate-playlist/+server.ts:37 | a limit in [1, 200] sent as a decimal string is read as itself |
| GenerateRoute.Sanitize | src/routes/api/generate-playlist/+server.ts:25-37 | the sanitised body holds at most 10 of each kind of seed and a limit in [1, 200] |
| GenerateRoute.InputOf | src/routes/api/generate-playlist/+server.ts:46-59 | empty reference playlists are passed as undefined; blocked names and ids come from the user's rows in row order |
| GenerateRoute.Post | src/routes/api/generate-playlist/+server.ts:8-67 | in order: the guard, 503 without an API key (before the body is read), 400 when there are no seeds and a blank prompt. Past those checks the answer is the generation for this user's sanitised input and blocklist; a 200 is the generated tracks of that input |
| GenerateRoute.Generated | src/routes/api/generate-playlist/+server.ts:51-66 | a generation failure is a 500 with its message; success is the tracks |
| GenerateRoute.ReturnedPlaylist | src/routes/api/generate-playlist/+server.ts:46-61 | a 200 answer lists at most 200 tracks with distinct uris, none by an artist id on the caller's blocklist |
| CreatePlaylistRoute.BatchesPartition | src/routes/api/playlists/create/+server.ts:38-41 | the batches concatenate to the uri list, and each has 1 to 100 uris |
| CreatePlaylistRoute.BatchCount | src/routes/api/playlists/create/+server.ts:38-41 | there are ceil(n/100) batches, none for an empty list |
| CreatePlaylistRoute.BatchAt | src/routes/api/playlists/create/+server.ts:39-40 | batch k is the slice starting at 100k |
| CreatePlaylistRoute.FullBatches | src/routes/api/playlists/create/+server.ts:39-40 | every batch but the last holds exactly 100 uris |
| CreatePlaylistRoute.FirstFailure | src/routes/api/playlists/create/+server.ts:52-55 | the index of the first add request that failed, with all earlier ones succeeded; none when all succeeded |
| CreatePlaylistRoute.Replies | src/routes/api/playlists/create/+server.ts:42-50 | definition: the add request of each batch, in batch order. What the loop does with them is stated by AddBatches |
| CreatePlaylistRoute.NameOf | src/routes/api/playlists/create/+server.ts:10 | a string name gives its trim; a missing or null name gives "New Playlist"; any other value throws |
| CreatePlaylistRoute.DefaultNameTrimmed | src/routes/api/playlists/create/+server.ts:10 | `'New Playlist'.trim()` is the default name itself |
| CreatePlaylistRoute.UrisOf | src/routes/api/playlists/create/+server.ts:11 | the string entries of an array (an all-string array passes unchanged); a non-array gives [] |
| CreatePlaylistRoute.StringsOf | src/routes/api/playlists/create/+server.ts:11 | exactly the string entries are kept, and an all-string array passes unchanged |
| CreatePlaylistRoute.StringsOfAppend | src/routes/api/playlists/create/+server.ts:11 | the filter distributes over concatenation, so entries keep their order and repeats |
| CreatePlaylistRoute.AddBatches | src/routes/api/playlists/create/+server.ts:38-57 | the loop sends all batches when all succeed, otherwise exactly the batches up to the first failure, and returns that failure |
| CreatePlaylistRoute.Post | src/routes/api/playlists/create/+server.ts:6-63 | no upstream call before the guard, the body and the user's Spotify id pass (400 without it). The playlist is created non-public; a create failure returns the upstream status and text with no batch sent. Then the batches are sent as `AddBatches` says and the playlist id and url are returned |
| PlaylistsRoute.FetchedBounded | src/routes/api/playlists/+server.ts:15-17 | at most 20 pages are fetched, the first from the start URL, and every fetched URL starts with `https://api.spotify.com/` |
| PlaylistsRoute.CollectedFromPages | src/routes/api/playlists/+server.ts:15-29 | the items are the concatenation of the fetched pages' items in page order. A failure is the answer of the last page fetched, and the collected items are then discarded |
| PlaylistsRoute.OffHostEndsListing | src/routes/api/playlists/+server.ts:17 | a next link off the API host ends the listing without a fetch |
| PlaylistsRoute.NextOf | src/routes/api/playlists/+server.ts:25 | only a string `next` continues the loop |
| PlaylistsRoute.FollowPages | src/routes/api/playlists/+server.ts:12-29 | the loop fetches exactly the URLs of `Fetched` and answers with `Collected`: the items and their count, or the failing page's status and text |
| PlaylistsRoute.Get | src/routes/api/playlists/+server.ts:8-30 | the guard, then the pages from `https://api.spotify.com/v1/me/playlists?limit=50`, at most 20 of them |
| BlocklistRoute.Get | src/routes/api/blocklist/+server.ts:6-14 | the guard, then exactly the caller's rows in row order |
| BlocklistRoute.ListJson | src/routes/api/blocklist/+server.ts:13 | `{ blocklist }` lists the rows one for one, in order |
| BlocklistRoute.OptionalTrim | src/routes/api/blocklist/+server.ts:20 | `?.trim()`: a missing or null field gives undefined, a string its trim, anything else throws |
| BlocklistRoute.TrimOrEmpty | src/routes/api/blocklist/+server.ts:21 | `(x ?? '').trim()`: a missing or null field gives '', a string its trim, anything else throws |
| BlocklistRoute.AlreadyBlocked | src/routes/api/blocklist/+server.ts:29 | true exactly when one of the rows has the artist id |
| BlocklistRoute.ParseBody | src/routes/api/blocklist/+server.ts:19-24 | id and name are trimmed and non-empty. A non-string field throws (500); a missing or blank one gives 400 |
| BlocklistRoute.AppendKeepsOthers | src/routes/api/blocklist/+server.ts:33-41 | an insert leaves every other user's rows as they were |
| BlocklistRoute.AppendKeepsUnique | src/routes/api/blocklist/+server.ts:25-31 | inserting an artist the user has not blocked keeps per-user uniqueness, even when other users blocked it |
| BlocklistRoute.Post | src/routes/api/blocklist/+server.ts:16-43 | 400 or 409 insert nothing. Success appends exactly one row (caller, trimmed id and name, now) and returns it. Per-user uniqueness is preserved, and other users' rows are unchanged |
| SearchRoute.Query | src/routes/api/search/+server.ts:8-10 | q is trimmed, and kept exactly when at least two characters remain |
| SearchRoute.SearchType | src/routes/api/search/+server.ts:9 | type defaults to "artist,track" when absent or empty |
| SearchRoute.CallFor | src/routes/api/search/+server.ts:13-16 | the upstream request carries q, the type and limit=20 |
| SearchRoute.Get | src/routes/api/search/+server.ts:6-23 | the guard first, then 400 for a missing or short query. An upstream failure passes its status and text through; success passes the data through |
| SearchRoute.RejectedWithoutUpstream | src/routes/api/search/+server.ts:10-12 | a rejected query is answered without the upstream service |
| SearchRoute.ShortQueryRejected | src/routes/api/search/+server.ts:8-12 | a query shorter than two characters after trimming gets 400 |
| MeRoute.OrNull | src/routes/api/me/+server.ts:13-15 | definition of `?? null`: an absent value is null, a present one itself. Its use in the profile is stated by NeverNotFound |
| MeRoute.Respond | src/routes/api/me/+server.ts:6-16 | 404 exactly when there is no user |
| MeRoute.Get | src/routes/api/me/+server.ts:4-17 | the guard first, then the user check |
| MeRoute.NeverNotFound | src/routes/api/me/+server.ts:5-16 | the answer is the 401 or the profile, never 404. `id` and `userId` are both the user's id, and the optional fields are the user's or null |
| HomePage.Load | src/routes/+page.server.ts:1-7 | the error is returned exactly when it is "token_exchange_failed" or "db_setup" |
| HomePage.LoadDependsOnErrorOnly | src/routes/+page.server.ts:3-7 | the result depends on the `error` parameter alone |
| HomePage.OtherCallbackCodesHidden | src/routes/+page.server.ts:6 | state_mismatch, no_code, me_failed, an empty and a missing error all give null |
| JsString.Trim | src/routes/api/search/+server.ts:8 | `trim` removes exactly the leading and trailing whitespace, leaving a trimmed infix |
| JsString.Split | src/lib/ai/generatePlaylist.ts:75 | `split('\n')` gives at least one part, none containing the separator |
| JsString.Take | src/routes/api/generate-playlist/+server.ts:36 | `slice(0, n)` is the prefix of length min(n, length): a shorter input is kept whole, a longer one is cut to exactly n |
| JsString.RemoveAll | src/lib/ai/generatePlaylist.ts:111 | `replace(/"/g, '')` removes every '"' and keeps every other character; a string without '"' is unchanged, and one character is kept exactly when it is not '"' |
| JsString.RemoveAllAppend | src/lib/ai/generatePlaylist.ts:111 | removal distributes over concatenation, so what is kept keeps its order and repeats |
| JsString.NonEmpty | src/routes/api/generate-playlist/+server.ts:27 | `.filter(Boolean)` keeps exactly the non-empty strings; one string is kept exactly when it is not empty |
| JsString.NonEmptyAppend | src/routes/api/generate-playlist/+server.ts:27 | the filter distributes over concatenation, so kept strings keep their order and repeats |
| JsString.IntToStringRoundTrip | src/lib/auth/session.ts:27 | `toString(radix)` of an integer parses back to it |
| Http.Lookup | src/routes/api/search/+server.ts:8-9 | `searchParams.get` finds a value exactly when a parameter has that name |
| Json.Member | src/routes/api/blocklist/+server.ts:19-21 | a property read throws exactly on a null body; a value found is the object's field |

## Left out

- BlocklistRoute.Post: per-user uniqueness is proved for requests handled one at a time. Two concurrent POSTs for the same artist can both pass the check (src/routes/api/blocklist/+server.ts:25-41) and both insert, which the schema allows (`SchemaAllowsDuplicateBlocks`).
- Strings are sequences of Unicode scalar values, not UTF-16 code units. `charCodeAt` of characters outside the Basic Multilingual Plane therefore differs from the model's character code.
- `Number(v)` is modelled for integers only. Fractional, exponent, hexadecimal and Infinity forms are left out; a fractional limit is outside the model.
- URL encoding (`URLSearchParams`, `encodeURIComponent`) and base64 (`btoa`) are left abstract: URLs are a base plus ordered parameters, and credentials are the text before encoding.
- Dates are millisecond counts. `new Date()` is the `now` parameter, one instant per request. The JSON rendering of `createdAt` (an ISO string in the source) is kept as the count.
- The network and the language model are oracle parameters. They cover Spotify's token, profile, search and playlist endpoints and the Anthropic call. Their replies are given already parsed; a reply body that fails to parse as JSON is not modelled.
- `crypto.randomUUID` values are parameters, assumed distinct from existing ids.
- The concurrent searches (`Promise.all`) are modelled as searches in pair order. The error reported when several fail is the first in that order. The refresh race between concurrent requests is not modelled.
- Request bodies are given as parsed JSON. A body that fails to parse becomes `{}` in the source, so the caller passes an empty object.
- `getDbFromEvent`, the database connection and the environment reader are not modelled. The database is the `Database` object, and the environment is the `Env` record.
- better-auth (`auth.api.getSession`, `getAccessToken`, `svelteKitHandler`) is not modelled: its answers are inputs of `Hooks.Handle`.
- `console.error` logging is not modelled.
- Queries without `orderBy` (the blocklist and user lookups) are modelled as returning rows in insertion order; the database does not promise an order.
- GeneratePlaylist.Generate: the language model's error message is carried as given.
- GeneratePlaylist.TrackOf: a search reply whose item list holds null, or whose artists lack an id or name, is outside the reply type.
- PlaylistsRoute.ItemsOf: a page whose `items` is neither an array nor null is outside the reply type.
- CallbackRoute.Get: insert failures other than the foreign key are not modelled; only the user lookup's failure (`db_setup`) is.
- Session.GetSessionWithRefresh: a failure of the delete in the catch handler, which would make the call throw, is not modelled.
- Database failures that no handler catches are not modelled. They make the route answer 500. This covers the select of `getSession`, the insert of `createSession`, the delete of logout, the blocklist select and insert, the blocked-artist query of playlist generation and the user select of playlist creation.
- The electron shell, the database scripts, the better-auth configuration, the layout load and the recent, genre-seed, playlist-detail and single-blocklist-entry routes are not part of this model.
