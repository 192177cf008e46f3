/**
 * `generatePlaylistWithAi`: build the prompt from the seeds, ask the language model
 * for "Artist - Track" lines, parse the lines, resolve every pair with one Spotify
 * search, then keep the results in order, at most `limit` of them, each uri once and
 * none by a blocked artist. The model and the search endpoint are parameters.
 */
module GeneratePlaylist {
  import opened Wrappers
  import opened JsString
  import opened Http

  datatype SeedPlaylist = SeedPlaylist(name: String, trackSummary: String)

  datatype GenerateInput = GenerateInput(
    seedArtists: seq<String>,
    seedGenres: seq<String>,
    seedPlaylists: Option<seq<SeedPlaylist>>,
    prompt: Option<String>,
    limit: int,
    blockedArtistNames: seq<String>,
    blockedArtistIds: seq<String>)

  datatype TrackResult = TrackResult(uri: String, name: String, artists: String, artistIds: seq<String>, album: Option<String>)

  // ---- The prompt ----

  const MODEL: String := "claude-sonnet-4-6"
  const MAX_TOKENS: nat := 4096

  const SYSTEM_PROMPT: String :=
    "You are a music curator. Reply with only a playlist: one line per song in the exact format \"Artist - Track Name\".\n"
    + "No numbering, no extra text, no explanations.\n"
    + "Use well-known, real artists and songs that exist on Spotify.\n"
    + "Treat the provided artists, genres, and reference playlists strictly as STYLE and VIBE references — use them to infer mood, era, tempo, and energy.\n"
    + "Do NOT simply repeat the seed songs; instead, choose songs that would fit well next to them on a playlist.\n"
    + "When specific seed artists are provided, heavily feature them in the playlist with multiple tracks per artist when appropriate, and then surround them with songs by other artists that clearly share a similar style."

  const BLOCK_PREFIX: String := "Do NOT include any songs by these artists: "
  const DIRECTION_PREFIX: String := "Additional direction: "

  function PlaylistPart(p: SeedPlaylist): String {
    "Reference playlist \"" + p.name + "\" (songs like: " + p.trackSummary + ")"
  }

  /** The seed sentences: the artists, the genres, then one per reference playlist. */
  function SeedPartsOf(input: GenerateInput): (parts: seq<String>)
    ensures |parts| == (if |input.seedArtists| > 0 then 1 else 0) + (if |input.seedGenres| > 0 then 1 else 0)
                       + (if input.seedPlaylists.Some? then |input.seedPlaylists.value| else 0)
  {
    (if |input.seedArtists| > 0 then ["Artists: " + Join(input.seedArtists, ", ")] else [])
    + (if |input.seedGenres| > 0 then ["Genres: " + Join(input.seedGenres, ", ")] else [])
    + (if input.seedPlaylists.Some?
       then seq(|input.seedPlaylists.value|, i requires 0 <= i < |input.seedPlaylists.value| =>
                PlaylistPart(input.seedPlaylists.value[i]))
       else [])
  }

  /** The loop that pushes the seed sentences. */
  method SeedParts(input: GenerateInput) returns (parts: seq<String>)
    ensures parts == SeedPartsOf(input)
  {
    parts := [];
    if |input.seedArtists| > 0 {
      parts := parts + ["Artists: " + Join(input.seedArtists, ", ")];
    }
    if |input.seedGenres| > 0 {
      parts := parts + ["Genres: " + Join(input.seedGenres, ", ")];
    }
    var head := parts;
    if input.seedPlaylists.Some? && |input.seedPlaylists.value| > 0 {
      var pls := input.seedPlaylists.value;
      var i := 0;
      while i < |pls|
        invariant 0 <= i <= |pls|
        invariant parts == head + seq(i, j requires 0 <= j < i => PlaylistPart(pls[j]))
      {
        parts := parts + [PlaylistPart(pls[i])];
        i := i + 1;
      }
    }
  }

  /** The seed paragraph: the sentences joined by ".\n" and closed by ".\n"; empty without seeds. */
  function SeedBlock(parts: seq<String>): (r: String)
    ensures r == [] <==> parts == []
  {
    if |parts| > 0 then Join(parts, ".\n") + ".\n" else ""
  }

  /** The blocked-artist instruction is there exactly when there are blocked names. */
  function BlockBlock(names: seq<String>): (r: String)
    ensures r != [] <==> |names| > 0
    ensures r != [] ==> StartsWith(r, BLOCK_PREFIX)
  {
    if |names| > 0 then BLOCK_PREFIX + Join(names, ", ") + ".\n" else ""
  }

  /** The direction line is there exactly when the prompt is not blank; it carries the prompt untrimmed. */
  function PromptLine(prompt: Option<String>): (r: String)
    ensures r != [] <==> prompt.Some? && Trim(prompt.value) != []
    ensures r != [] ==> r == DIRECTION_PREFIX + prompt.value + "\n"
  {
    if prompt.Some? && Trim(prompt.value) != [] then DIRECTION_PREFIX + prompt.value + "\n" else ""
  }

  function RequestText(limit: int): String {
    "Generate exactly " + IntToString(limit, 10) + " songs for a playlist that has a similar vibe, mood, and energy to the seeds.\n"
    + "Include a mix of tracks by those artists and by other artists with clearly similar style.\n"
    + "Reply with only the list, one \"Artist - Track Name\" per line."
  }

  datatype LlmRequest = LlmRequest(model: String, maxTokens: nat, system: String, userMessage: String)

  function UserMessage(seedParts: seq<String>, input: GenerateInput): String {
    SeedBlock(seedParts) + BlockBlock(input.blockedArtistNames) + PromptLine(input.prompt) + RequestText(input.limit)
  }

  function LlmRequestFor(input: GenerateInput): LlmRequest {
    LlmRequest(MODEL, MAX_TOKENS, SYSTEM_PROMPT, UserMessage(SeedPartsOf(input), input))
  }

  /** The message always ends by asking for exactly `limit` songs, whatever the seeds. */
  lemma MessageAsksForLimit(input: GenerateInput)
    ensures var m := LlmRequestFor(input).userMessage;
      |RequestText(input.limit)| <= |m| && m[|m| - |RequestText(input.limit)|..] == RequestText(input.limit)
  {
  }

  /** A content block of the model's reply; only blocks of type "text" with a text are read. */
  datatype ContentBlock = ContentBlock(kind: String, text: Option<String>)

  /** `.filter((block) => block.type === 'text' && 'text' in block).map((block) => block.text)`. */
  function TextsOf(blocks: seq<ContentBlock>): (r: seq<String>)
    ensures |r| <= |blocks|
    ensures forall t :: t in r <==> exists i :: 0 <= i < |blocks| && blocks[i].kind == "text" && blocks[i].text == Some(t)
    ensures |blocks| == 1 ==>
      r == if blocks[0].kind == "text" && blocks[0].text.Some? then [blocks[0].text.value] else []
  {
    if blocks == [] then []
    else
      var rest := TextsOf(blocks[1..]);
      assert forall i :: 1 <= i < |blocks| ==> blocks[i] == blocks[1..][i - 1];
      (if blocks[0].kind == "text" && blocks[0].text.Some? then [blocks[0].text.value] else []) + rest
  }

  /** The texts of two runs of blocks are the texts of each, in block order. */
  lemma {:induction false} TextsOfAppend(xs: seq<ContentBlock>, ys: seq<ContentBlock>)
    ensures TextsOf(xs + ys) == TextsOf(xs) + TextsOf(ys)
  {
    if xs == [] {
      assert xs + ys == ys;
    } else {
      assert (xs + ys)[0] == xs[0];
      assert (xs + ys)[1..] == xs[1..] + ys;
      TextsOfAppend(xs[1..], ys);
    }
  }

  /** The texts joined by newlines; a reply without content gives ''. */
  function RawText(content: Option<seq<ContentBlock>>): String {
    if content.None? then "" else Join(TextsOf(content.value), "\n")
  }

  // ---- Lines ----

  /** `.map((l) => l.trim())`. */
  function TrimEach(parts: seq<String>): (r: seq<String>)
    ensures |r| == |parts|
    ensures forall i :: 0 <= i < |r| ==> r[i] == Trim(parts[i]) && IsTrimmed(r[i])
  {
    seq(|parts|, i requires 0 <= i < |parts| => Trim(parts[i]))
  }

  /** The trimmed, non-empty lines: every part that is not blank is kept, trimmed. */
  function TrimmedNonEmpty(parts: seq<String>): (r: seq<String>)
    ensures |r| <= |parts|
    ensures forall i :: 0 <= i < |r| ==> r[i] != [] && IsTrimmed(r[i])
    ensures |parts| == 1 ==> r == if Trim(parts[0]) == [] then [] else [Trim(parts[0])]
  {
    NonEmpty(TrimEach(parts))
  }

  /** Trimming cannot bring in a '\n'. */
  lemma TrimmedNonEmptyNoNewline(parts: seq<String>)
    requires forall i :: 0 <= i < |parts| ==> '\n' !in parts[i]
    ensures forall i :: 0 <= i < |TrimmedNonEmpty(parts)| ==> '\n' !in TrimmedNonEmpty(parts)[i]
  {
    var ts := TrimEach(parts);
    forall j | 0 <= j < |ts| ensures '\n' !in ts[j] {
      var t := Trim(parts[j]);
      var k := |parts[j]| - |TrimStart(parts[j])|;
      assert t == parts[j][k..k + |t|];
    }
    forall i | 0 <= i < |TrimmedNonEmpty(parts)| ensures '\n' !in TrimmedNonEmpty(parts)[i] {
      assert TrimmedNonEmpty(parts)[i] in ts;
    }
  }

  /** No line is lost: every part that is not blank is among the lines, trimmed. */
  lemma TrimmedNonEmptyComplete(parts: seq<String>)
    ensures forall i :: 0 <= i < |parts| && Trim(parts[i]) != [] ==> Trim(parts[i]) in TrimmedNonEmpty(parts)
  {
    var ts := TrimEach(parts);
    forall i | 0 <= i < |parts| && Trim(parts[i]) != [] ensures Trim(parts[i]) in TrimmedNonEmpty(parts) {
      assert ts[i] == Trim(parts[i]);
    }
  }

  lemma TrimEachAppend(xs: seq<String>, ys: seq<String>)
    ensures TrimEach(xs + ys) == TrimEach(xs) + TrimEach(ys)
  {
  }

  /** The lines of two runs of parts are the lines of each, in order. */
  lemma TrimmedNonEmptyAppend(xs: seq<String>, ys: seq<String>)
    ensures TrimmedNonEmpty(xs + ys) == TrimmedNonEmpty(xs) + TrimmedNonEmpty(ys)
  {
    TrimEachAppend(xs, ys);
    NonEmptyAppend(TrimEach(xs), TrimEach(ys));
  }

  /** `raw.split('\n').map((l) => l.trim()).filter((l) => l.length > 0)`. */
  function Lines(raw: String): (r: seq<String>)
    ensures forall i :: 0 <= i < |r| ==> r[i] != [] && IsTrimmed(r[i]) && '\n' !in r[i]
    ensures var parts := Split(raw, '\n');
      forall i :: 0 <= i < |parts| && Trim(parts[i]) != [] ==> Trim(parts[i]) in r
  {
    TrimmedNonEmptyNoNewline(Split(raw, '\n'));
    TrimmedNonEmptyComplete(Split(raw, '\n'));
    TrimmedNonEmpty(Split(raw, '\n'))
  }

  lemma TrimmedNonEmptyKeeps(ls: seq<String>)
    requires forall i :: 0 <= i < |ls| ==> ls[i] != [] && IsTrimmed(ls[i])
    ensures TrimmedNonEmpty(ls) == ls
  {
    forall i | 0 <= i < |ls| ensures TrimEach(ls)[i] == ls[i] {
      TrimOfTrimmed(ls[i]);
    }
    assert TrimEach(ls) == ls;
    NonEmptyKeeps(ls);
  }

  /** Lines written one per line come back unchanged. */
  lemma LinesOfJoined(ls: seq<String>)
    requires |ls| >= 1
    requires forall i :: 0 <= i < |ls| ==> ls[i] != [] && IsTrimmed(ls[i]) && '\n' !in ls[i]
    ensures Lines(Join(ls, "\n")) == ls
  {
    SplitJoin(ls, '\n');
    TrimmedNonEmptyKeeps(ls);
  }

  // ---- The line pattern /^(.+?)\s*[-–—|]\s*(.+)$/ ----

  predicate IsSeparator(c: char) {
    c == '-' || c == '–' || c == '—' || c == '|'
  }

  /** The end of the run of whitespace starting at `i`. */
  function WsRunEnd(s: String, i: nat): (j: nat)
    requires i <= |s|
    ensures i <= j <= |s|
    ensures forall x :: i <= x < j ==> IsWhitespace(s[x])
    ensures j < |s| ==> !IsWhitespace(s[j])
    decreases |s| - i
  {
    if i < |s| && IsWhitespace(s[i]) then WsRunEnd(s, i + 1) else i
  }

  /** Group 1 is `line[..i]`, then whitespace up to the separator at `k`. */
  ghost predicate HeadMatch(line: String, i: int, k: int) {
    && 1 <= i <= k < |line|
    && (forall x :: 0 <= x < i ==> !IsLineTerminator(line[x]))
    && (forall x :: i <= x < k ==> IsWhitespace(line[x]))
    && IsSeparator(line[k])
  }

  /** After the separator at `k`, whitespace up to `p`, then group 2 `line[p..]` to the end. */
  ghost predicate TailMatch(line: String, k: int, p: int) {
    && 0 <= k < p < |line|
    && (forall x :: k < x < p ==> IsWhitespace(line[x]))
    && (forall x :: p <= x < |line| ==> !IsLineTerminator(line[x]))
  }

  /** A way the pattern matches the whole line, with the group boundaries `i` and `p`. */
  ghost predicate RegexMatch(line: String, i: int, k: int, p: int) {
    HeadMatch(line, i, k) && TailMatch(line, k, p)
  }

  /** The separator is the first non-whitespace character after group 1. */
  lemma HeadMatchSeparator(line: String, i: int, k: int)
    requires HeadMatch(line, i, k)
    ensures k == WsRunEnd(line, i)
  {
  }

  /** Where the greedy `\s*(.+)$` after the separator at `k` lets group 2 start, if anywhere. */
  function TrackStart(line: String, k: nat): (r: Option<nat>)
    requires k < |line|
    ensures r.Some? ==> TailMatch(line, k, r.value)
    ensures r.Some? ==> forall p :: TailMatch(line, k, p) ==> p <= r.value
    ensures r.None? ==> forall p :: !TailMatch(line, k, p)
  {
    var m := WsRunEnd(line, k + 1);
    if m < |line| then
      if forall x :: m <= x < |line| ==> !IsLineTerminator(line[x]) then Some(m)
      else
        assert forall p :: TailMatch(line, k, p) ==> p <= m;
        None
    else if m > k + 1 && !IsLineTerminator(line[m - 1]) then Some(m - 1)
    else None
  }

  /**
   * The backtracking search: the lazy group 1 grows from `start`; the first length for
   * which the rest matches wins, and the greedy `\s*` then gives group 2 its longest form.
   */
  function MatchFrom(line: String, start: nat): (r: Option<(nat, nat)>)
    requires 1 <= start
    requires forall x :: 0 <= x < start - 1 && x < |line| ==> !IsLineTerminator(line[x])
    ensures r.Some? ==> start <= r.value.0 < |line| && RegexMatch(line, r.value.0, WsRunEnd(line, r.value.0), r.value.1)
    ensures r.Some? ==> forall i, k, p :: start <= i < r.value.0 ==> !RegexMatch(line, i, k, p)
    ensures r.Some? ==> forall k, p :: RegexMatch(line, r.value.0, k, p) ==> p <= r.value.1
    ensures r.None? ==> forall i, k, p :: start <= i ==> !RegexMatch(line, i, k, p)
    decreases |line| - start
  {
    if start >= |line| then None
    else if IsLineTerminator(line[start - 1]) then None
    else
      var k := WsRunEnd(line, start);
      var here := if k < |line| && IsSeparator(line[k]) then TrackStart(line, k) else None;
      assert forall k', p :: RegexMatch(line, start, k', p) ==> k' == k && here.Some? && p <= here.value by {
        forall k', p | RegexMatch(line, start, k', p) ensures k' == k && here.Some? && p <= here.value {
          HeadMatchSeparator(line, start, k');
        }
      }
      if here.Some? then Some((start, here.value))
      else MatchFrom(line, start + 1)
  }

  datatype Pair = Pair(artist: String, track: String)

  /** `line.match(...)` and the trimming of both groups. */
  function ParseLine(line: String): Option<Pair>
  {
    if line == [] then None
    else match MatchFrom(line, 1)
      case None => None
      case Some((i, p)) => Some(Pair(Trim(line[..i]), Trim(line[p..])))
  }

  /** A pair is produced exactly for the lines the pattern matches. */
  lemma ParseLineIffMatch(line: String)
    ensures ParseLine(line).Some? <==> exists i, k, p :: RegexMatch(line, i, k, p)
  {
    if line != [] {
      var r := MatchFrom(line, 1);
      if r.Some? {
        assert RegexMatch(line, r.value.0, WsRunEnd(line, r.value.0), r.value.1);
      }
    }
  }

  /** On a trimmed line both parts of a parsed pair are non-empty (and trimmed, as `Trim` gives). */
  lemma ParsedPartsNonEmpty(line: String)
    requires line != [] && IsTrimmed(line)
    ensures ParseLine(line).Some? ==> ParseLine(line).value.artist != [] && ParseLine(line).value.track != []
    ensures ParseLine(line).Some? ==> IsTrimmed(ParseLine(line).value.artist) && IsTrimmed(ParseLine(line).value.track)
  {
    var r := MatchFrom(line, 1);
    if r.Some? {
      var i, p := r.value.0, r.value.1;
      assert ParseLine(line) == Some(Pair(Trim(line[..i]), Trim(line[p..])));
      assert line[..i][0] == line[0];
      NotBlankAt(line[..i], 0);
      GroupTwoStartsSolid(line, i, p);
      assert line[p..][0] == line[p];
      NotBlankAt(line[p..], 0);
    }
  }

  /** On a trimmed line the greedy `\s*` leaves group 2 starting on a non-whitespace character. */
  lemma GroupTwoStartsSolid(line: String, i: nat, p: nat)
    requires IsTrimmed(line) && MatchFrom(line, 1) == Some((i, p))
    ensures p < |line| && !IsWhitespace(line[p])
  {
    if IsWhitespace(line[p]) {
      assert p + 1 < |line|;
      assert RegexMatch(line, i, WsRunEnd(line, i), p + 1);
      assert false;
    }
  }

  /** The match the engine reports is the one with the shortest group 1 and then the longest `\s*`. */
  lemma FirstMatch(line: String, i0: int, k0: int, p0: int)
    requires RegexMatch(line, i0, k0, p0)
    requires forall i, k, p :: 1 <= i < i0 ==> !RegexMatch(line, i, k, p)
    requires forall k, p :: RegexMatch(line, i0, k, p) ==> p <= p0
    ensures ParseLine(line) == Some(Pair(Trim(line[..i0]), Trim(line[p0..])))
  {
    MatchFromFound(line, i0, k0, p0);
    MatchFromGroup1(line, i0, k0, p0);
    MatchFromGroup2(line, i0, k0, p0);
    ParseLineOfMatch(line, i0, p0);
  }

  lemma MatchFromGroup2(line: String, i0: int, k0: int, p0: int)
    requires RegexMatch(line, i0, k0, p0)
    requires forall k, p :: RegexMatch(line, i0, k, p) ==> p <= p0
    requires MatchFrom(line, 1).Some? && MatchFrom(line, 1).value.0 == i0
    ensures MatchFrom(line, 1).value.1 == p0
  {
    assert RegexMatch(line, i0, WsRunEnd(line, i0), MatchFrom(line, 1).value.1);
  }

  lemma ParseLineOfMatch(line: String, i: nat, p: nat)
    requires MatchFrom(line, 1) == Some((i, p))
    ensures ParseLine(line) == Some(Pair(Trim(line[..i]), Trim(line[p..])))
  {
  }

  lemma MatchFromFound(line: String, i0: int, k0: int, p0: int)
    requires RegexMatch(line, i0, k0, p0)
    ensures MatchFrom(line, 1).Some?
  {
  }

  lemma MatchFromGroup1(line: String, i0: int, k0: int, p0: int)
    requires RegexMatch(line, i0, k0, p0)
    requires forall i, k, p :: 1 <= i < i0 ==> !RegexMatch(line, i, k, p)
    requires MatchFrom(line, 1).Some?
    ensures MatchFrom(line, 1).value.0 == i0
  {
  }

  /** No match gives group 1 a length below `n` when `line[..n]` is trimmed and holds no separator. */
  lemma NoEarlierMatch(line: String, n: int)
    requires 1 <= n <= |line| && IsTrimmed(line[..n])
    requires forall x :: 0 <= x < n ==> !IsSeparator(line[x])
    ensures forall i, k, p :: 1 <= i < n ==> !RegexMatch(line, i, k, p)
  {
    forall i, k, p | 1 <= i < n ensures !RegexMatch(line, i, k, p) {
      assert line[..n][n - 1] == line[n - 1];
    }
  }

  /**
   * When group 1 can end only at `n` (its text is trimmed and holds no separator) and
   * group 2 starts at a non-whitespace `p`, the parse splits the line there.
   */
  lemma ParseSplitsAt(line: String, n: int, k: int, p: int)
    requires 1 <= n <= k < p < |line|
    requires IsTrimmed(line[..n])
    requires forall x :: 0 <= x < n ==> !IsSeparator(line[x]) && !IsLineTerminator(line[x])
    requires forall x :: n <= x < k ==> IsWhitespace(line[x])
    requires IsSeparator(line[k])
    requires forall x :: k < x < p ==> IsWhitespace(line[x])
    requires !IsWhitespace(line[p])
    requires forall x :: p <= x < |line| ==> !IsLineTerminator(line[x])
    ensures ParseLine(line) == Some(Pair(Trim(line[..n]), Trim(line[p..])))
  {
    assert RegexMatch(line, n, k, p);
    NoEarlierMatch(line, n);
    forall k', p' | RegexMatch(line, n, k', p') ensures p' <= p {
      HeadMatchSeparator(line, n, k');
    }
    FirstMatch(line, n, k, p);
  }

  /**
   * A line written as the model is asked to write it parses back into its two parts,
   * provided the artist holds no separator character.
   */
  lemma ParseLineRoundTrip(a: String, t: String)
    requires a != [] && t != [] && IsTrimmed(a) && IsTrimmed(t)
    requires forall x :: 0 <= x < |a| ==> !IsLineTerminator(a[x]) && !IsSeparator(a[x])
    requires forall x :: 0 <= x < |t| ==> !IsLineTerminator(t[x])
    ensures ParseLine(a + " - " + t) == Some(Pair(a, t))
  {
    var line := a + " - " + t;
    var n := |a|;
    assert line[..n] == a && line[n + 3..] == t;
    assert forall x :: 0 <= x < n ==> line[x] == a[x];
    assert forall x :: n + 3 <= x < |line| ==> line[x] == t[x - n - 3];
    ParseSplitsAt(line, n, n + 1, n + 3);
    TrimOfTrimmed(a);
    TrimOfTrimmed(t);
  }

  /**
   * The lazy group 1 stops at the first separator, even one with no space around it:
   * "Jay-Z - Song" parses as artist "Jay" and track "Z - Song".
   */
  lemma ArtistEndsAtFirstSeparator(a: String, sep: char, rest: String)
    requires a != [] && IsTrimmed(a) && IsSeparator(sep)
    requires forall x :: 0 <= x < |a| ==> !IsLineTerminator(a[x]) && !IsSeparator(a[x])
    requires rest != [] && !IsWhitespace(rest[0])
    requires forall x :: 0 <= x < |rest| ==> !IsLineTerminator(rest[x])
    ensures ParseLine(a + [sep] + rest) == Some(Pair(a, Trim(rest)))
  {
    var line := a + [sep] + rest;
    var n := |a|;
    assert line[..n] == a && line[n + 1..] == rest;
    assert forall x :: 0 <= x < n ==> line[x] == a[x];
    assert forall x :: n + 1 <= x < |line| ==> line[x] == rest[x - n - 1];
    ParseSplitsAt(line, n, n, n + 1);
    TrimOfTrimmed(a);
  }

  /** The pairs of the lines that match, in line order. */
  function PairsOf(lines: seq<String>): (r: seq<Pair>)
    ensures |r| <= |lines|
  {
    if lines == [] then []
    else
      var rest := PairsOf(lines[1..]);
      match ParseLine(lines[0])
      case None => rest
      case Some(pair) => [pair] + rest
  }

  /** Every pair drawn from trimmed, non-empty lines has a non-empty artist and track. */
  lemma {:induction false} PairsNonEmpty(lines: seq<String>)
    requires forall i :: 0 <= i < |lines| ==> lines[i] != [] && IsTrimmed(lines[i])
    ensures forall i :: 0 <= i < |PairsOf(lines)| ==>
      PairsOf(lines)[i].artist != [] && PairsOf(lines)[i].track != []
      && IsTrimmed(PairsOf(lines)[i].artist) && IsTrimmed(PairsOf(lines)[i].track)
  {
    if lines != [] {
      PairsNonEmpty(lines[1..]);
      ParsedPartsNonEmpty(lines[0]);
      ConsProperPair(ParseLine(lines[0]), PairsOf(lines[1..]));
    }
  }

  predicate ProperPair(pair: Pair) {
    pair.artist != [] && pair.track != [] && IsTrimmed(pair.artist) && IsTrimmed(pair.track)
  }

  lemma ConsProperPair(parsed: Option<Pair>, rest: seq<Pair>)
    requires parsed.Some? ==> ProperPair(parsed.value)
    requires forall i :: 0 <= i < |rest| ==> ProperPair(rest[i])
    ensures var r := if parsed.Some? then [parsed.value] + rest else rest;
      forall i :: 0 <= i < |r| ==> ProperPair(r[i])
  {
  }

  /** One more line adds its pair, if it has one, at the end. */
  lemma PairsOfSnoc(lines: seq<String>, i: nat)
    requires i < |lines|
    ensures PairsOf(lines[..i + 1]) ==
      PairsOf(lines[..i]) + (if ParseLine(lines[i]).Some? then [ParseLine(lines[i]).value] else [])
  {
    assert lines[..i + 1] == lines[..i] + [lines[i]];
    assert [lines[i]][1..] == [];
    PairsOfAppend(lines[..i], [lines[i]]);
  }

  /** Parsing distributes over concatenation of the lines: the pairs keep line order. */
  lemma {:induction false} PairsOfAppend(xs: seq<String>, ys: seq<String>)
    ensures PairsOf(xs + ys) == PairsOf(xs) + PairsOf(ys)
  {
    if xs == [] {
      assert xs + ys == ys;
    } else {
      assert (xs + ys)[0] == xs[0];
      assert (xs + ys)[1..] == xs[1..] + ys;
      PairsOfAppend(xs[1..], ys);
    }
  }

  /** The loop that pushes a pair for every matching line. */
  method ParsePairs(lines: seq<String>) returns (pairs: seq<Pair>)
    ensures pairs == PairsOf(lines)
  {
    pairs := [];
    for i := 0 to |lines|
      invariant pairs == PairsOf(lines[..i])
    {
      PairsOfSnoc(lines, i);
      var m := ParseLine(lines[i]);
      if m.Some? {
        pairs := pairs + [m.value];
      }
    }
    assert lines[..|lines|] == lines;
  }

  // ---- The Spotify search ----

  const SEARCH_URL: String := "https://api.spotify.com/v1/search"

  /** `artist:<a> track:<t>` with every '"' removed from both parts. */
  function SearchQuery(artist: String, track: String): (q: String)
    ensures '"' !in q
    ensures q == "artist:" + RemoveAll(artist, '"') + " track:" + RemoveAll(track, '"')
  {
    "artist:" + RemoveAll(artist, '"') + " track:" + RemoveAll(track, '"')
  }

  lemma {:induction false} RemoveAllAbsent(s: String, c: char)
    requires c !in s
    ensures RemoveAll(s, c) == s
  {
    if s != [] {
      RemoveAllAbsent(s[1..], c);
    }
  }

  /** Quote-free parts reach the query unchanged. */
  lemma SearchQueryOfQuoteFree(artist: String, track: String)
    requires '"' !in artist && '"' !in track
    ensures SearchQuery(artist, track) == "artist:" + artist + " track:" + track
  {
    RemoveAllAbsent(artist, '"');
    RemoveAllAbsent(track, '"');
  }

  datatype SearchRequest = SearchRequest(url: Url, bearer: String)

  function SearchRequestFor(accessToken: String, pair: Pair): SearchRequest {
    SearchRequest(Url(SEARCH_URL, [Param("q", SearchQuery(pair.artist, pair.track)), Param("type", "track"), Param("limit", "1")]),
                  accessToken)
  }

  datatype ArtistRef = ArtistRef(id: String, name: String)

  datatype TrackItem = TrackItem(uri: String, name: String, artists: Option<seq<ArtistRef>>, album: Option<String>)

  /** A rejected fetch (with its error message), or a status and `tracks.items` (None when absent). */
  datatype SearchReply = SearchFailed(message: String) | SearchReply(status: int, items: Option<seq<TrackItem>>)

  function ArtistNames(artists: seq<ArtistRef>): (r: seq<String>)
    ensures |r| == |artists| && forall j :: 0 <= j < |r| ==> r[j] == artists[j].name
  {
    seq(|artists|, j requires 0 <= j < |artists| => artists[j].name)
  }

  function ArtistIds(artists: seq<ArtistRef>): (r: seq<String>)
    ensures |r| == |artists| && forall j :: 0 <= j < |r| ==> r[j] == artists[j].id
  {
    seq(|artists|, j requires 0 <= j < |artists| => artists[j].id)
  }

  /** `searchSpotifyTrack`'s reading of the reply: the first item, or null. */
  function TrackOf(reply: SearchReply): (r: Result<Option<TrackResult>, String>)
    ensures r.Err? <==> reply.SearchFailed?
    ensures r == Ok(None) <==> reply.SearchReply? && (!IsOk(reply.status) || reply.items.None? || reply.items.value == [])
    ensures r.Ok? && r.value.Some? ==>
      var item := reply.items.value[0];
      var artists := if item.artists.Some? then item.artists.value else [];
      && r.value.value.uri == item.uri && r.value.value.name == item.name
      && r.value.value.artistIds == ArtistIds(artists)
      && r.value.value.artists == Join(ArtistNames(artists), ", ")
      && r.value.value.album == item.album
  {
    match reply
    case SearchFailed(m) => Err(m)
    case SearchReply(status, items) =>
      if !IsOk(status) || items.None? || items.value == [] then Ok(None)
      else
        var item := items.value[0];
        var artists := if item.artists.Some? then item.artists.value else [];
        Ok(Some(TrackResult(item.uri, item.name, Join(ArtistNames(artists), ", "), ArtistIds(artists), item.album)))
  }

  /** `Promise.all` over the searches: the results in pair order, or the first failure. */
  function SearchAll(accessToken: String, pairs: seq<Pair>, search: SearchRequest -> SearchReply)
    : (r: Result<seq<Option<TrackResult>>, String>)
    ensures r.Ok? <==> forall j :: 0 <= j < |pairs| ==> !search(SearchRequestFor(accessToken, pairs[j])).SearchFailed?
    ensures r.Ok? ==> (|r.value| == |pairs|
      && forall j :: 0 <= j < |pairs| ==> Ok(r.value[j]) == TrackOf(search(SearchRequestFor(accessToken, pairs[j]))))
  {
    if pairs == [] then Ok([])
    else match TrackOf(search(SearchRequestFor(accessToken, pairs[0])))
      case Err(m) => Err(m)
      case Ok(t) =>
        match SearchAll(accessToken, pairs[1..], search)
        case Err(m) =>
          assert forall j :: 1 <= j < |pairs| ==> pairs[1..][j - 1] == pairs[j];
          Err(m)
        case Ok(ts) =>
          assert forall j :: 1 <= j < |pairs| ==> pairs[1..][j - 1] == pairs[j];
          Ok([t] + ts)
  }

  // ---- The result filter ----

  /** `new Set(blockedArtistIds.filter(Boolean))`: the empty id blocks nothing. */
  function BlockedIdSet(ids: seq<String>): (r: set<String>)
    ensures "" !in r
    ensures forall id :: id in r <==> id in ids && id != ""
  {
    set id | id in ids && id != ""
  }

  predicate IsBlocked(t: TrackResult, blocked: set<String>) {
    exists j :: 0 <= j < |t.artistIds| && t.artistIds[j] in blocked
  }

  function UriSet(ts: seq<TrackResult>): set<String> {
    set j | 0 <= j < |ts| :: ts[j].uri
  }

  /** The loop over the search results with `results` as accumulator. */
  function FilterFrom(rest: seq<Option<TrackResult>>, acc: seq<TrackResult>, limit: int, blocked: set<String>)
    : seq<TrackResult>
    decreases |rest|
  {
    if rest == [] || |acc| >= limit then acc
    else if rest[0].None? || rest[0].value.uri in UriSet(acc) || IsBlocked(rest[0].value, blocked)
    then FilterFrom(rest[1..], acc, limit, blocked)
    else FilterFrom(rest[1..], acc + [rest[0].value], limit, blocked)
  }

  function Filter(searched: seq<Option<TrackResult>>, limit: int, blocked: set<String>): seq<TrackResult> {
    FilterFrom(searched, [], limit, blocked)
  }

  /** The loop of `generatePlaylistWithAi` that fills `results` and `seenUris`. */
  method FilterResults(searched: seq<Option<TrackResult>>, limit: int, blockedArtistIds: seq<String>)
    returns (results: seq<TrackResult>)
    ensures results == Filter(searched, limit, BlockedIdSet(blockedArtistIds))
  {
    var blocked := set id | id in blockedArtistIds && id != "";
    results := [];
    var seen: set<String> := {};
    var i := 0;
    while i < |searched|
      invariant 0 <= i <= |searched|
      invariant seen == UriSet(results)
      invariant FilterFrom(searched[i..], results, limit, blocked) == Filter(searched, limit, blocked)
    {
      if |results| >= limit {
        break;
      }
      var t := searched[i];
      assert searched[i..][1..] == searched[i + 1..];
      if t.Some? && t.value.uri !in seen && !IsBlocked(t.value, blocked) {
        assert UriSet(results + [t.value]) == UriSet(results) + {t.value.uri} by {
          var r' := results + [t.value];
          forall u | u in UriSet(r') ensures u in UriSet(results) + {t.value.uri} {
            var j :| 0 <= j < |r'| && r'[j].uri == u;
            if j < |results| { assert r'[j] == results[j]; }
          }
          assert r'[|results|] == t.value;
          forall u | u in UriSet(results) ensures u in UriSet(r') {
            var j :| 0 <= j < |results| && results[j].uri == u;
            assert r'[j] == results[j];
          }
        }
        seen := seen + {t.value.uri};
        results := results + [t.value];
      }
      i := i + 1;
    }
  }

  /** The tracks the searches found, in order. */
  function Present(ts: seq<Option<TrackResult>>): (r: seq<TrackResult>)
    ensures |r| <= |ts|
    ensures forall t :: t in r <==> Some(t) in ts
  {
    if ts == [] then []
    else (if ts[0].Some? then [ts[0].value] else []) + Present(ts[1..])
  }

  /** `xs` is `ys` with some elements left out, the rest in their order. */
  ghost predicate SubsequenceOf(xs: seq<TrackResult>, ys: seq<TrackResult>)
    decreases |ys|
  {
    if xs == [] then true
    else if ys == [] then false
    else (xs[0] == ys[0] && SubsequenceOf(xs[1..], ys[1..])) || SubsequenceOf(xs, ys[1..])
  }

  ghost predicate DistinctUris(ts: seq<TrackResult>) {
    forall a, b :: 0 <= a < b < |ts| ==> ts[a].uri != ts[b].uri
  }

  ghost predicate NoneBlocked(ts: seq<TrackResult>, blocked: set<String>) {
    forall a :: 0 <= a < |ts| ==> !IsBlocked(ts[a], blocked)
  }

  lemma {:induction false} FilterFromExtends(rest: seq<Option<TrackResult>>, acc: seq<TrackResult>, limit: int, blocked: set<String>)
    ensures var r := FilterFrom(rest, acc, limit, blocked);
      |acc| <= |r| && r[..|acc|] == acc && (|r| > |acc| ==> |r| <= limit)
      && SubsequenceOf(r[|acc|..], Present(rest))
    decreases |rest|
  {
    var r := FilterFrom(rest, acc, limit, blocked);
    if rest == [] || |acc| >= limit {
      assert r[|acc|..] == [];
    } else {
      assert rest[1..] == rest[1..];
      var tail := Present(rest[1..]);
      if rest[0].None? || rest[0].value.uri in UriSet(acc) || IsBlocked(rest[0].value, blocked) {
        FilterFromExtends(rest[1..], acc, limit, blocked);
        SubsequenceOfCons(r[|acc|..], tail, rest[0]);
      } else {
        var acc' := acc + [rest[0].value];
        FilterFromExtends(rest[1..], acc', limit, blocked);
        assert r[..|acc|] == r[..|acc'|][..|acc|];
        assert r[|acc|..] == [rest[0].value] + r[|acc'|..];
        assert Present(rest) == [rest[0].value] + tail;
      }
    }
  }

  /** Leaving out one more leading element keeps a subsequence a subsequence. */
  lemma SubsequenceOfCons(xs: seq<TrackResult>, ys: seq<TrackResult>, head: Option<TrackResult>)
    requires SubsequenceOf(xs, ys)
    ensures SubsequenceOf(xs, Present([head]) + ys)
  {
    if head.Some? {
      var zs := [head.value] + ys;
      assert zs[1..] == ys;
    } else {
      assert Present([head]) == [];
      assert Present([head]) + ys == ys;
    }
  }

  lemma {:induction false} FilterFromDistinct(rest: seq<Option<TrackResult>>, acc: seq<TrackResult>, limit: int, blocked: set<String>)
    requires DistinctUris(acc) && NoneBlocked(acc, blocked)
    ensures DistinctUris(FilterFrom(rest, acc, limit, blocked)) && NoneBlocked(FilterFrom(rest, acc, limit, blocked), blocked)
    decreases |rest|
  {
    if rest != [] && |acc| < limit {
      if !(rest[0].None? || rest[0].value.uri in UriSet(acc) || IsBlocked(rest[0].value, blocked)) {
        var acc' := acc + [rest[0].value];
        forall a, b | 0 <= a < b < |acc'| ensures acc'[a].uri != acc'[b].uri {
          if b == |acc| {
            assert acc'[a] == acc[a];
            assert acc[a].uri in UriSet(acc);
          }
        }
        FilterFromDistinct(rest[1..], acc', limit, blocked);
      } else {
        FilterFromDistinct(rest[1..], acc, limit, blocked);
      }
    }
  }

  lemma {:induction false} FilterFromComplete(rest: seq<Option<TrackResult>>, acc: seq<TrackResult>, limit: int, blocked: set<String>)
    ensures var r := FilterFrom(rest, acc, limit, blocked);
      |r| < limit ==> (UriSet(acc) <= UriSet(r)
        && forall j :: 0 <= j < |rest| && rest[j].Some? && !IsBlocked(rest[j].value, blocked) ==> rest[j].value.uri in UriSet(r))
    decreases |rest|
  {
    var r := FilterFrom(rest, acc, limit, blocked);
    FilterFromExtends(rest, acc, limit, blocked);
    if rest != [] && |acc| < limit && |r| < limit {
      assert UriSet(acc) <= UriSet(r) by {
        forall u | u in UriSet(acc) ensures u in UriSet(r) {
          var j :| 0 <= j < |acc| && acc[j].uri == u;
          assert r[j] == acc[j];
        }
      }
      var acc' := if rest[0].None? || rest[0].value.uri in UriSet(acc) || IsBlocked(rest[0].value, blocked)
                  then acc else acc + [rest[0].value];
      FilterFromComplete(rest[1..], acc', limit, blocked);
      assert forall j :: 1 <= j < |rest| ==> rest[1..][j - 1] == rest[j];
      if rest[0].Some? && !IsBlocked(rest[0].value, blocked) && rest[0].value.uri !in UriSet(acc) {
        assert acc'[|acc|] == rest[0].value;
      }
    }
  }

  /** The number of results never exceeds the limit; a limit of 0 or less gives none. */
  lemma FilterBounded(searched: seq<Option<TrackResult>>, limit: int, blocked: set<String>)
    ensures limit >= 0 ==> |Filter(searched, limit, blocked)| <= limit
    ensures limit <= 0 ==> Filter(searched, limit, blocked) == []
  {
    FilterFromExtends(searched, [], limit, blocked);
  }

  /** No two results share a uri and no result has a blocked artist. */
  lemma FilterDistinctUnblocked(searched: seq<Option<TrackResult>>, limit: int, blocked: set<String>)
    ensures DistinctUris(Filter(searched, limit, blocked))
    ensures NoneBlocked(Filter(searched, limit, blocked), blocked)
  {
    FilterFromDistinct(searched, [], limit, blocked);
  }

  /** The results are search results, in their order. */
  lemma FilterSubsequence(searched: seq<Option<TrackResult>>, limit: int, blocked: set<String>)
    ensures SubsequenceOf(Filter(searched, limit, blocked), Present(searched))
  {
    FilterFromExtends(searched, [], limit, blocked);
    assert Filter(searched, limit, blocked)[0..] == Filter(searched, limit, blocked);
  }

  /** Below the limit nothing is skipped but nulls, duplicates and blocked tracks. */
  lemma FilterComplete(searched: seq<Option<TrackResult>>, limit: int, blocked: set<String>)
    ensures |Filter(searched, limit, blocked)| < limit ==>
      forall j :: 0 <= j < |searched| && searched[j].Some? && !IsBlocked(searched[j].value, blocked) ==>
        searched[j].value.uri in UriSet(Filter(searched, limit, blocked))
  {
    FilterFromComplete(searched, [], limit, blocked);
  }

  // ---- The whole generation ----

  /** What the model's call yields: its content blocks (None when absent), or the message of the error it throws. */
  type Llm = LlmRequest -> Result<Option<seq<ContentBlock>>, String>

  function Generate(accessToken: String, input: GenerateInput, llm: Llm, search: SearchRequest -> SearchReply)
    : Result<seq<TrackResult>, String>
  {
    match llm(LlmRequestFor(input))
    case Err(m) => Err(m)
    case Ok(content) =>
      match SearchAll(accessToken, PairsOf(Lines(RawText(content))), search)
      case Err(m) => Err(m)
      case Ok(searched) => Ok(Filter(searched, input.limit, BlockedIdSet(input.blockedArtistIds)))
  }

  /** Whatever the model and the searches return, the playlist meets the filter's promises. */
  lemma GeneratedPlaylist(accessToken: String, input: GenerateInput, llm: Llm, search: SearchRequest -> SearchReply)
    requires Generate(accessToken, input, llm, search).Ok?
    ensures var ts := Generate(accessToken, input, llm, search).value;
      && (input.limit >= 0 ==> |ts| <= input.limit)
      && DistinctUris(ts)
      && forall a, j :: 0 <= a < |ts| && 0 <= j < |ts[a].artistIds| && ts[a].artistIds[j] in input.blockedArtistIds ==>
           ts[a].artistIds[j] == ""
  {
    var content := llm(LlmRequestFor(input)).value;
    var searched := SearchAll(accessToken, PairsOf(Lines(RawText(content))), search).value;
    var blocked := BlockedIdSet(input.blockedArtistIds);
    FilterBounded(searched, input.limit, blocked);
    FilterDistinctUnblocked(searched, input.limit, blocked);
    var ts := Filter(searched, input.limit, blocked);
    forall a, j | 0 <= a < |ts| && 0 <= j < |ts[a].artistIds| && ts[a].artistIds[j] in input.blockedArtistIds
      ensures ts[a].artistIds[j] == ""
    {
      assert !IsBlocked(ts[a], blocked);
    }
  }

  method GeneratePlaylistWithAi(accessToken: String, input: GenerateInput, llm: Llm, search: SearchRequest -> SearchReply)
    returns (r: Result<seq<TrackResult>, String>)
    ensures r == Generate(accessToken, input, llm, search)
  {
    var seedParts := SeedParts(input);
    var request := LlmRequest(MODEL, MAX_TOKENS, SYSTEM_PROMPT, UserMessage(seedParts, input));
    var message := llm(request);
    if message.Err? {
      return Err(message.error);
    }
    var lines := Lines(RawText(message.value));
    var pairs := ParsePairs(lines);
    var searched := SearchAll(accessToken, pairs, search);
    if searched.Err? {
      return Err(searched.error);
    }
    var results := FilterResults(searched.value, input.limit, input.blockedArtistIds);
    return Ok(results);
  }
}
