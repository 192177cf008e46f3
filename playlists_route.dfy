/**
 * `GET /api/playlists`: the caller's playlists, fetched page by page by following the
 * `next` links of the Web API, at most 20 pages, and only while the link stays on
 * `https://api.spotify.com/` (a guard against request forgery through `next`).
 */
module PlaylistsRoute {
  import opened Wrappers
  import opened JsString
  import opened Json
  import opened Http
  import opened Event
  import opened Session
  import opened Guard

  const SPOTIFY_PLAYLISTS: String := "https://api.spotify.com/v1/me/playlists"
  const FIRST_URL: String := SPOTIFY_PLAYLISTS + "?limit=50"
  const API_PREFIX: String := "https://api.spotify.com/"
  /** 20 pages of 50: at most 1000 playlists. */
  const MAX_PAGES: nat := 20

  datatype PageRequest = PageRequest(url: String, bearer: String)

  /**
   * A rejected fetch, or a status, the text, `page.items` (None when missing or
   * null) and `page.next` (None when missing).
   */
  datatype PageReply =
    | PageUnreachable
    | PageReply(status: int, text: String, items: Option<seq<Json>>, next: Option<Json>)

  type Fetch = PageRequest -> PageReply

  /** `page.items ?? []`. */
  function ItemsOf(reply: PageReply): seq<Json>
    requires reply.PageReply?
  {
    if reply.items.Some? then reply.items.value else []
  }

  /** `typeof page.next === 'string' ? page.next : null`. */
  function NextOf(reply: PageReply): (r: Option<String>)
    requires reply.PageReply?
    ensures r.Some? <==> reply.next.Some? && reply.next.value.JStr?
  {
    if reply.next.Some? && reply.next.value.JStr? then Some(reply.next.value.s) else None
  }

  /** The loop goes on while the next url is a non-empty string and pages are left. */
  predicate Continues(url: Option<String>, left: nat) {
    url.Some? && url.value != [] && left > 0
  }

  /** A page's failure, as the handler answers it. */
  function PageFailure(reply: PageReply): Response {
    if reply.PageUnreachable? then InternalError else ErrorJson(reply.status, reply.text)
  }

  predicate PageOk(reply: PageReply) {
    reply.PageReply? && IsOk(reply.status)
  }

  /** The urls the loop fetches, from `url` on with `left` pages left. */
  function Fetched(url: Option<String>, left: nat, bearer: String, fetch: Fetch): (r: seq<String>)
    decreases left
  {
    if !Continues(url, left) || !StartsWith(url.value, API_PREFIX) then []
    else
      var reply := fetch(PageRequest(url.value, bearer));
      [url.value] + (if PageOk(reply) then Fetched(NextOf(reply), left - 1, bearer, fetch) else [])
  }

  /** The items collected from `url` on, or the response of the first page that failed. */
  function Collected(url: Option<String>, left: nat, bearer: String, fetch: Fetch): Result<seq<Json>, Response>
    decreases left
  {
    if !Continues(url, left) || !StartsWith(url.value, API_PREFIX) then Ok([])
    else
      var reply := fetch(PageRequest(url.value, bearer));
      if !PageOk(reply) then Err(PageFailure(reply))
      else Prepend(ItemsOf(reply), Collected(NextOf(reply), left - 1, bearer, fetch))
  }

  function Prepend(items: seq<Json>, r: Result<seq<Json>, Response>): Result<seq<Json>, Response> {
    if r.Ok? then Ok(items + r.value) else r
  }

  function ListBody(items: seq<Json>): Json {
    JObj(map["items" := JArr(items), "total" := JNum(|items|)])
  }

  /** No more than `left` pages are fetched, the first from `url`, and every one of them on the API host. */
  lemma {:induction false} FetchedBounded(url: Option<String>, left: nat, bearer: String, fetch: Fetch)
    ensures |Fetched(url, left, bearer, fetch)| <= left
    ensures Fetched(url, left, bearer, fetch) != [] ==> Fetched(url, left, bearer, fetch)[0] == url.value
    ensures forall u :: u in Fetched(url, left, bearer, fetch) ==> StartsWith(u, API_PREFIX)
    decreases left
  {
    if Continues(url, left) && StartsWith(url.value, API_PREFIX) {
      var reply := fetch(PageRequest(url.value, bearer));
      if PageOk(reply) {
        FetchedBounded(NextOf(reply), left - 1, bearer, fetch);
      }
    }
  }

  /** The items of all pages, in the order the pages were fetched. */
  function ItemsOfPages(urls: seq<String>, bearer: String, fetch: Fetch): seq<Json> {
    if urls == [] then []
    else
      var reply := fetch(PageRequest(urls[0], bearer));
      (if reply.PageReply? then ItemsOf(reply) else []) + ItemsOfPages(urls[1..], bearer, fetch)
  }

  /**
   * When every fetched page succeeds, the list is the concatenation of their items in
   * page order; when one fails, it is the last one fetched and its failure is the answer.
   */
  lemma {:induction false} CollectedFromPages(url: Option<String>, left: nat, bearer: String, fetch: Fetch)
    ensures var urls := Fetched(url, left, bearer, fetch);
      match Collected(url, left, bearer, fetch)
      case Ok(items) =>
        && items == ItemsOfPages(urls, bearer, fetch)
        && forall u :: u in urls ==> PageOk(fetch(PageRequest(u, bearer)))
      case Err(e) =>
        && urls != []
        && e == PageFailure(fetch(PageRequest(urls[|urls| - 1], bearer)))
        && !PageOk(fetch(PageRequest(urls[|urls| - 1], bearer)))
    decreases left
  {
    if Continues(url, left) && StartsWith(url.value, API_PREFIX) {
      var reply := fetch(PageRequest(url.value, bearer));
      if PageOk(reply) {
        CollectedFromPages(NextOf(reply), left - 1, bearer, fetch);
        var rest := Fetched(NextOf(reply), left - 1, bearer, fetch);
        assert Fetched(url, left, bearer, fetch) == [url.value] + rest;
        assert ([url.value] + rest)[1..] == rest;
      }
    }
  }

  /** A `next` link off the API host ends the listing with what was collected before it. */
  lemma OffHostEndsListing(url: String, left: nat, bearer: String, fetch: Fetch)
    requires !StartsWith(url, API_PREFIX)
    ensures Collected(Some(url), left, bearer, fetch) == Ok([])
    ensures Fetched(Some(url), left, bearer, fetch) == []
  {
  }

  /** One page fetched and answered: the loop goes on from its `next` link with its items added. */
  lemma PageAdded(total: Result<seq<Json>, Response>, urls: seq<String>, items: seq<Json>, fetched: seq<String>,
                  url: String, left: nat, bearer: String, fetch: Fetch)
    requires Continues(Some(url), left) && StartsWith(url, API_PREFIX)
    requires total == Prepend(items, Collected(Some(url), left, bearer, fetch))
    requires urls == fetched + Fetched(Some(url), left, bearer, fetch)
    requires PageOk(fetch(PageRequest(url, bearer)))
    ensures var reply := fetch(PageRequest(url, bearer));
      && total == Prepend(items + ItemsOf(reply), Collected(NextOf(reply), left - 1, bearer, fetch))
      && urls == (fetched + [url]) + Fetched(NextOf(reply), left - 1, bearer, fetch)
  {
    var reply := fetch(PageRequest(url, bearer));
    var rest := Collected(NextOf(reply), left - 1, bearer, fetch);
    var later := Fetched(NextOf(reply), left - 1, bearer, fetch);
    assert Collected(Some(url), left, bearer, fetch) == Prepend(ItemsOf(reply), rest);
    assert Fetched(Some(url), left, bearer, fetch) == [url] + later;
    assert fetched + ([url] + later) == (fetched + [url]) + later;
    if rest.Ok? {
      assert items + (ItemsOf(reply) + rest.value) == (items + ItemsOf(reply)) + rest.value;
    }
  }

  /** One page fetched and refused: the loop ends with that page's failure. */
  lemma PageRefused(total: Result<seq<Json>, Response>, urls: seq<String>, items: seq<Json>, fetched: seq<String>,
                    url: String, left: nat, bearer: String, fetch: Fetch)
    requires Continues(Some(url), left) && StartsWith(url, API_PREFIX)
    requires total == Prepend(items, Collected(Some(url), left, bearer, fetch))
    requires urls == fetched + Fetched(Some(url), left, bearer, fetch)
    requires !PageOk(fetch(PageRequest(url, bearer)))
    ensures total == Err(PageFailure(fetch(PageRequest(url, bearer))))
    ensures urls == fetched + [url]
  {
  }

  /** No page left to fetch: what was collected is the answer. */
  lemma ListingEnds(total: Result<seq<Json>, Response>, urls: seq<String>, items: seq<Json>, fetched: seq<String>,
                    url: Option<String>, left: nat, bearer: String, fetch: Fetch)
    requires !(Continues(url, left) && StartsWith(url.value, API_PREFIX))
    requires total == Prepend(items, Collected(url, left, bearer, fetch))
    requires urls == fetched + Fetched(url, left, bearer, fetch)
    ensures total == Ok(items) && urls == fetched
  {
    assert items + [] == items;
    assert fetched + [] == fetched;
  }

  /**
   * The loop: from `first`, fetch pages while the url is a non-empty string on the API
   * host and fewer than `maxPages` were fetched; stop at the first page that fails.
   */
  method FollowPages(first: String, maxPages: nat, bearer: String, fetch: Fetch)
    returns (response: Response, fetched: seq<String>)
    ensures fetched == Fetched(Some(first), maxPages, bearer, fetch)
    ensures response == match Collected(Some(first), maxPages, bearer, fetch)
                        case Ok(items) => JsonBody(200, ListBody(items))
                        case Err(e) => e
  {
    fetched := [];
    ghost var total := Collected(Some(first), maxPages, bearer, fetch);
    ghost var urls := Fetched(Some(first), maxPages, bearer, fetch);
    var allItems: seq<Json> := [];
    var nextUrl: Option<String> := Some(first);
    var pages: nat := 0;
    if total.Ok? {
      assert [] + total.value == total.value;
    }
    assert [] + urls == urls;
    while nextUrl.Some? && nextUrl.value != [] && pages < maxPages
      invariant pages <= maxPages
      invariant total == Prepend(allItems, Collected(nextUrl, maxPages - pages, bearer, fetch))
      invariant urls == fetched + Fetched(nextUrl, maxPages - pages, bearer, fetch)
      decreases maxPages - pages
    {
      if !StartsWith(nextUrl.value, API_PREFIX) {
        break;
      }
      var reply := fetch(PageRequest(nextUrl.value, bearer));
      if !PageOk(reply) {
        PageRefused(total, urls, allItems, fetched, nextUrl.value, maxPages - pages, bearer, fetch);
        return PageFailure(reply), fetched + [nextUrl.value];
      }
      PageAdded(total, urls, allItems, fetched, nextUrl.value, maxPages - pages, bearer, fetch);
      fetched := fetched + [nextUrl.value];
      allItems := allItems + ItemsOf(reply);
      nextUrl := NextOf(reply);
      pages := pages + 1;
    }
    ListingEnds(total, urls, allItems, fetched, nextUrl, maxPages - pages, bearer, fetch);
    response := JsonBody(200, ListBody(allItems));
  }

  /**
   * The handler. After the guard, it follows the pages from the first url, at most 20;
   * it returns the response and the urls it fetched.
   */
  method Get(locals: Locals, fetch: Fetch) returns (response: Response, fetched: seq<String>)
    ensures RequireAuth(locals).Err? ==> response == UNAUTHORIZED && fetched == []
    ensures RequireAuth(locals).Ok? ==>
      var bearer := RequireAuth(locals).value.accessToken;
      && fetched == Fetched(Some(FIRST_URL), MAX_PAGES, bearer, fetch)
      && response == match Collected(Some(FIRST_URL), MAX_PAGES, bearer, fetch)
                     case Ok(items) => JsonBody(200, ListBody(items))
                     case Err(e) => e
  {
    var auth := RequireAuth(locals);
    if auth.Err? {
      return auth.error, [];
    }
    response, fetched := FollowPages(FIRST_URL, MAX_PAGES, auth.value.accessToken, fetch);
  }
}
