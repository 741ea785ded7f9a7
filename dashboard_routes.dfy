/**
 * The dashboard endpoints: the caller's own dashboard, another user's dashboard, and
 * clearing the wiki cache.  A dashboard is the parsed wiki page, read from the cache
 * when a fresh non-empty copy is there and fetched otherwise.
 *
 * The GitLab fetch and the JSON decoding are inputs: `fetch` maps an API URL and the
 * cookies sent with it to the page body or the HTTP error `fetch_wiki_content` raises,
 * and `decode` maps a body to its `content` field or the error reading it raised: a
 * JSON syntax error, or any other exception (a body that is valid JSON but not an
 * object has no `.get`).
 * `stamp` is the `last_updated` timestamp of the clock.
 */
module DashboardRoutes {
  import opened Wrappers
  import opened Http
  import opened Models
  import opened Database
  import opened Cache
  import opened Guards
  import opened WikiCookies
  import opened WikiApiUrl
  import WikiParser

  type Fetch = (string, map<string, string>) -> Result<string, HttpError>
  /** What reading the `content` field of a body can raise, with its text. */
  datatype DecodeError = SyntaxError(message: string) | OtherError(message: string)

  type Decode = string -> Result<string, DecodeError>

  /** The answer to a body read after a cache hit: the route's generic handler. */
  function HitDecodeError(e: DecodeError): HttpError {
    HttpError(ServerError, "Internal server error: " + e.message)
  }

  /** The answer to a freshly fetched body that cannot be read: `fetch_and_parse_wiki`
      catches only the JSON syntax error; anything else reaches the route's generic handler. */
  function MissDecodeError(e: DecodeError): (r: HttpError)
    ensures r.status == ServerError
    ensures e.SyntaxError? <==> r.detail == "Failed to parse wiki content from GitLab API"
  {
    match e
    case SyntaxError(_) => HttpError(ServerError, "Failed to parse wiki content from GitLab API")
    case OtherError(m) =>
      var detail := "Internal server error: " + m;
      assert detail[0] == 'I' && "Failed to parse wiki content from GitLab API"[0] == 'F';
      HttpError(ServerError, detail)
  }

  datatype DashboardResponse = DashboardResponse(groups: seq<ProductGroup>, lastUpdated: string)

  /** The answer to one dashboard request, and the page body written to the cache, if any. */
  datatype Served = Served(response: Result<DashboardResponse, HttpError>, stored: Option<string>)

  /** The cookies `fetch_wiki_content` sends for a mint session. */
  function CookiesFor(mintSession: Option<string>): map<string, string> {
    if mintSession.None? then map[] else Cookies(mintSession.value)
  }

  /** Serving the dashboard of a wiki URL from the cache table `entries` at time `now`. */
  function Serve(wikiUrl: string, mintSession: Option<string>, entries: map<string, Entry>, now: int,
                 fetch: Fetch, decode: Decode, stamp: string): (o: Served)
    ensures o.response.Failure? ==> o.stored.None?
    ensures o.stored.Some? ==> ExtractApiUrl(wikiUrl).Success?
                               && fetch(ExtractApiUrl(wikiUrl).value, CookiesFor(mintSession)) == Success(o.stored.value)
    ensures o.response.Success? ==> o.response.value.lastUpdated == stamp
    ensures ExtractApiUrl(wikiUrl).Failure? ==> o == Served(Failure(ExtractApiUrl(wikiUrl).error), None)
    ensures ExtractApiUrl(wikiUrl).Success? ==>
      var api := ExtractApiUrl(wikiUrl).value;
      var cached := Lookup(entries, api, now, CacheExpiryMinutes);
      var page := fetch(api, CookiesFor(mintSession));
      !(cached.Some? && cached.value != "") ==>
        && (page.Failure? ==> o == Served(Failure(page.error), None))
        && (page.Success? && decode(page.value).Failure? ==> o == Served(Failure(MissDecodeError(decode(page.value).error)), None))
        && (page.Success? && decode(page.value).Success? ==>
              o == Served(Success(DashboardResponse(WikiParser.Parse(decode(page.value).value), stamp)), Some(page.value)))
  {
    var api := ExtractApiUrl(wikiUrl);
    if api.Failure? then Served(Failure(api.error), None)
    else
      var cached := Lookup(entries, api.value, now, CacheExpiryMinutes);
      if cached.Some? && cached.value != "" then
        var markdown := decode(cached.value);
        if markdown.Failure? then Served(Failure(HitDecodeError(markdown.error)), None)
        else Served(Success(DashboardResponse(WikiParser.Parse(markdown.value), stamp)), None)
      else
        var content := fetch(api.value, CookiesFor(mintSession));
        if content.Failure? then Served(Failure(content.error), None)
        else
          var markdown := decode(content.value);
          if markdown.Failure? then Served(Failure(MissDecodeError(markdown.error)), None)
          else Served(Success(DashboardResponse(WikiParser.Parse(markdown.value), stamp)), Some(content.value))
  }

  /** The cache table after serving: the stored body goes under the API URL. */
  function AfterServe(entries: map<string, Entry>, wikiUrl: string, stored: Option<string>, now: int): map<string, Entry> {
    if stored.Some? && ExtractApiUrl(wikiUrl).Success? then entries[ExtractApiUrl(wikiUrl).value := Entry(stored.value, now)]
    else entries
  }

  /** A fresh non-empty cached copy is parsed without fetching and the cache is left alone. */
  lemma HitIgnoresFetch(wikiUrl: string, m1: Option<string>, m2: Option<string>, entries: map<string, Entry>, now: int,
                        f1: Fetch, f2: Fetch, decode: Decode, stamp: string)
    requires ExtractApiUrl(wikiUrl).Success?
    requires Lookup(entries, ExtractApiUrl(wikiUrl).value, now, CacheExpiryMinutes).Some?
    requires Lookup(entries, ExtractApiUrl(wikiUrl).value, now, CacheExpiryMinutes).value != ""
    ensures Serve(wikiUrl, m1, entries, now, f1, decode, stamp) == Serve(wikiUrl, m2, entries, now, f2, decode, stamp)
    ensures Serve(wikiUrl, m1, entries, now, f1, decode, stamp).stored == None
    ensures decode(entries[ExtractApiUrl(wikiUrl).value].content).Success? ==>
              Serve(wikiUrl, m1, entries, now, f1, decode, stamp).response
                == Success(DashboardResponse(WikiParser.Parse(decode(entries[ExtractApiUrl(wikiUrl).value].content).value), stamp))
  {
  }

  /** A miss answers with the fetched page and caches its body; serving again within
      fifteen minutes is a hit that answers the same groups whatever the fetch would do. */
  lemma ServeAgain(wikiUrl: string, mintSession: Option<string>, entries: map<string, Entry>, now: int, later: int,
                   fetch: Fetch, again: Fetch, decode: Decode, stamp: string, stamp2: string)
    requires Serve(wikiUrl, mintSession, entries, now, fetch, decode, stamp).stored.Some?
    requires Serve(wikiUrl, mintSession, entries, now, fetch, decode, stamp).stored.value != ""
    requires later - now <= CacheExpiryMinutes * 60
    ensures var o := Serve(wikiUrl, mintSession, entries, now, fetch, decode, stamp);
      && o.response.Success?
      && Serve(wikiUrl, mintSession, AfterServe(entries, wikiUrl, o.stored, now), later, again, decode, stamp2)
           == Served(Success(DashboardResponse(o.response.value.groups, stamp2)), None)
  {
    var api := ExtractApiUrl(wikiUrl).value;
    var o := Serve(wikiUrl, mintSession, entries, now, fetch, decode, stamp);
    var e := AfterServe(entries, wikiUrl, o.stored, now);
    assert e[api] == Entry(o.stored.value, now);
    assert Lookup(e, api, later, CacheExpiryMinutes) == Some(o.stored.value);
  }

  /** The cache-or-fetch block both dashboard endpoints run. */
  method ServeWiki(c: WikiCache, wikiUrl: string, mintSession: Option<string>, now: int,
                   fetch: Fetch, decode: Decode, stamp: string) returns (r: Result<DashboardResponse, HttpError>)
    modifies c
    ensures var o := Serve(wikiUrl, mintSession, old(c.entries), now, fetch, decode, stamp);
      r == o.response && c.entries == AfterServe(old(c.entries), wikiUrl, o.stored, now)
  {
    var api := ExtractApiUrl(wikiUrl);
    if api.Failure? {
      return Failure(api.error);
    }
    var cached := c.GetFresh(api.value, now);
    if cached.Some? && cached.value != "" {
      var markdown := decode(cached.value);
      if markdown.Failure? {
        return Failure(HitDecodeError(markdown.error));
      }
      return Success(DashboardResponse(WikiParser.Parse(markdown.value), stamp));
    }
    // `fetch_and_parse_wiki`: fetch, decode, parse.
    var cookies := CookiesFor(mintSession);
    var page := fetch(api.value, cookies);
    if page.Failure? {
      return Failure(page.error);
    }
    var markdown := decode(page.value);
    if markdown.Failure? {
      return Failure(MissDecodeError(markdown.error));
    }
    var groups := WikiParser.Parse(markdown.value);
    // The endpoint fetches the raw body a second time to cache it; `fetch` being a
    // function, that second fetch returns the same body.
    c.Put(api.value, page.value, now);
    return Success(DashboardResponse(groups, stamp));
  }

  /** `GET /api/dashboard`: the caller's own wiki, fetched with the caller's mint session. */
  method GetDashboard(s: Store, c: WikiCache, token: string, now: int, fetch: Fetch, decode: Decode, stamp: string)
    returns (r: Result<DashboardResponse, HttpError>)
    modifies c
    ensures r.Failure? ==> c.entries == old(c.entries)
    ensures CurrentUser(s, token, now).Failure? ==> r == Failure(CurrentUser(s, token, now).error)
    ensures CurrentUser(s, token, now).Success? && CurrentUser(s, token, now).value.wikiUrl == "" ==>
              r == Failure(HttpError(BadRequest, "User does not have a wiki URL configured"))
    ensures CurrentUser(s, token, now).Success? && CurrentUser(s, token, now).value.wikiUrl != "" ==>
              var user := CurrentUser(s, token, now).value;
              var o := Serve(user.wikiUrl, user.mintSession, old(c.entries), now, fetch, decode, stamp);
              r == o.response && c.entries == AfterServe(old(c.entries), user.wikiUrl, o.stored, now)
  {
    var user := CurrentUser(s, token, now);
    if user.Failure? {
      return Failure(user.error);
    }
    if user.value.wikiUrl == "" {
      return Failure(HttpError(BadRequest, "User does not have a wiki URL configured"));
    }
    r := ServeWiki(c, user.value.wikiUrl, user.value.mintSession, now, fetch, decode, stamp);
  }

  /** `GET /api/dashboard/{username}`: the user themself or an admin; the wiki is fetched
      with the mint session of the target user's newest session. */
  method GetUserDashboard(s: Store, c: WikiCache, token: string, now: int, username: string,
                          fetch: Fetch, decode: Decode, stamp: string)
    returns (r: Result<DashboardResponse, HttpError>)
    modifies c
    ensures r.Failure? ==> c.entries == old(c.entries)
    ensures CurrentUser(s, token, now).Failure? ==> r == Failure(CurrentUser(s, token, now).error)
    ensures CurrentUser(s, token, now).Success? && !CurrentUser(s, token, now).value.isAdmin
            && username != CurrentUser(s, token, now).value.username ==>
              r == Failure(HttpError(Forbidden, "Not authorized to view this dashboard"))
    ensures CurrentUser(s, token, now).Success?
            && (CurrentUser(s, token, now).value.isAdmin || username == CurrentUser(s, token, now).value.username) ==>
              && (username !in s.users ==> r == Failure(HttpError(NotFound, "User not found")))
              && (username in s.users && s.users[username].wikiUrl == "" ==>
                    r == Failure(HttpError(BadRequest, "User does not have a wiki URL configured")))
              && (username in s.users && s.users[username].wikiUrl != "" ==>
                    exists m :: s.LatestOf(username, m)
                      && var o := Serve(s.users[username].wikiUrl, m, old(c.entries), now, fetch, decode, stamp);
                         r == o.response && c.entries == AfterServe(old(c.entries), s.users[username].wikiUrl, o.stored, now))
  {
    var caller := CurrentUser(s, token, now);
    if caller.Failure? {
      return Failure(caller.error);
    }
    if !caller.value.isAdmin && username != caller.value.username {
      return Failure(HttpError(Forbidden, "Not authorized to view this dashboard"));
    }
    var user := s.UserByUsername(username);
    if user.None? {
      return Failure(HttpError(NotFound, "User not found"));
    }
    var wikiUrl := user.value.wikiUrl;
    var mintSession := s.LatestMintSession(username);
    if wikiUrl == "" {
      return Failure(HttpError(BadRequest, "User does not have a wiki URL configured"));
    }
    r := ServeWiki(c, wikiUrl, mintSession, now, fetch, decode, stamp);
  }

  /** `POST /api/clear-cache`: any authenticated caller empties the whole cache. */
  method ClearCache(s: Store, c: WikiCache, token: string, now: int) returns (r: Result<string, HttpError>)
    modifies c
    ensures r.Success? <==> CurrentUser(s, token, now).Success?
    ensures r.Failure? ==> r.error == HttpError(Unauthorized, "Invalid or expired token") && c.entries == old(c.entries)
    ensures r.Success? ==> r.value == "Cache cleared successfully" && c.entries == map[]
  {
    var caller := CurrentUser(s, token, now);
    if caller.Failure? {
      return Failure(caller.error);
    }
    c.Clear();
    return Success("Cache cleared successfully");
  }
}
