/**
 * The Worker's `fetch` handler: two API routes answered from the shared
 * response cache or from the clients, and every other path handed to the
 * static assets with a custom not-found page.
 */
module Router {
  import opened Wrappers
  import opened Fetch
  import Credentials
  import Spotify
  import Strava

  const SpotifyPath: string := "/spotify/recent"
  const StravaPath: string := "/strava/recent"
  const CacheControl: string := "public, s-maxage=3600"

  datatype Api = SpotifyRecent | StravaRecent

  /** The API route a path names, by exact equality; None for every other
      path. */
  function ApiOf(path: string): (r: Option<Api>)
    ensures r == Some(SpotifyRecent) <==> path == SpotifyPath
    ensures r == Some(StravaRecent) <==> path == StravaPath
  {
    if path == SpotifyPath then Some(SpotifyRecent)
    else if path == StravaPath then Some(StravaRecent)
    else None
  }

  /** A record the API routes serialize with `JSON.stringify`. */
  datatype Payload = TrackJson(track: Spotify.TrackRecord) | ActivityJson(activity: Strava.ActivityRecord)

  /** What a response body holds. */
  datatype Body =
    | PayloadJson(payload: Payload)
    | ErrorJson(message: string)
    | Passthrough(content: string)
    | Text(text: string)

  datatype Response = Response(status: nat, headers: Pairs, body: Body)

  /** What the route's client call came to. */
  datatype ProviderOutcome = Found(payload: Payload) | NoData | Threw(message: string)

  /** The two answers of the ASSETS binding: for the request itself and for
      the site's /404.html. */
  datatype AssetReplies = AssetReplies(forRequest: Response, notFoundPage: Response)

  /** The static side: whether the ASSETS binding exists (and what it
      answers), and what fetching /404.html from the origin answers. */
  datatype StaticSite = StaticSite(assets: Option<AssetReplies>, originNotFoundPage: Response)

  function JsonHeaders(): Pairs
  {
    [("Content-Type", "application/json")]
  }

  function SuccessHeaders(): Pairs
  {
    [("Content-Type", "application/json"), ("Cache-Control", CacheControl)]
  }

  function NotFoundMessage(api: Api): string
  {
    match api
    case SpotifyRecent => "No recent tracks found"
    case StravaRecent => "No recent activities found"
  }

  /** The only kind of response the cache may hold: a 200 JSON record
      marked for shared caching for an hour. */
  predicate Cacheable(r: Response)
  {
    r.status == 200 && r.body.PayloadJson? && Lookup(r.headers, "Cache-Control") == Some(CacheControl)
  }

  /** The response of an API route once its client has been called. */
  function ApiResponse(api: Api, outcome: ProviderOutcome): (r: Response)
    ensures Cacheable(r) <==> outcome.Found?
    ensures outcome.Found? ==> r.status == 200 && r.body == PayloadJson(outcome.payload)
    ensures outcome.NoData? ==> r == Response(404, JsonHeaders(), ErrorJson(NotFoundMessage(api)))
    ensures outcome.Threw? ==> r == Response(500, JsonHeaders(), ErrorJson(outcome.message))
    ensures Lookup(r.headers, "Content-Type") == Some("application/json")
  {
    assert "Content-Type" != "Cache-Control";
    LookupAt(SuccessHeaders(), "Cache-Control", 1);
    match outcome
    case Found(payload) => Response(200, SuccessHeaders(), PayloadJson(payload))
    case NoData => Response(404, JsonHeaders(), ErrorJson(NotFoundMessage(api)))
    case Threw(message) => Response(500, JsonHeaders(), ErrorJson(message))
  }

  /** The response for any other path. With ASSETS, the asset's own
      response unless it is a 404, which is replaced by /404.html under
      status 404; without ASSETS, always a 404. */
  function StaticResponse(site: StaticSite): (r: Response)
    ensures r.status != 404 ==> site.assets.Some? && r == site.assets.value.forRequest
    ensures site.assets.Some? && site.assets.value.forRequest.status != 404 ==> r == site.assets.value.forRequest
    ensures site.assets.Some? && site.assets.value.forRequest.status == 404 ==>
      r == Response(404, site.assets.value.notFoundPage.headers, site.assets.value.notFoundPage.body)
    ensures site.assets.None? ==>
      r == if IsOk(site.originNotFoundPage.status)
           then Response(404, site.originNotFoundPage.headers, site.originNotFoundPage.body)
           else Response(404, [("Content-Type", "text/plain;charset=UTF-8")], Text("Not Found"))
  {
    match site.assets
    case Some(assets) =>
      if assets.forRequest.status == 404 then
        Response(404, assets.notFoundPage.headers, assets.notFoundPage.body)
      else assets.forRequest
    case None =>
      var page := site.originNotFoundPage;
      if IsOk(page.status) then Response(404, page.headers, page.body)
      else Response(404, [("Content-Type", "text/plain;charset=UTF-8")], Text("Not Found"))
  }

  function OutcomeOf(api: Api, spotify: ProviderOutcome, strava: ProviderOutcome): ProviderOutcome
  {
    match api
    case SpotifyRecent => spotify
    case StravaRecent => strava
  }

  /** What the handler does: the response, which client it calls (if any),
      and whether the response is put in the cache. */
  datatype Decision = Decision(response: Response, called: Option<Api>, store: bool)

  /** The handler's decision, given the path, what the cache holds for the
      request, what each client would come to, and the static side. */
  function Decide(path: string, cached: Option<Response>, spotify: ProviderOutcome, strava: ProviderOutcome,
                  site: StaticSite): (d: Decision)
    ensures d.called == if cached.None? then ApiOf(path) else None
    ensures ApiOf(path).Some? && cached.Some? ==> d.response == cached.value && !d.store
    ensures d.called.Some? ==> d.response == ApiResponse(d.called.value, OutcomeOf(d.called.value, spotify, strava))
    ensures d.store <==> d.called.Some? && OutcomeOf(d.called.value, spotify, strava).Found?
    ensures d.store ==> Cacheable(d.response)
    ensures ApiOf(path).None? ==> d == Decision(StaticResponse(site), None, false)
  {
    match ApiOf(path)
    case None => Decision(StaticResponse(site), None, false)
    case Some(api) =>
      if cached.Some? then Decision(cached.value, None, false)
      else
        var outcome := OutcomeOf(api, spotify, strava);
        Decision(ApiResponse(api, outcome), Some(api), outcome.Found?)
  }

  /** Once a response is stored, the same path is answered from the cache
      with that response and no client is called, whatever the clients
      would now come to. */
  lemma StoredResponseIsReplayed(path: string, spotify: ProviderOutcome, strava: ProviderOutcome, site: StaticSite,
                                 spotify': ProviderOutcome, strava': ProviderOutcome, site': StaticSite)
    requires Decide(path, None, spotify, strava, site).store
    ensures var first := Decide(path, None, spotify, strava, site).response;
            Decide(path, Some(first), spotify', strava', site') == Decision(first, None, false)
  {
  }

  /** The outcome of the music client as the route sees it. */
  function SpotifyOutcome(raw: Credentials.Raw, replies: Spotify.Replies): (o: ProviderOutcome)
    ensures Credentials.Normalize(raw).None? ==> o == Threw(Spotify.MissingCredentialsMessage)
  {
    match Spotify.RecentTrack(raw, replies).result
    case Failure(e) => Threw(Spotify.Message(e))
    case Success(None) => NoData
    case Success(Some(track)) => Found(TrackJson(track))
  }

  /** The outcome of the fitness client as the route sees it. */
  function StravaOutcome(raw: Credentials.Raw, replies: Strava.Replies): (o: ProviderOutcome)
    ensures Credentials.Normalize(raw).None? ==> o == Threw(Strava.MissingCredentialsMessage)
  {
    match Strava.RecentActivity(raw, replies).result
    case Failure(e) => Threw(Strava.Message(e))
    case Success(None) => NoData
    case Success(Some(activity)) => Found(ActivityJson(activity))
  }

  /** A played-history reply with no items, after a good token exchange,
      becomes a 404 with the track-specific error body, and is not stored. */
  lemma EmptyHistoryIsNotFound(env: Env, upstream: Upstream, strava: ProviderOutcome)
    requires Credentials.Normalize(env.spotify).Some?
    requires Spotify.AccessToken(env.spotify, upstream.spotify.token).result.Success?
    requires IsOk(upstream.spotify.recent.status) && upstream.spotify.recent.json.items == Some([])
    ensures var d := Decide(SpotifyPath, None, SpotifyOutcome(env.spotify, upstream.spotify), strava, upstream.site);
            && d.response == Response(404, JsonHeaders(), ErrorJson("No recent tracks found"))
            && !d.store
  {
  }

  /** A credential that cleans to nothing turns a cache miss on the
      activity route into a 500 carrying the Strava message, with no
      request sent and nothing stored. */
  lemma MissingStravaCredentialsIsServerError(strava: Credentials.Raw, replies: Strava.Replies,
                                               spotify: ProviderOutcome, site: StaticSite)
    requires Credentials.Normalize(strava).None?
    ensures var d := Decide(StravaPath, None, spotify, StravaOutcome(strava, replies), site);
            && d.response == Response(500, JsonHeaders(), ErrorJson("Missing Strava credentials in environment"))
            && !d.store
            && Strava.RecentActivity(strava, replies).sent == []
  {
  }

  /** The Worker's environment: the two credential triples. */
  datatype Env = Env(spotify: Credentials.Raw, strava: Credentials.Raw)

  /** Everything the handler may be answered from outside. */
  datatype Upstream = Upstream(spotify: Spotify.Replies, strava: Strava.Replies, site: StaticSite)

  /** An incoming request: its full URL (the cache key), its origin and
      its path. */
  datatype IncomingRequest = IncomingRequest(url: string, origin: string, pathname: string)

  /** An outward call of the handler: a network `fetch`, or a `fetch` on the
      ASSETS binding, which reaches the static assets without the network. */
  datatype Outgoing = Network(request: Request) | Asset(url: string)

  /** `new URL("/404.html", url.origin).toString()`. */
  function NotFoundPageUrl(origin: string): string
  {
    origin + "/404.html"
  }

  /** Requests a client sent, as network calls, in order. */
  function Networked(rs: seq<Request>): (calls: seq<Outgoing>)
    ensures |calls| == |rs| && forall k :: 0 <= k < |rs| ==> calls[k] == Network(rs[k])
  {
    seq(|rs|, k requires 0 <= k < |rs| => Network(rs[k]))
  }

  /** The calls a call of the given client makes. */
  function ClientCalls(api: Api, env: Env, upstream: Upstream): seq<Outgoing>
  {
    match api
    case SpotifyRecent => Networked(Spotify.RecentTrack(env.spotify, upstream.spotify).sent)
    case StravaRecent => Networked(Strava.RecentActivity(env.strava, upstream.strava).sent)
  }

  /** The calls of the static fall-through. With ASSETS: the request itself,
      then /404.html when the asset answers 404, both through the binding.
      Without ASSETS: one network GET of the origin's /404.html. */
  function StaticCalls(request: IncomingRequest, site: StaticSite): (calls: seq<Outgoing>)
    ensures site.assets.Some? ==>
      && 1 <= |calls| <= 2
      && calls[0] == Asset(request.url)
      && (|calls| == 2 <==> site.assets.value.forRequest.status == 404)
      && (|calls| == 2 ==> calls[1] == Asset(NotFoundPageUrl(request.origin)))
    ensures site.assets.None? ==>
      calls == [Network(Request(Get, NotFoundPageUrl(request.origin), [], NoBody))]
  {
    match site.assets
    case Some(assets) =>
      if assets.forRequest.status == 404 then [Asset(request.url), Asset(NotFoundPageUrl(request.origin))]
      else [Asset(request.url)]
    case None => [Network(Request(Get, NotFoundPageUrl(request.origin), [], NoBody))]
  }

  /** Every 404 of the static side was built after fetching /404.html, and
      every other answer is the asset itself, fetched once. */
  lemma StaticNotFoundFetchesPage(request: IncomingRequest, site: StaticSite)
    ensures var calls := StaticCalls(request, site);
            && |calls| > 0
            && (StaticResponse(site).status == 404 ==>
                  calls[|calls| - 1] in {Asset(NotFoundPageUrl(request.origin)),
                                         Network(Request(Get, NotFoundPageUrl(request.origin), [], NoBody))})
            && (StaticResponse(site).status != 404 ==> calls == [Asset(request.url)])
  {
  }

  /** The shared response cache (`caches.default`), keyed by request URL. */
  class ResponseCache {
    var entries: map<string, Response>

    /** Only success responses are ever stored. */
    ghost predicate Valid()
      reads this
    {
      forall url :: url in entries ==> Cacheable(entries[url])
    }

    constructor ()
      ensures entries == map[] && Valid()
    {
      entries := map[];
    }

    /** `cache.match(request)`. */
    function Match(url: string): (r: Option<Response>)
      reads this
      ensures r.Some? <==> url in entries
      ensures r.Some? ==> r.value == entries[url]
      ensures Valid() && r.Some? ==> Cacheable(r.value)
    {
      if url in entries then Some(entries[url]) else None
    }

    /** `cache.put(request, response)`. */
    method Put(url: string, response: Response)
      requires Valid() && Cacheable(response)
      modifies this
      ensures entries == old(entries)[url := response]
      ensures Valid()
    {
      entries := entries[url := response];
    }
  }

  /** What a cache, if there is one, holds for a URL. */
  function CachedFor(cache: ResponseCache?, url: string): Option<Response>
    reads cache
  {
    if cache == null then None else cache.Match(url)
  }

  /** The `fetch` handler. It reads the cache only on an API path, calls
      the route's client only on a miss, and stores only a success. */
  method HandleFetch(request: IncomingRequest, env: Env, upstream: Upstream, cache: ResponseCache?)
    returns (response: Response, sent: seq<Outgoing>)
    requires cache != null ==> cache.Valid()
    modifies cache
    ensures cache != null ==> cache.Valid()
    ensures var d := Decide(request.pathname, old(CachedFor(cache, request.url)),
                            SpotifyOutcome(env.spotify, upstream.spotify),
                            StravaOutcome(env.strava, upstream.strava), upstream.site);
            && response == d.response
            && (d.called.Some? ==> sent == ClientCalls(d.called.value, env, upstream))
            && (ApiOf(request.pathname).Some? && d.called.None? ==> sent == [] && Cacheable(response))
            && (ApiOf(request.pathname).None? ==> sent == StaticCalls(request, upstream.site))
            && (cache != null ==> cache.entries == if d.store then old(cache.entries)[request.url := response]
                                                   else old(cache.entries))
  {
    match ApiOf(request.pathname) {
      case None =>
        response, sent := StaticResponse(upstream.site), StaticCalls(request, upstream.site);
      case Some(api) =>
        var cached := if cache == null then None else cache.Match(request.url);
        if cached.Some? {
          response, sent := cached.value, [];
          return;
        }
        var outcome := match api
                       case SpotifyRecent => SpotifyOutcome(env.spotify, upstream.spotify)
                       case StravaRecent => StravaOutcome(env.strava, upstream.strava);
        sent := ClientCalls(api, env, upstream);
        response := ApiResponse(api, outcome);
        if outcome.Found? && cache != null {
          cache.Put(request.url, response);
        }
    }
  }
}
