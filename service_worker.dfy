/**
 * The current service worker (`public/sw.js`): precache on install (failures
 * caught), evict every other bucket on activate, and route GET requests over
 * http(s): network-first for navigations, cache-first with store-on-200 for
 * everything else.
 *
 * Routing is the function `Route`; the handlers are methods over the
 * browser's `Caches`. `waitUntil`, `skipWaiting` and `clients.claim` appear
 * only as the flags the handlers report.
 */
module ServiceWorker {
  import opened JsStrings
  import opened CacheStorage

  const CacheName: string := "dream-os-v13-cache-v2"
  const OfflineUrl: string := "/offline.html"
  const AssetsToCache: seq<string> := ["/", "/offline.html", "/dreamos-icon.png", "/favicon.ico"]

  /** The handler intercepts only GET requests whose URL starts with "http". */
  predicate Intercepted(req: Request) {
    req.httpMethod == "GET" && StartsWith(req.url, "http")
  }

  /**
   * The fetch handler's decision, given the cache as it stands (`names`,
   * `buckets`), the worker's origin (against which `OFFLINE_URL` is resolved)
   * and the outcome `net` of `fetch(request)`, consulted only when the handler fetches.
   */
  function Route(req: Request, names: seq<string>, buckets: map<string, Bucket>, origin: string,
                 net: NetResult): FetchStep
  {
    if !Intercepted(req) then
      FetchStep(PassThrough, None, false)
    else if req.mode == "navigate" then
      var fallback := MatchIn(names, buckets, origin + OfflineUrl);
      FetchStep(RespondWith(if net.Fetched? then Some(net.response) else fallback), None, true)
    else
      match MatchIn(names, buckets, req.url)
      case Some(cached) => FetchStep(RespondWith(Some(cached)), None, false)
      case None =>
        if net.Fetched? then
          var store := if net.response.status == 200 then Some(net.response) else None;
          FetchStep(RespondWith(Some(net.response)), store, true)
        else if req.destination == "document" then
          FetchStep(RespondWith(MatchIn(names, buckets, origin + OfflineUrl)), None, true)
        else
          FetchStep(RespondWith(None), None, true)
  }

  /** Non-GET and non-http requests are left to the browser: no response, no network call, no write. */
  lemma SkipsNonGetAndNonHttp(req: Request, names: seq<string>, buckets: map<string, Bucket>,
                              origin: string, net: NetResult)
    ensures var s := Route(req, names, buckets, origin, net);
      (s.result == PassThrough <==> req.httpMethod != "GET" || !StartsWith(req.url, "http")) &&
      (s.result == PassThrough ==> s.store.None? && !s.networkUsed)
  {
  }

  /** A navigation gets the network's response, or the cached offline page when the fetch fails; nothing is stored. */
  lemma NavigationNetworkFirst(req: Request, names: seq<string>, buckets: map<string, Bucket>,
                               origin: string, net: NetResult)
    requires Intercepted(req) && req.mode == "navigate"
    ensures var s := Route(req, names, buckets, origin, net);
      s.store.None? && s.networkUsed &&
      s.result == RespondWith(
        if net.Fetched? then Some(net.response) else MatchIn(names, buckets, origin + "/offline.html"))
  {
  }

  /** Any other GET with a cache hit is answered from the cache without calling the network. */
  lemma CacheHitWithoutNetwork(req: Request, names: seq<string>, buckets: map<string, Bucket>,
                               origin: string, net: NetResult)
    requires Intercepted(req) && req.mode != "navigate"
    requires MatchIn(names, buckets, req.url).Some?
    ensures var s := Route(req, names, buckets, origin, net);
      s == FetchStep(RespondWith(MatchIn(names, buckets, req.url)), None, false)
  {
  }

  /** On a miss the network's response is returned, and stored exactly when its status is 200. */
  lemma MissStoresIff200(req: Request, names: seq<string>, buckets: map<string, Bucket>,
                         origin: string, response: Response)
    requires Intercepted(req) && req.mode != "navigate"
    requires MatchIn(names, buckets, req.url).None?
    ensures var s := Route(req, names, buckets, origin, Fetched(response));
      s.result == RespondWith(Some(response)) && s.networkUsed &&
      (s.store.Some? <==> response.status == 200) && (s.store.Some? ==> s.store.value == response)
  {
  }

  /** A miss followed by a network failure yields the offline page exactly for document requests, else undefined. */
  lemma MissAndFailure(req: Request, names: seq<string>, buckets: map<string, Bucket>, origin: string)
    requires Intercepted(req) && req.mode != "navigate"
    requires MatchIn(names, buckets, req.url).None?
    ensures var s := Route(req, names, buckets, origin, NetworkFailure);
      s.store.None? &&
      s.result == RespondWith(if req.destination == "document" then MatchIn(names, buckets, origin + "/offline.html") else None)
  {
  }

  /**
   * The round trip of a runtime-cached asset: fetched once on a miss with a 200,
   * the same request afterwards is served the same response from the cache,
   * whatever the network would do.
   */
  lemma SecondRequestServedFromCache(req: Request, names: seq<string>, buckets: map<string, Bucket>,
                                     origin: string, response: Response, later: NetResult)
    requires buckets.Keys == NameSet(names)
    requires Intercepted(req) && req.mode != "navigate"
    requires MatchIn(names, buckets, req.url).None? && response.status == 200
    ensures var first := Route(req, names, buckets, origin, Fetched(response));
      var second := Route(req, NamesAfterOpen(names, buckets, CacheName),
                          BucketsAfterPut(buckets, CacheName, map[req.url := first.store.value]), origin, later);
      first.store == Some(response) && first.networkUsed &&
      second.result == first.result && !second.networkUsed
  {
    MatchAfterPut(names, buckets, CacheName, req.url, response);
  }

  /**
   * The install handler: open the bucket, `addAll` the resolved asset list,
   * then `skipWaiting`. A failed `addAll` is caught and logged, so install
   * still succeeds; the opened bucket then stays as it was and `skipWaiting`
   * is not reached.
   */
  method Install(caches: Caches, origin: string, net: string -> NetResult) returns (skippedWaiting: bool)
    requires caches.Valid()
    modifies caches
    ensures caches.Valid()
    ensures var fetched := AddAll(Resolve(origin, AssetsToCache), net);
      && skippedWaiting == fetched.Some?
      && caches.names == NamesAfterOpen(old(caches.names), old(caches.buckets), CacheName)
      && caches.buckets == BucketsAfterPut(old(caches.buckets), CacheName,
                                           if fetched.Some? then fetched.value else map[])
    ensures skippedWaiting ==> forall p :: p in AssetsToCache ==> origin + p in caches.buckets[CacheName]
  {
    var fetched := AddAll(Resolve(origin, AssetsToCache), net);
    caches.Put(CacheName, if fetched.Some? then fetched.value else map[]);
    skippedWaiting := fetched.Some?;
    if skippedWaiting {
      forall p | p in AssetsToCache
        ensures origin + p in caches.buckets[CacheName]
      {
        var i :| 0 <= i < |AssetsToCache| && AssetsToCache[i] == p;
        assert Resolve(origin, AssetsToCache)[i] == origin + p;
      }
    }
  }

  /**
   * The activate handler: delete every bucket not named `CacheName`, then
   * claim the open pages (reported as `claimed`).
   */
  method Activate(caches: Caches) returns (claimed: bool)
    requires caches.Valid()
    modifies caches
    ensures caches.Valid() && claimed
    ensures forall n :: n in caches.buckets <==> n == CacheName && n in old(caches.buckets)
    ensures CacheName in caches.buckets ==> caches.buckets[CacheName] == old(caches.buckets)[CacheName]
  {
    caches.DeleteAllExcept(CacheName);
    claimed := true;
  }

  /**
   * The fetch handler: answers as `Route` says and, on a cache miss with a
   * 200 response, puts a copy into the `CacheName` bucket under the request
   * URL (the un-awaited `cache.put`, taken as immediate).
   */
  method HandleFetch(caches: Caches, origin: string, req: Request, net: NetResult)
    returns (result: FetchResult, networkUsed: bool)
    requires caches.Valid()
    modifies caches
    ensures caches.Valid()
    ensures var s := Route(req, old(caches.names), old(caches.buckets), origin, net);
      && result == s.result && networkUsed == s.networkUsed
      && (s.store.None? ==> caches.names == old(caches.names) && caches.buckets == old(caches.buckets))
      && (s.store.Some? ==>
            caches.names == NamesAfterOpen(old(caches.names), old(caches.buckets), CacheName) &&
            caches.buckets == BucketsAfterPut(old(caches.buckets), CacheName, map[req.url := s.store.value]))
  {
    if req.httpMethod != "GET" || !StartsWith(req.url, "http") {
      return PassThrough, false;
    }
    if req.mode == "navigate" {
      networkUsed := true;
      if net.Fetched? {
        result := RespondWith(Some(net.response));
      } else {
        result := RespondWith(caches.Match(origin + OfflineUrl));
      }
      return;
    }
    var cached := caches.Match(req.url);
    if cached.Some? {
      return RespondWith(cached), false;
    }
    networkUsed := true;
    if net.Fetched? {
      if net.response.status == 200 {
        caches.Put(CacheName, map[req.url := net.response]);
      }
      result := RespondWith(Some(net.response));
    } else if req.destination == "document" {
      result := RespondWith(caches.Match(origin + OfflineUrl));
    } else {
      result := RespondWith(None);
    }
  }
}
