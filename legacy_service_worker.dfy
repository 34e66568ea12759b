/**
 * The older service worker (`sw.js/public/sw.js`): it precaches eight assets
 * with no error handling, evicts other buckets on activate, and intercepts
 * every request without a method or scheme filter. Navigations are served
 * network-first, everything else from the cache or else the network (a
 * request other than GET never matches a cached entry), and nothing is
 * written to the cache while serving.
 */
module LegacyServiceWorker {
  import opened JsStrings
  import opened CacheStorage

  const CacheName: string := "dream-os-v13-cache"
  const OfflineUrl: string := "/offline.html"
  const AssetsToCache: seq<string> := [
    "/",
    "/index.html",
    "/manifest.json",
    "/assets/css/main.css",
    "/assets/js/app.js",
    "/icons/dreamos-192.png",
    "/icons/dreamos-512.png",
    "/offline.html"
  ]

  /** The fetch handler's decision over the cache as it stands and the outcome of `fetch(request)`. */
  function Route(req: Request, names: seq<string>, buckets: map<string, Bucket>, origin: string,
                 net: NetResult): FetchStep
  {
    if req.mode == "navigate" then
      FetchStep(RespondWith(if net.Fetched? then Some(net.response)
                            else MatchIn(names, buckets, origin + OfflineUrl)), None, true)
    else
      match MatchRequestIn(names, buckets, req)
      case Some(cached) => FetchStep(RespondWith(Some(cached)), None, false)
      case None => FetchStep(RespondWith(if net.Fetched? then Some(net.response) else None), None, true)
  }

  /** Every request is answered by the worker, whatever its method or scheme, and nothing is ever stored. */
  lemma InterceptsEverything(req: Request, names: seq<string>, buckets: map<string, Bucket>,
                             origin: string, net: NetResult)
    ensures var s := Route(req, names, buckets, origin, net);
      s.result.RespondWith? && s.store.None?
  {
  }

  /** A navigation is served network-first, with the cached offline page when the fetch fails. */
  lemma NavigationNetworkFirst(req: Request, names: seq<string>, buckets: map<string, Bucket>,
                               origin: string, net: NetResult)
    requires req.mode == "navigate"
    ensures Route(req, names, buckets, origin, net).result ==
      RespondWith(if net.Fetched? then Some(net.response) else MatchIn(names, buckets, origin + "/offline.html"))
  {
  }

  /**
   * Any other request gets the cached entry when `caches.match(request)` finds
   * one (without a network call), else the network's response; a network
   * failure then reaches the page.
   */
  lemma CacheThenNetwork(req: Request, names: seq<string>, buckets: map<string, Bucket>,
                         origin: string, net: NetResult)
    requires req.mode != "navigate"
    ensures var s := Route(req, names, buckets, origin, net);
      var cached := MatchRequestIn(names, buckets, req);
      (cached.Some? ==> s.result == RespondWith(cached) && !s.networkUsed) &&
      (cached.None? ==> s.result == RespondWith(if net.Fetched? then Some(net.response) else None) && s.networkUsed)
  {
  }

  /**
   * A request that is neither a navigation nor a GET is intercepted but can
   * never be answered from the cache: it always goes to the network, whatever
   * the buckets hold, and a network failure reaches the page.
   */
  lemma NonGetUsesNetwork(req: Request, names: seq<string>, buckets: map<string, Bucket>,
                          origin: string, net: NetResult)
    requires req.mode != "navigate" && req.httpMethod != "GET"
    ensures var s := Route(req, names, buckets, origin, net);
      && s.networkUsed && s.store.None?
      && s.result == RespondWith(if net.Fetched? then Some(net.response) else None)
  {
  }

  /**
   * The install handler: open the bucket, `addAll` the eight assets, then
   * `skipWaiting`. With no `catch`, a failed `addAll` rejects the install
   * (`installed` is false) and the opened bucket stays as it was.
   */
  method Install(caches: Caches, origin: string, net: string -> NetResult) returns (installed: bool)
    requires caches.Valid()
    modifies caches
    ensures caches.Valid()
    ensures var fetched := AddAll(Resolve(origin, AssetsToCache), net);
      && installed == fetched.Some?
      && caches.names == NamesAfterOpen(old(caches.names), old(caches.buckets), CacheName)
      && caches.buckets == BucketsAfterPut(old(caches.buckets), CacheName,
                                           if fetched.Some? then fetched.value else map[])
    ensures installed ==> forall p :: p in AssetsToCache ==> origin + p in caches.buckets[CacheName]
  {
    var fetched := AddAll(Resolve(origin, AssetsToCache), net);
    caches.Put(CacheName, if fetched.Some? then fetched.value else map[]);
    installed := fetched.Some?;
    if installed {
      forall p | p in AssetsToCache
        ensures origin + p in caches.buckets[CacheName]
      {
        var i :| 0 <= i < |AssetsToCache| && AssetsToCache[i] == p;
        assert Resolve(origin, AssetsToCache)[i] == origin + p;
      }
    }
  }

  /** The activate handler: delete every bucket not named `CacheName`, then claim the open pages. */
  method Activate(caches: Caches) returns (claimed: bool)
    requires caches.Valid()
    modifies caches
    ensures caches.Valid() && claimed
    ensures forall n :: n in caches.buckets <==> n == CacheName && n in old(caches.buckets)
    ensures CacheName in caches.buckets ==> caches.buckets[CacheName] == old(caches.buckets)[CacheName]
  {
    caches.DeleteAllExcept(CacheName);
    claimed := true;
  }

  /** The fetch handler: reads the cache and never changes it. */
  method HandleFetch(caches: Caches, origin: string, req: Request, net: NetResult)
    returns (result: FetchResult, networkUsed: bool)
    ensures var s := Route(req, caches.names, caches.buckets, origin, net);
      result == s.result && networkUsed == s.networkUsed
  {
    if req.mode == "navigate" {
      networkUsed := true;
      result := RespondWith(if net.Fetched? then Some(net.response) else caches.Match(origin + OfflineUrl));
    } else {
      var response := caches.MatchRequest(req);
      if response.Some? {
        result, networkUsed := RespondWith(response), false;
      } else {
        result, networkUsed := RespondWith(if net.Fetched? then Some(net.response) else None), true;
      }
    }
  }
}
