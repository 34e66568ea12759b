/**
 * The browser's Cache Storage as the two service workers use it: named
 * buckets of stored responses keyed by absolute request URL, with the bucket
 * names kept in creation order (the order `caches.keys()` reports and
 * `caches.match` searches).
 */
module CacheStorage {
  import opened JsStrings

  /** A stored or fetched HTTP response; only the status and the body matter here. */
  datatype Response = Response(status: int, body: string)

  /** One cache bucket: absolute request URL to stored response. */
  type Bucket = map<string, Response>

  /** The outcome of one `fetch`: a response (of any status) or a rejected promise. */
  datatype NetResult = Fetched(response: Response) | NetworkFailure

  /** No name occurs twice. */
  predicate Distinct(names: seq<string>) {
    forall i, j :: 0 <= i < j < |names| ==> names[i] != names[j]
  }

  /**
   * `caches.match(url)`: the entry of the first bucket, in creation order,
   * that holds `url`; `None` (undefined) when none does.
   */
  function MatchIn(names: seq<string>, buckets: map<string, Bucket>, url: string): (r: Option<Response>)
    ensures r.Some? ==> exists i :: 0 <= i < |names| && names[i] in buckets && url in buckets[names[i]] &&
                                   buckets[names[i]][url] == r.value
    ensures r.None? <==> forall i :: 0 <= i < |names| && names[i] in buckets ==> url !in buckets[names[i]]
  {
    if names == [] then None
    else if names[0] in buckets && url in buckets[names[0]] then Some(buckets[names[0]][url])
    else
      var r := MatchIn(names[1..], buckets, url);
      assert forall i :: 1 <= i < |names| ==> names[i] == names[1..][i - 1];
      r
  }

  /**
   * `caches.match(request)` without the `ignoreMethod` option: a request whose
   * method is not GET matches no stored entry; a GET request matches as its URL does.
   */
  function MatchRequestIn(names: seq<string>, buckets: map<string, Bucket>, req: Request): (r: Option<Response>)
    ensures req.httpMethod != "GET" ==> r.None?
    ensures req.httpMethod == "GET" ==> r == MatchIn(names, buckets, req.url)
  {
    if req.httpMethod == "GET" then MatchIn(names, buckets, req.url) else None
  }

  /** The bucket `caches.open(name)` yields: the existing one, or a new empty one. */
  function Opened(buckets: map<string, Bucket>, name: string): Bucket {
    if name in buckets then buckets[name] else map[]
  }

  /** Bucket names after `caches.open(name)`: a new name goes last. */
  function NamesAfterOpen(names: seq<string>, buckets: map<string, Bucket>, name: string): seq<string> {
    if name in buckets then names else names + [name]
  }

  /** Buckets after `caches.open(name)` followed by putting `entries` into it. */
  function BucketsAfterPut(buckets: map<string, Bucket>, name: string, entries: Bucket): map<string, Bucket> {
    buckets[name := Opened(buckets, name) + entries]
  }

  /**
   * Putting `url` into a bucket when no bucket held it before makes
   * `caches.match(url)` answer with exactly the stored response.
   */
  lemma MatchAfterPut(names: seq<string>, buckets: map<string, Bucket>, name: string,
                      url: string, response: Response)
    requires buckets.Keys == NameSet(names)
    requires MatchIn(names, buckets, url).None?
    ensures MatchIn(NamesAfterOpen(names, buckets, name),
                    BucketsAfterPut(buckets, name, map[url := response]), url) == Some(response)
  {
    var names', buckets' := NamesAfterOpen(names, buckets, name), BucketsAfterPut(buckets, name, map[url := response]);
    var k :| 0 <= k < |names'| && names'[k] == name;
    assert names'[k] in buckets' && url in buckets'[names'[k]];
    assert forall i :: 0 <= i < |names'| && names'[i] in buckets' && url in buckets'[names'[i]] ==>
      names'[i] == name;
  }

  /** The precache list resolved against the worker's origin. */
  function Resolve(origin: string, paths: seq<string>): (r: seq<string>)
    ensures |r| == |paths|
    ensures forall i :: 0 <= i < |paths| ==> r[i] == origin + paths[i]
  {
    seq(|paths|, i requires 0 <= i < |paths| => origin + paths[i])
  }

  /**
   * A fetched response `cache.addAll` accepts: one with an ok (2xx) status
   * other than 206, since a partial response is never stored.
   */
  predicate OkFetch(n: NetResult) {
    n.Fetched? && 200 <= n.response.status <= 299 && n.response.status != 206
  }

  /**
   * `cache.addAll(urls)`: every URL is fetched; if any fetch fails or is not ok
   * the whole call rejects (`None`) and nothing is stored, otherwise the entries
   * to store are returned.
   */
  function AddAll(urls: seq<string>, net: string -> NetResult): (r: Option<Bucket>)
    ensures r.Some? <==> forall i :: 0 <= i < |urls| ==> OkFetch(net(urls[i]))
    ensures r.Some? ==> r.value.Keys == NameSet(urls)
    ensures r.Some? ==> forall u :: u in r.value ==> r.value[u] == net(u).response
  {
    if urls == [] then Some(map[])
    else if !OkFetch(net(urls[0])) then None
    else
      var rest := AddAll(urls[1..], net);
      assert forall i :: 1 <= i < |urls| ==> urls[i] == urls[1..][i - 1];
      if rest.None? then None
      else
        assert NameSet(urls) == {urls[0]} + NameSet(urls[1..]);
        Some(rest.value[urls[0] := net(urls[0]).response])
  }

  /** A fetch event's request. */
  datatype Request = Request(httpMethod: string, url: string, mode: string, destination: string)

  /**
   * What a fetch handler does with an event: nothing (the browser then
   * fetches normally), or `respondWith` a response; `None` there is a promise
   * that rejects or resolves to undefined, which the page sees as a network error.
   */
  datatype FetchResult = PassThrough | RespondWith(response: Option<Response>)

  /**
   * One fetch handled: the result, the response the handler puts into the
   * current bucket under the request URL (if any), and whether it called the network.
   */
  datatype FetchStep = FetchStep(result: FetchResult, store: Option<Response>, networkUsed: bool)

  /** `names` without `x`, order kept. */
  function Without(names: seq<string>, x: string): (r: seq<string>)
    ensures forall y :: y in r <==> y in names && y != x
    ensures Distinct(names) ==> Distinct(r)
  {
    if names == [] then []
    else
      var rest := Without(names[1..], x);
      if names[0] == x then rest
      else
        assert Distinct(names) ==> names[0] !in names[1..];
        [names[0]] + rest
  }

  /** The names occurring in `names`. */
  function NameSet(names: seq<string>): set<string> {
    set n | n in names
  }

  class Caches {
    /** Bucket names in creation order. */
    var names: seq<string>
    /** The buckets themselves. */
    var buckets: map<string, Bucket>

    /** Every bucket is named exactly once in `names`. */
    ghost predicate Valid()
      reads this
    {
      buckets.Keys == NameSet(names) && Distinct(names)
    }

    constructor ()
      ensures Valid() && names == [] && buckets == map[]
    {
      names := [];
      buckets := map[];
    }

    /** `caches.match(url)`. */
    function Match(url: string): Option<Response>
      reads this
    {
      MatchIn(names, buckets, url)
    }

    /** `caches.match(request)`. */
    function MatchRequest(req: Request): Option<Response>
      reads this
    {
      MatchRequestIn(names, buckets, req)
    }

    /** `caches.open(name)`: the bucket is created, empty and last in order, if it does not exist. */
    method Open(name: string)
      requires Valid()
      modifies this
      ensures Valid()
      ensures name in buckets
      ensures names == if name in old(buckets) then old(names) else old(names) + [name]
      ensures buckets == if name in old(buckets) then old(buckets) else old(buckets)[name := map[]]
    {
      if name !in buckets {
        names := names + [name];
        buckets := buckets[name := map[]];
      }
    }

    /** `cache.put` of each entry into an opened bucket. */
    method Store(name: string, entries: Bucket)
      requires Valid() && name in buckets
      modifies this
      ensures Valid()
      ensures names == old(names)
      ensures buckets == old(buckets)[name := old(buckets)[name] + entries]
    {
      buckets := buckets[name := buckets[name] + entries];
    }

    /** `caches.open(name)` followed by `cache.put` of each entry. */
    method Put(name: string, entries: Bucket)
      requires Valid()
      modifies this
      ensures Valid()
      ensures names == NamesAfterOpen(old(names), old(buckets), name)
      ensures buckets == BucketsAfterPut(old(buckets), name, entries)
    {
      Open(name);
      Store(name, entries);
    }

    /** `caches.delete(name)`: reports whether the bucket existed. */
    method Delete(name: string) returns (existed: bool)
      requires Valid()
      modifies this
      ensures Valid()
      ensures existed == (name in old(buckets))
      ensures buckets == old(buckets) - {name}
      ensures names == Without(old(names), name)
    {
      existed := name in buckets;
      buckets := buckets - {name};
      names := Without(names, name);
    }

    /**
     * The activate handlers' loop: for every name of `caches.keys()` other than
     * `keep`, `caches.delete(name)`. Afterwards at most the `keep` bucket
     * remains, with its contents untouched.
     */
    method DeleteAllExcept(keep: string)
      requires Valid()
      modifies this
      ensures Valid()
      ensures forall n :: n in buckets <==> n == keep && n in old(buckets)
      ensures keep in buckets ==> buckets[keep] == old(buckets)[keep]
    {
      var keyList := names;
      ghost var removed: set<string> := {};
      var i := 0;
      while i < |keyList|
        invariant 0 <= i <= |keyList|
        invariant Valid()
        invariant keyList == old(names)
        invariant buckets == old(buckets) - removed && keep !in removed
        invariant forall j :: 0 <= j < i && keyList[j] != keep ==> keyList[j] in removed
      {
        if keyList[i] != keep {
          var _ := Delete(keyList[i]);
          removed := removed + {keyList[i]};
        }
        i := i + 1;
      }
      forall n | n in buckets
        ensures n == keep
      {
        assert n in old(buckets);
        var j :| 0 <= j < |keyList| && keyList[j] == n;
      }
    }
  }
}
