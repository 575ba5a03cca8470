/** What each handler of the worker does to the cache storage and what it
    answers, stated as relations between the storage before, the network's
    answer, the reply and the storage after; and what follows from them. */
module Strategies {
  import opened Http
  import opened Text
  import opened Policy
  import opened Storage

  /** What the fetch handler hands back to the browser. */
  datatype Reply =
    | PassThrough                  // returned without `respondWith`: the browser fetches as usual
    | Served(response: Response)   // `respondWith` resolved with a response
    | Undefined                    // `respondWith` resolved with `undefined`: the page sees a network error
    | Rejected                     // `respondWith` rejected: the page sees a network error

  /** The reply for an awaited lookup. */
  function ReplyOf(found: Option<Response>): (r: Reply)
    ensures r.Served? <==> found.Some?
    ensures r.Served? ==> r.response == found.value
    ensures r != PassThrough && r != Rejected
  {
    match found
    case Some(resp) => Served(resp)
    case None => Undefined
  }

  // ---------------------------------------------------------------------------
  // Fetch

  /** HTML tier, network first: the latest response is returned (and, when ok,
      becomes the current cache's "./index.html"); when the network is down,
      the current cache's "./index.html", else the first one in any cache. */
  predicate HtmlOutcome(cs: Caches, net: FetchOutcome, reply: Reply, fetched: bool, after: Caches)
  {
    fetched &&
    match net
    case Some(latest) =>
      reply == Served(latest) &&
      after == (if latest.Ok() then PutIn(Opened(cs, CoreCache), CoreCache, IndexKey, latest)
                else Opened(cs, CoreCache))
    case None =>
      reply == ReplyOf(OrElse(Lookup(cs, CoreCache, IndexKey), MatchAll(cs, IndexKey))) &&
      after == Opened(cs, CoreCache)
  }

  /** Core-asset tier, cache first: a hit in any cache is returned without
      touching the network; on a miss the network's answer is returned (and,
      when ok, stored in the current cache); a network failure propagates. */
  predicate CoreAssetOutcome(cs: Caches, key: Key, net: FetchOutcome, reply: Reply, fetched: bool, after: Caches)
  {
    match MatchAll(cs, key)
    case Some(hit) => reply == Served(hit) && !fetched && after == cs
    case None =>
      fetched &&
      match net
      case None => reply == Rejected && after == cs
      case Some(res) =>
        reply == Served(res) &&
        after == (if res.Ok() then PutIn(Opened(cs, CoreCache), CoreCache, key, res) else cs)
  }

  /** Other tier, network first: the network's answer is returned (and, when
      ok, stored in the current cache); when the network is down, the current
      cache's entry for the request, else the first one in any cache. */
  predicate OtherOutcome(cs: Caches, key: Key, net: FetchOutcome, reply: Reply, fetched: bool, after: Caches)
  {
    fetched &&
    match net
    case Some(res) =>
      reply == Served(res) &&
      after == (if res.Ok() then PutIn(Opened(cs, CoreCache), CoreCache, key, res) else Opened(cs, CoreCache))
    case None =>
      reply == ReplyOf(OrElse(Lookup(cs, CoreCache, key), MatchAll(cs, key))) &&
      after == Opened(cs, CoreCache)
  }

  /** The whole fetch handler: the pre-filter, then the tier's strategy. */
  predicate Handled(cs: Caches, selfOrigin: string, req: Request, net: FetchOutcome,
                    reply: Reply, fetched: bool, after: Caches)
  {
    match Route(req, selfOrigin)
    case Ignored => reply == PassThrough && !fetched && after == cs
    case HtmlTier => HtmlOutcome(cs, net, reply, fetched, after)
    case CoreAssetTier => CoreAssetOutcome(cs, req.CacheKey(), net, reply, fetched, after)
    case OtherTier => OtherOutcome(cs, req.CacheKey(), net, reply, fetched, after)
  }

  /** A lookup in one named cache that finds something means a global match
      finds something too. */
  lemma LookupThenMatch(cs: Caches, name: string, key: Key)
    requires Lookup(cs, name, key).Some?
    ensures MatchAll(cs, key).Some?
  {
    var i := Find(cs, name).value;
    assert key in cs[i].entries;
  }

  /** Non-GET and cross-origin requests get no reply from the worker, make no
      network call of the worker's, and leave every cache as it was. */
  lemma IgnoredTouchesNothing(cs: Caches, selfOrigin: string, req: Request, net: FetchOutcome,
                              reply: Reply, fetched: bool, after: Caches)
    requires Handled(cs, selfOrigin, req, net, reply, fetched, after)
    requires req.verb != "GET" || req.url.origin != selfOrigin
    ensures reply == PassThrough && !fetched && after == cs
  {
  }

  /** A handled request never takes the other tier: every handled request that
      is not HTML is served cache first. */
  lemma HandledIsHtmlOrCoreAsset(cs: Caches, selfOrigin: string, req: Request, net: FetchOutcome,
                                 reply: Reply, fetched: bool, after: Caches)
    requires Handled(cs, selfOrigin, req, net, reply, fetched, after)
    requires Intercepted(req, selfOrigin)
    ensures IsHtml(req) ==> HtmlOutcome(cs, net, reply, fetched, after)
    ensures !IsHtml(req) ==> CoreAssetOutcome(cs, req.CacheKey(), net, reply, fetched, after)
  {
    OtherTierUnreachable(req, selfOrigin);
  }

  /** HTML tier online with an ok response: that response is returned and
      becomes the current cache's "./index.html"; no other entry changes. */
  lemma HtmlOnlineRefreshesShell(cs: Caches, latest: Response, reply: Reply, fetched: bool, after: Caches)
    requires HtmlOutcome(cs, Some(latest), reply, fetched, after)
    requires latest.Ok()
    ensures reply == Served(latest)
    ensures Lookup(after, CoreCache, IndexKey) == Some(latest)
    ensures forall n, k :: n != CoreCache || k != IndexKey ==> Lookup(after, n, k) == Lookup(cs, n, k)
  {
  }

  /** HTML tier when the network is down: the stored "./index.html" from the
      current cache wins; without one, the first in any cache; no entry
      changes. */
  lemma HtmlOfflineFallback(cs: Caches, reply: Reply, fetched: bool, after: Caches)
    requires HtmlOutcome(cs, None, reply, fetched, after)
    ensures Lookup(cs, CoreCache, IndexKey).Some? ==> reply == Served(Lookup(cs, CoreCache, IndexKey).value)
    ensures Lookup(cs, CoreCache, IndexKey).None? ==> reply == ReplyOf(MatchAll(cs, IndexKey))
    ensures reply == Undefined <==> MatchAll(cs, IndexKey).None?
    ensures forall n, k :: Lookup(after, n, k) == Lookup(cs, n, k)
  {
    if Lookup(cs, CoreCache, IndexKey).Some? {
      LookupThenMatch(cs, CoreCache, IndexKey);
    }
  }

  /** An HTML request answered online with an ok response, followed by one
      answered offline: the second gets the first's response, and the storage
      stays as the first left it. */
  lemma HtmlOfflineAfterOnline(cs0: Caches, latest: Response, r1: Reply, f1: bool, cs1: Caches,
                               r2: Reply, f2: bool, cs2: Caches)
    requires HtmlOutcome(cs0, Some(latest), r1, f1, cs1) && latest.Ok()
    requires HtmlOutcome(cs1, None, r2, f2, cs2)
    ensures r2 == Served(latest)
    ensures cs2 == cs1
  {
    assert Find(cs1, CoreCache) == Find(Opened(cs0, CoreCache), CoreCache);
  }

  /** Core-asset tier on a hit: the cached response is returned, the network
      is not used, and nothing changes. */
  lemma CoreAssetHitIsOffline(cs: Caches, key: Key, net: FetchOutcome, reply: Reply, fetched: bool, after: Caches)
    requires CoreAssetOutcome(cs, key, net, reply, fetched, after)
    requires MatchAll(cs, key).Some?
    ensures reply == Served(MatchAll(cs, key).value) && !fetched && after == cs
  {
  }

  /** Core-asset tier on a miss with a network failure: the failure
      propagates and nothing changes. */
  lemma CoreAssetMissOffline(cs: Caches, key: Key, reply: Reply, fetched: bool, after: Caches)
    requires CoreAssetOutcome(cs, key, None, reply, fetched, after)
    requires MatchAll(cs, key).None?
    ensures reply == Rejected && fetched && after == cs
  {
  }

  /** A core asset fetched with an ok response on a miss is served from the
      cache, without the network, by the next request for it. */
  lemma CoreAssetCachedAfterFill(cs0: Caches, key: Key, res: Response, r1: Reply, f1: bool, cs1: Caches,
                                 net2: FetchOutcome, r2: Reply, f2: bool, cs2: Caches)
    requires CoreAssetOutcome(cs0, key, Some(res), r1, f1, cs1)
    requires MatchAll(cs0, key).None? && res.Ok()
    requires CoreAssetOutcome(cs1, key, net2, r2, f2, cs2)
    ensures r1 == Served(res) && f1
    ensures r2 == Served(res) && !f2 && cs2 == cs1
  {
    PutThenMatch(Opened(cs0, CoreCache), CoreCache, key, res);
  }

  /** Other tier: an ok response cached online is what the same request gets
      offline afterwards. */
  lemma OtherOfflineAfterOnline(cs0: Caches, key: Key, res: Response, r1: Reply, f1: bool, cs1: Caches,
                                r2: Reply, f2: bool, cs2: Caches)
    requires OtherOutcome(cs0, key, Some(res), r1, f1, cs1) && res.Ok()
    requires OtherOutcome(cs1, key, None, r2, f2, cs2)
    ensures r1 == Served(res)
    ensures r2 == Served(res) && cs2 == cs1
  {
    assert Find(cs1, CoreCache) == Find(Opened(cs0, CoreCache), CoreCache);
  }

  /** Other tier offline with no copy anywhere: the handler resolves with
      nothing, which the page sees as a failed load. */
  lemma OtherOfflineNeverCached(cs: Caches, key: Key, reply: Reply, fetched: bool, after: Caches)
    requires OtherOutcome(cs, key, None, reply, fetched, after)
    requires MatchAll(cs, key).None?
    ensures reply == Undefined
  {
    if Lookup(cs, CoreCache, key).Some? {
      LookupThenMatch(cs, CoreCache, key);
    }
  }

  // ---------------------------------------------------------------------------
  // Install

  /** The storage after install: the current cache opened, then, when every
      core asset was fetched ok, each of them stored in it. */
  function AfterInstall(cs: Caches, net: Key -> FetchOutcome): (r: Caches)
    ensures Find(r, CoreCache).Some?
    ensures DistinctNames(cs) ==> DistinctNames(r)
    ensures !AllFetched(net, CoreAssets) ==> forall n, k :: Lookup(r, n, k) == Lookup(cs, n, k)
  {
    var created := Opened(cs, CoreCache);
    if AllFetched(net, CoreAssets) then StoreAll(created, CoreCache, CoreAssets, net) else created
  }

  /** When every fetch succeeds, install leaves every core asset in the
      current cache with its fetched response; every other entry is kept. */
  lemma InstallFillsCore(cs: Caches, net: Key -> FetchOutcome)
    requires AllFetched(net, CoreAssets)
    ensures forall a :: a in CoreAssets ==> Lookup(AfterInstall(cs, net), CoreCache, a) == net(a)
    ensures forall n, k :: n != CoreCache || k !in CoreAssets ==>
                             Lookup(AfterInstall(cs, net), n, k) == Lookup(cs, n, k)
  {
  }

  /** Two caches states with the same names in the same order and the same
      answer to every lookup. */
  ghost predicate SameView(a: Caches, b: Caches)
  {
    Names(a) == Names(b) && forall n, k :: Lookup(a, n, k) == Lookup(b, n, k)
  }

  /** Installing the same generation twice gives what installing it once
      gives: no entry is duplicated or changed by the second run. */
  lemma InstallIdempotent(cs: Caches, net: Key -> FetchOutcome)
    ensures SameView(AfterInstall(AfterInstall(cs, net), net), AfterInstall(cs, net))
  {
    var once := AfterInstall(cs, net);
    assert Find(once, CoreCache).Some?;
  }

  // ---------------------------------------------------------------------------
  // Activate

  /** The storage after activate: every stale generation deleted. Of the
      prefixed caches only the current one can remain; every other cache is
      kept, unchanged and in order. */
  function Activated(cs: Caches): (r: Caches)
    ensures forall c :: c in r ==> c in cs && !IsStale(c.name)
    ensures forall c :: c in cs && !IsStale(c.name) ==> c in r
    ensures forall c :: c in r && StartsWith(c.name, CachePrefix) ==> c.name == CoreCache
    ensures DistinctNames(cs) ==> DistinctNames(r)
    ensures forall k :: (forall c :: c in cs && IsStale(c.name) ==> k !in c.entries) ==>
                          MatchAll(r, k) == MatchAll(cs, k)
  {
    var names := Names(cs);
    assert forall c :: c in cs ==> c.name in names;
    var r := Without(cs, StaleNames(names));
    forall k | forall c :: c in cs && IsStale(c.name) ==> k !in c.entries
      ensures MatchAll(r, k) == MatchAll(cs, k)
    {
      assert forall i :: 0 <= i < |cs| ==> cs[i] in cs;
      WithoutKeepsMatch(cs, StaleNames(names), k);
    }
    r
  }

  /** Generation cleanup as in a v1 to v2 upgrade: the old generation goes,
      the current one and a cache of another application stay. */
  lemma ActivateAfterUpgrade(old1: Cache, current: Cache, foreign: Cache)
    requires old1.name == "y-sight-core-v1"
    requires current.name == "y-sight-core-v2"
    requires foreign.name == "other-app"
    ensures Activated([old1, current, foreign]) == [current, foreign]
  {
    var cs := [old1, current, foreign];
    assert Names(cs) == [old1.name, current.name, foreign.name];
    assert old1.name[14] != CoreCache[14];
    assert IsStale(old1.name);
    assert !IsStale(current.name);
    assert foreign.name[..|CachePrefix|][0] != CachePrefix[0];
    assert !IsStale(foreign.name);
    assert [current.name, foreign.name][1..] == [foreign.name];
    assert StaleNames([foreign.name]) == [];
    assert StaleNames([current.name, foreign.name]) == [];
    assert Names(cs)[1..] == [current.name, foreign.name];
    assert StaleNames(Names(cs)) == [old1.name];
    assert Without(cs, [old1.name]) == [current, foreign];
  }
}
