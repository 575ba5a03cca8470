/** The service worker itself: the browser's cache storage, updated in place,
    and the worker's install, activate and fetch handlers, each running its
    awaits in order and returning what it resolves with. */
module Worker {
  import opened Http
  import opened Policy
  import opened Storage
  import opened Strategies

  /** The browser's `caches` object: the ordered named caches, changed in
      place by `open`, `put`, `delete` and `addAll`. */
  class CacheStorage {
    var caches: Caches

    ghost predicate Valid()
      reads this
    {
      DistinctNames(caches)
    }

    /** The storage as the previous generation left it. */
    constructor (existing: Caches)
      requires DistinctNames(existing)
      ensures Valid() && caches == existing
    {
      caches := existing;
    }

    /** `caches.open(name)`. */
    method Open(name: string)
      requires Valid()
      modifies this
      ensures Valid()
      ensures caches == Opened(old(caches), name)
    {
      if name !in Names(caches) {
        caches := caches + [Cache(name, map[])];
      }
    }

    /** `cache.put(key, response)` on the cache called `name`. */
    method Put(name: string, key: Key, resp: Response)
      requires Valid()
      modifies this
      ensures Valid()
      ensures caches == PutIn(old(caches), name, key, resp)
    {
      var found := Find(caches, name);
      if found.Some? {
        var i := found.value;
        caches := caches[i := Cache(name, caches[i].entries[key := resp])];
      }
    }

    /** `caches.delete(name)`: resolves with whether there was such a cache. */
    method Delete(name: string) returns (deleted: bool)
      requires Valid()
      modifies this
      ensures Valid()
      ensures deleted == (name in Names(old(caches)))
      ensures caches == Without(old(caches), [name])
    {
      deleted := name in Names(caches);
      caches := Without(caches, [name]);
    }

    /** `cache.addAll(keys)` on the cache called `name`: every key is fetched;
        when one fetch fails or is not ok nothing is written, otherwise every
        response is put, in order. */
    method AddAll(name: string, keys: seq<Key>, net: Key -> FetchOutcome) returns (ok: bool)
      requires Valid()
      modifies this
      ensures Valid()
      ensures ok == AllFetched(net, keys)
      ensures ok ==> caches == StoreAll(old(caches), name, keys, net)
      ensures !ok ==> caches == old(caches)
    {
      var i := 0;
      while i < |keys|
        invariant 0 <= i <= |keys|
        invariant AllFetched(net, keys[..i])
      {
        var outcome := net(keys[i]);
        if outcome.None? || !outcome.value.Ok() {
          assert keys[i] in keys;
          return false;
        }
        assert keys[..i + 1] == keys[..i] + [keys[i]];
        i := i + 1;
      }
      assert keys[..|keys|] == keys;
      i := 0;
      while i < |keys|
        invariant 0 <= i <= |keys|
        invariant Valid()
        invariant AllFetched(net, keys[..i])
        invariant caches == StoreAll(old(caches), name, keys[..i], net)
      {
        StoreAllStep(old(caches), name, keys, i, net);
        Put(name, keys[i], net(keys[i]).value);
        i := i + 1;
      }
      ok := true;
    }
  }

  /** One generation of the worker, running in the page origin `origin`. */
  class ServiceWorker {
    const origin: string
    const storage: CacheStorage

    ghost predicate Valid()
      reads this, storage
    {
      storage.Valid()
    }

    constructor (origin: string, storage: CacheStorage)
      requires storage.Valid()
      ensures this.origin == origin && this.storage == storage
      ensures Valid()
    {
      this.origin := origin;
      this.storage := storage;
    }

    /** The install handler: open the current cache and add every core asset
        to it; resolves with whether every asset was fetched ok. */
    method OnInstall(net: Key -> FetchOutcome) returns (installed: bool)
      requires Valid()
      modifies storage
      ensures Valid()
      ensures installed == AllFetched(net, CoreAssets)
      ensures storage.caches == AfterInstall(old(storage.caches), net)
    {
      storage.Open(CoreCache);
      installed := storage.AddAll(CoreCache, CoreAssets, net);
    }

    /** The activate handler: delete every stale generation. */
    method OnActivate()
      requires Valid()
      modifies storage
      ensures Valid()
      ensures storage.caches == Activated(old(storage.caches))
    {
      var stale := StaleNames(Names(storage.caches));
      var i := 0;
      WithoutNothing(storage.caches);
      while i < |stale|
        invariant 0 <= i <= |stale|
        invariant storage.Valid()
        invariant storage.caches == Without(old(storage.caches), stale[..i])
      {
        var _ := storage.Delete(stale[i]);
        WithoutOneMore(old(storage.caches), stale[..i], stale[i]);
        assert stale[..i + 1] == stale[..i] + [stale[i]];
        i := i + 1;
      }
      assert stale[..|stale|] == stale;
      assert storage.caches == Without(old(storage.caches), StaleNames(Names(old(storage.caches))));
    }

    /** The fetch handler: the pre-filter, the classification, then the
        tier's strategy. `net` is what the strategy's `fetch` would give;
        `fetched` says whether the handler called it. */
    method OnFetch(req: Request, net: FetchOutcome) returns (reply: Reply, fetched: bool)
      requires Valid()
      modifies storage
      ensures Valid()
      ensures Handled(old(storage.caches), origin, req, net, reply, fetched, storage.caches)
    {
      if req.verb != "GET" {
        return PassThrough, false;
      }
      if req.url.origin != origin {
        return PassThrough, false;
      }
      if IsHtml(req) {
        reply, fetched := NetworkFirstHtml(net);
        return;
      }
      if IsCoreAsset(req.url.pathname) {
        reply, fetched := CacheFirstAsset(req.CacheKey(), net);
        return;
      }
      reply, fetched := NetworkFirstOther(req.CacheKey(), net);
    }

    /** The HTML tier. */
    method NetworkFirstHtml(net: FetchOutcome) returns (reply: Reply, fetched: bool)
      requires Valid()
      modifies storage
      ensures Valid()
      ensures HtmlOutcome(old(storage.caches), net, reply, fetched, storage.caches)
    {
      storage.Open(CoreCache);
      fetched := true;
      match net {
        case Some(latest) =>
          if latest.Ok() {
            storage.Put(CoreCache, IndexKey, latest);
          }
          reply := Served(latest);
        case None =>
          var own := Lookup(storage.caches, CoreCache, IndexKey);
          if own.Some? {
            reply := Served(own.value);
          } else {
            reply := ReplyOf(MatchAll(storage.caches, IndexKey));
          }
      }
    }

    /** The core-asset tier. */
    method CacheFirstAsset(key: Key, net: FetchOutcome) returns (reply: Reply, fetched: bool)
      requires Valid()
      modifies storage
      ensures Valid()
      ensures CoreAssetOutcome(old(storage.caches), key, net, reply, fetched, storage.caches)
    {
      var cached := MatchAll(storage.caches, key);
      if cached.Some? {
        return Served(cached.value), false;
      }
      fetched := true;
      match net {
        case None =>
          reply := Rejected;
        case Some(res) =>
          if res.Ok() {
            storage.Open(CoreCache);
            storage.Put(CoreCache, key, res);
          }
          reply := Served(res);
      }
    }

    /** The other tier. */
    method NetworkFirstOther(key: Key, net: FetchOutcome) returns (reply: Reply, fetched: bool)
      requires Valid()
      modifies storage
      ensures Valid()
      ensures OtherOutcome(old(storage.caches), key, net, reply, fetched, storage.caches)
    {
      storage.Open(CoreCache);
      fetched := true;
      match net {
        case Some(res) =>
          if res.Ok() {
            storage.Put(CoreCache, key, res);
          }
          reply := Served(res);
        case None =>
          var own := Lookup(storage.caches, CoreCache, key);
          if own.Some? {
            reply := Served(own.value);
          } else {
            reply := ReplyOf(MatchAll(storage.caches, key));
          }
      }
    }
  }
}
