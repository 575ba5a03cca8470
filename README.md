# Y-Sight service worker: a verified model of its caching and routing

Y-Sight's service worker (`sw.js`) keeps the application shell available offline.
It does this with one piece of durable state: the browser's cache storage. That
storage is an ordered list of named caches, and each cache maps a request key to a
response. This project models the worker's three handlers in Dafny and proves what
they do to that storage and what they answer.

- **install** opens the current generation's cache, `y-sight-core-v2`. It then adds
  every core asset to that cache.
- **activate** deletes every cache whose name starts with `y-sight-`, except the
  current one.
- **fetch** leaves non-GET and cross-origin requests alone. It classifies every
  other request and serves it from one of three tiers:
  - HTML tier: network first, with a fixed fallback key `./index.html`.
  - Core-asset tier: cache first, filling the cache on a miss.
  - Other tier: network first, with a cache fallback.

The network is an input. A single fetch is an `Option<Response>`, where `None`
means `fetch` threw. The install handler's fetches are a function from key to such
an outcome. A response carries its status, and `ok` means a status of 200-299.

Modules:

- `Http` (http.dfy): requests, responses, `Option`, and the `a || b` of two awaited
  lookups.
- `Text` (text.dfy): the JavaScript string operations the decisions use. These are
  `startsWith`, `endsWith`, `indexOf`/`includes`, and `replace` with a string
  pattern, which replaces only the first occurrence.
- `Policy` (policy.dfy): the constants, the pre-filter, the tier classification
  and the activate name filter. All of it is pure.
- `Storage` (storage.dfy): the cache storage as a value. It covers `caches.keys`,
  `caches.open`, `cache.put`, `cache.match`, `caches.match`, `caches.delete` and
  the writes of `cache.addAll`.
- `Strategies` (strategies.dfy): each handler stated as a relation between the
  storage before, the network's answer, the reply and the storage after. The
  lemmas about these relations also live here.
- `Worker` (worker.dfy): two classes, `CacheStorage` and `ServiceWorker`.
  `CacheStorage` is changed in place. `ServiceWorker` has the three handlers and
  the three strategies as methods, each proved against its relation.

Two consequences of the code are stated as lemmas:

- The core-asset membership test strips the first `"./"` from each entry. The entry
  `"./"` therefore becomes the empty suffix, and every pathname ends with it
  (`Policy.EveryPathIsCoreAsset`). So every handled request that is not HTML takes
  the core-asset tier, and the other tier is never reached
  (`Policy.OtherTierUnreachable`, `Strategies.HandledIsHtmlOrCoreAsset`). That tier
  is still modelled as written.
- `caches.open` creates the current cache when it is missing. It is added last, as
  an empty cache. The HTML and other tiers open the cache before fetching. When the
  current cache is absent, they therefore add an empty cache even when they then
  write nothing. No existing entry and no lookup result changes
  (`Storage.Opened`).

The other tier stores a response only when `res.ok` holds (sw.js:111). The
core-asset tier applies the same test (sw.js:95).

## Model

| member | source | states |
|---|---|---|
| `Http.Response.Ok` | sw.js:70 | `response.ok`: the status is 200-299 |
| `Http.Request.CacheKey` | sw.js:92 | a request's cache key is its URL |
| `Http.OrElse` | sw.js:76-79 | `a \|\| b` on awaited lookups: the first lookup's result when it found something, else the second's |
| `Text.IndexOf` | sw.js:60 | the first index where the pattern occurs, with no earlier occurrence; `None` exactly when it occurs nowhere |
| `Text.ContainsIffOccurs` | sw.js:60 | `includes` holds exactly when the pattern occurs at some index |
| `Text.StartsWith` | sw.js:40 | `startsWith`: the prefix is the string's first characters |
| `Text.EndsWith` | sw.js:88 | `endsWith`: the suffix is the string's last characters |
| `Text.Contains` | sw.js:60 | `includes`: `indexOf` finds the pattern |
| `Text.ReplaceFirst` | sw.js:88 | `replace` with a string pattern: the input is unchanged when the pattern is absent; otherwise its first occurrence is replaced, so a leading pattern becomes the replacement |
| `Policy.Intercepted` | sw.js:52-57 | a request is handled only when its method is GET and its URL origin is the worker's |
| `Policy.AcceptOf` | sw.js:59 | the accept header, or "" when it is missing |
| `Policy.AssetSuffix` | sw.js:88 | a core-asset entry with its first "./" replaced by "" |
| `Policy.IsHtml` | sw.js:59-60 | navigate mode, or an accept header (missing counts as "") containing "text/html" |
| `Policy.IsCoreAsset` | sw.js:88 | some core-asset entry, with its first "./" removed, is a suffix of the pathname |
| `Policy.Route` | sw.js:52-105 | the pre-filter first, then the HTML test, then the core-asset test, else the other tier |
| `Policy.IgnoredExactly` | sw.js:52-57 | a request is left to the browser exactly when its method is not GET or its origin is not the worker's |
| `Policy.HtmlTierExactly` | sw.js:59-64 | the HTML tier is chosen exactly for handled requests with mode "navigate" or an accept header (missing counts as "") containing "text/html"; this test comes before the core-asset test |
| `Policy.HtmlByAcceptHeader` | sw.js:59-60 | a browser navigation accept header selects HTML without navigate mode; a missing header does not |
| `Policy.AssetSuffixStripsDotSlash` | sw.js:15-26 | every core-asset entry starts with "./" and its match suffix is the rest of the entry |
| `Policy.RootEntryHasEmptySuffix` | sw.js:16 | the entry "./" yields the empty suffix |
| `Policy.EveryPathIsCoreAsset` | sw.js:88 | every pathname passes the core-asset test |
| `Policy.OtherTierUnreachable` | sw.js:88-89 | no request is routed to the other tier; the core-asset tier is chosen exactly for handled requests that are not HTML |
| `Policy.CoreCacheIsCurrent` | sw.js:11-12 | the current cache is "y-sight-core-v2", carries the prefix and is never treated as stale |
| `Policy.IsStale` | sw.js:40 | a name starting with "y-sight-" that is not the current cache's name |
| `Policy.StaleNames` | sw.js:39-40 | the filtered names are exactly the listed names that start with "y-sight-" and differ from the current cache |
| `Storage.Names` | sw.js:37 | `caches.keys()` lists one name per cache, in cache order |
| `Storage.MatchAll` | sw.js:92 | `caches.match` returns the entry of the first cache, in order, holding the key; nothing exactly when no cache holds it |
| `Storage.MatchAllSkipsEmptyTail` | sw.js:67 | an empty cache added last changes no global match |
| `Storage.Opened` | sw.js:67 | `caches.open` leaves the named cache present, is a no-op when it exists, only appends, keeps names distinct, and changes no lookup or global match |
| `Storage.PutIn` | sw.js:72 | `cache.put` sets exactly that entry of the named cache; names and every other lookup are unchanged |
| `Storage.PutThenMatch` | sw.js:92-97 | after a put of a key no cache held, the global match finds the stored response |
| `Storage.Without` | sw.js:41 | deleting names keeps exactly the caches with other names, with names still distinct |
| `Storage.WithoutKeepsMatch` | sw.js:41 | the kept caches keep their order: a global match for a key that no deleted cache held finds what it found before |
| `Storage.WithoutNothing` | sw.js:38-41 | deleting no names changes nothing |
| `Storage.WithoutOneMore` | sw.js:38-41 | deleting names one at a time is the same as deleting them together |
| `Storage.AllFetched` | sw.js:30 | every key's fetch resolved with an ok response, which `addAll` needs to succeed |
| `Storage.StoreAll` | sw.js:30 | `addAll`'s writes: each listed key holds its fetched response in the named cache; names and every other lookup are unchanged |
| `Storage.StoreAllStep` | sw.js:30 | storing the keys one more at a time extends the stores of the keys before it |
| `Storage.Lookup` | sw.js:77 | `cache.match` on one named cache: a hit there is also a hit for the global match |
| `Strategies.ReplyOf` | sw.js:76-79 | an awaited lookup that found a response serves it; one that found nothing resolves with nothing |
| `Strategies.HtmlOutcome` | sw.js:64-83 | HTML tier: the fresh response is returned and, when ok, stored as the current cache's "./index.html"; offline, the current cache's copy, else the first in any cache, else nothing; the current cache is opened either way |
| `Strategies.CoreAssetOutcome` | sw.js:88-102 | core-asset tier: a global hit is returned with no fetch and no change; on a miss the fetched response is returned and, when ok, stored in the current cache; a failed fetch rejects with no change |
| `Strategies.OtherOutcome` | sw.js:105-117 | other tier: the fetched response is returned and, when ok, stored in the current cache; offline, the current cache's copy, else the first in any cache, else nothing; the current cache is opened either way |
| `Strategies.Handled` | sw.js:48-118 | ignored requests get no reply, no fetch and no change; every other request follows its tier's relation |
| `Strategies.AfterInstall` | sw.js:30 | the current cache exists afterwards and names stay distinct; when some fetch fails, no lookup changes |
| `Strategies.LookupThenMatch` | sw.js:77-78 | a hit in the current cache implies a hit in the global match |
| `Strategies.IgnoredTouchesNothing` | sw.js:52-57 | non-GET and cross-origin requests get no reply and no fetch from the worker, and every cache is unchanged |
| `Strategies.HandledIsHtmlOrCoreAsset` | sw.js:64-103 | every handled request is served by the HTML strategy or by the cache-first strategy |
| `Strategies.HtmlOnlineRefreshesShell` | sw.js:69-74 | HTML tier, fetch ok: the latest response is returned and becomes the current cache's "./index.html"; every other lookup is unchanged |
| `Strategies.HtmlOfflineFallback` | sw.js:75-79 | HTML tier, fetch failed: the current cache's "./index.html", else the first in any cache, else nothing; no lookup changes |
| `Strategies.HtmlOfflineAfterOnline` | sw.js:64-83 | an offline HTML request after an online one with an ok response is served that response, with no change to storage |
| `Strategies.CoreAssetHitIsOffline` | sw.js:92-93 | core-asset hit: the cached response, no network call, storage unchanged |
| `Strategies.CoreAssetMissOffline` | sw.js:94 | core-asset miss with a failed fetch: the failure propagates and storage is unchanged |
| `Strategies.CoreAssetCachedAfterFill` | sw.js:92-99 | an ok response fetched on a miss is served by the next request for it from cache, without the network |
| `Strategies.OtherOfflineAfterOnline` | sw.js:108-114 | other tier: an ok response cached online is what the same request gets offline afterwards |
| `Strategies.OtherOfflineNeverCached` | sw.js:113-114 | other tier offline with no copy anywhere resolves with nothing |
| `Strategies.InstallFillsCore` | sw.js:30 | when every fetch succeeds, install leaves every core asset in the current cache with its response and keeps every other entry |
| `Strategies.InstallIdempotent` | sw.js:30 | installing the same generation twice gives the same names and lookups as installing it once |
| `Strategies.Activated` | sw.js:37-41 | after cleanup, of the prefixed caches only the current one can remain; every other cache is kept unchanged; names stay distinct; a global match for a key no stale cache held is unchanged |
| `Strategies.ActivateAfterUpgrade` | sw.js:37-41 | with v1, v2 and another application's cache, activate deletes v1 and keeps the other two in order |
| `Worker.CacheStorage.constructor` | sw.js:37 | the storage starts as the previous generation left it |
| `Worker.CacheStorage.Open` | sw.js:67 | in place: the new storage is `Opened` of the old |
| `Worker.CacheStorage.Put` | sw.js:72 | in place: the new storage is `PutIn` of the old |
| `Worker.CacheStorage.Delete` | sw.js:41 | resolves with whether the cache existed; the new storage lacks it |
| `Worker.CacheStorage.AddAll` | sw.js:30 | succeeds exactly when every fetch is ok; then every key is stored, otherwise nothing is written |
| `Worker.ServiceWorker.constructor` | sw.js:28-48 | a worker for one origin over the given storage |
| `Worker.ServiceWorker.OnInstall` | sw.js:28-33 | resolves with whether every core asset fetched ok; the storage becomes `AfterInstall` of the old |
| `Worker.ServiceWorker.OnActivate` | sw.js:35-46 | the storage becomes `Activated` of the old |
| `Worker.ServiceWorker.OnFetch` | sw.js:48-118 | reply, network use and new storage satisfy `Handled`: the pre-filter, then the tier's strategy |
| `Worker.ServiceWorker.NetworkFirstHtml` | sw.js:64-83 | reply, network use and new storage satisfy `HtmlOutcome` |
| `Worker.ServiceWorker.CacheFirstAsset` | sw.js:88-102 | reply, network use and new storage satisfy `CoreAssetOutcome` |
| `Worker.ServiceWorker.NetworkFirstOther` | sw.js:105-117 | reply, network use and new storage satisfy `OtherOutcome` |

## Left out

- Page-side registration in sw-register.js is not modelled. That covers `register`, `reg.update()` and the one-time reload on `controllerchange`.
- `event.waitUntil`, `event.respondWith`, `self.skipWaiting()` and `self.clients.claim()` are not modelled. Each handler returns what its promise would resolve with.
- Concurrency between events is not modelled. The un-awaited `cache.put` calls take effect at once, in program order within one handler.
- Real HTTP is not modelled: `{ cache: "no-store" }`, `Response.clone()`, headers, and `Vary` matching. Each fetch is an oracle input, and a response is a status and a body.
- `new URL(...)` parsing and relative-key resolution are not modelled. Origin and pathname are given strings, and cache keys are opaque strings. A request's key is its URL, so the model does not know that `"./index.html"` and a request for `/index.html` may resolve to the same entry.
- `Worker.CacheStorage.AddAll`: the browser primitive's internals are not modelled. It fetches in order and stops at the first failure or non-ok response. On failure it writes nothing, as the Cache API's batch semantics require.
- Failed deletions during activate are not modelled. The model's `Delete` always succeeds; in the code, a rejected `caches.delete` would reject the `Promise.all` at sw.js:38.
- Storage.PutIn: the Cache API's refusal of a 206 partial response, and of a response with `Vary: *`, is not modelled. The model stores every ok response it is given. In the browser, the un-awaited `cache.put` at sw.js:97 would reject such a response and store nothing. So `Strategies.CoreAssetCachedAfterFill` holds in the model but not in the browser for a 206 answer to a same-origin Range request.
- Storage.AllFetched: the same refusal inside `cache.addAll` (sw.js:30) is not modelled. Any ok response counts as fetched, including a 206.
