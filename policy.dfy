/** The worker's fixed configuration and its pure decisions: which requests it
    handles, which tier serves them, and which cache names are stale. */
module Policy {
  import opened Http
  import opened Text

  /** Bumped on every deploy that changes a cached asset. */
  const CacheVersion: string := "v2"

  /** The prefix every cache generation of this application is named with. */
  const CachePrefix: string := "y-sight-"

  /** The current generation's cache. */
  const CoreCache: string := "y-sight-core-" + CacheVersion

  /** The app shell, fetched into the current generation's cache at install. */
  const CoreAssets: seq<Key> := [
    "./",
    "./index.html",
    "./manifest.webmanifest",
    "./sw.js",
    "./404.html",
    "./robots.txt",
    "./icons/icon-192.png",
    "./icons/icon-512.png",
    "./icons/maskable-192.png",
    "./icons/maskable-512.png"
  ]

  /** The fixed key the latest HTML document is stored under, and looked up by
      when the network is down, whatever path was requested. */
  const IndexKey: Key := "./index.html"

  // ---------------------------------------------------------------------------
  // Fetch routing

  datatype Tier = Ignored | HtmlTier | CoreAssetTier | OtherTier

  /** The pre-filter: only same-origin GET requests are handled. */
  predicate Intercepted(req: Request, selfOrigin: string)
  {
    req.verb == "GET" && req.url.origin == selfOrigin
  }

  /** `req.headers.get("accept") || ""`. */
  function AcceptOf(req: Request): string
  {
    match req.accept
    case Some(a) => a
    case None => ""
  }

  /** A page navigation, or a request whose accept header asks for HTML. */
  predicate IsHtml(req: Request)
  {
    req.mode == "navigate" || Contains(AcceptOf(req), "text/html")
  }

  /** The suffix a core-asset entry is matched with: the entry with its first
      "./" removed. */
  function AssetSuffix(entry: Key): string
  {
    ReplaceFirst(entry, "./", "")
  }

  /** `CORE_ASSETS.some(p => pathname.endsWith(p.replace("./", "")))`. */
  predicate IsCoreAsset(pathname: string)
  {
    exists entry :: entry in CoreAssets && EndsWith(pathname, AssetSuffix(entry))
  }

  /** The tier that serves a request; the first test that holds wins. */
  function Route(req: Request, selfOrigin: string): Tier
  {
    if !Intercepted(req, selfOrigin) then Ignored
    else if IsHtml(req) then HtmlTier
    else if IsCoreAsset(req.url.pathname) then CoreAssetTier
    else OtherTier
  }

  /** Non-GET and cross-origin requests are left to the browser. */
  lemma IgnoredExactly(req: Request, selfOrigin: string)
    ensures Route(req, selfOrigin) == Ignored <==> req.verb != "GET" || req.url.origin != selfOrigin
  {
  }

  /** The HTML tier is chosen exactly for handled navigations and handled
      requests whose accept header (missing counts as "") contains "text/html",
      before any core-asset test. */
  lemma HtmlTierExactly(req: Request, selfOrigin: string)
    ensures Route(req, selfOrigin) == HtmlTier <==>
      Intercepted(req, selfOrigin) &&
      (req.mode == "navigate" || exists i :: OccursAt(AcceptOf(req), "text/html", i))
  {
    ContainsIffOccurs(AcceptOf(req), "text/html");
  }

  /** A browser's usual navigation accept header selects the HTML tier even
      when the mode is not "navigate"; a missing header does not. */
  lemma HtmlByAcceptHeader(origin: string, url: Url)
    requires url.origin == origin
    ensures Route(Request("GET", url, "cors", Some("text/html,application/xhtml+xml")), origin) == HtmlTier
    ensures Route(Request("GET", url, "cors", None), origin) != HtmlTier
  {
    var accept := "text/html,application/xhtml+xml";
    assert OccursAt(accept, "text/html", 0);
    assert forall j :: !OccursAt("", "text/html", j);
  }

  /** Every core-asset entry starts with "./", and its suffix is the entry
      without it. */
  lemma AssetSuffixStripsDotSlash(entry: Key)
    requires entry in CoreAssets
    ensures StartsWith(entry, "./")
    ensures AssetSuffix(entry) == entry[2..]
  {
  }

  /** The entry "./" yields the empty suffix. */
  lemma RootEntryHasEmptySuffix()
    ensures CoreAssets[0] == "./" && AssetSuffix(CoreAssets[0]) == ""
  {
    AssetSuffixStripsDotSlash(CoreAssets[0]);
  }

  /** Because of the empty suffix, every pathname counts as a core asset. */
  lemma EveryPathIsCoreAsset(pathname: string)
    ensures IsCoreAsset(pathname)
  {
    RootEntryHasEmptySuffix();
    assert CoreAssets[0] in CoreAssets;
    assert EndsWith(pathname, AssetSuffix(CoreAssets[0]));
  }

  /** Every handled request that is not HTML takes the core-asset tier, so the
      "everything else" tier is never reached. */
  lemma OtherTierUnreachable(req: Request, selfOrigin: string)
    ensures Route(req, selfOrigin) != OtherTier
    ensures Route(req, selfOrigin) == CoreAssetTier <==> Intercepted(req, selfOrigin) && !IsHtml(req)
  {
    EveryPathIsCoreAsset(req.url.pathname);
  }

  // ---------------------------------------------------------------------------
  // Generation cleanup

  /** A cache of an older generation: named with the prefix, but not the
      current generation's cache. */
  predicate IsStale(name: string)
  {
    StartsWith(name, CachePrefix) && name != CoreCache
  }

  /** The current generation's cache carries the prefix and is never stale. */
  lemma CoreCacheIsCurrent()
    ensures CoreCache == "y-sight-core-v2"
    ensures StartsWith(CoreCache, CachePrefix) && !IsStale(CoreCache)
  {
  }

  /** `keys.filter(k => k.startsWith("y-sight-") && k !== CORE_CACHE)`: the
      stale names, in their original order. */
  function StaleNames(names: seq<string>): (r: seq<string>)
    ensures forall n :: n in r <==> n in names && IsStale(n)
    ensures |r| <= |names|
  {
    if names == [] then []
    else (if IsStale(names[0]) then [names[0]] else []) + StaleNames(names[1..])
  }
}
