/**
  The service worker (sw.js): the versioned static cache, installation,
  activation that evicts every other cache generation, the routing decision
  of the fetch handler, and the `SKIP_WAITING` message.
 */
module ServiceWorker {
  import opened JsTypes
  import opened Text

  const BuildVersion: string := "2024-05-16"
  const StaticCache: string := "vista-static-" + BuildVersion
  const IndexPage: string := "./index.html"

  const StaticAssets: seq<string> := [
    "./",
    "./index.html",
    "./styles.dbb84747.css",
    "./app.917f27ba.js",
    "./i18n.48418e7b.js",
    "./manifest.json",
    "./icons/icon-192.png",
    "./icons/icon-512.png"
  ]

  /** The cache name is the fixed prefix followed by the build version, so a
      new build gets a new cache. */
  lemma StaticCacheNamesBuild()
    ensures |StaticCache| == 13 + |BuildVersion|
    ensures StaticCache[..13] == "vista-static-" && StaticCache[13..] == BuildVersion
  {
  }

  /** The cache storage after activation: only the current generation, with
      its entries, survives. */
  function Evicted(caches: map<string, set<string>>): (kept: map<string, set<string>>)
    ensures kept.Keys == caches.Keys * {StaticCache}
    ensures StaticCache in caches ==> kept[StaticCache] == caches[StaticCache]
  {
    map k | k in caches && k == StaticCache :: caches[k]
  }

  /** Activating twice evicts nothing more. */
  lemma EvictedIdempotent(caches: map<string, set<string>>)
    ensures Evicted(Evicted(caches)) == Evicted(caches)
  {
  }

  /** The generations {v1, v2} with v2 current become {v2}. */
  lemma EvictsOlderGeneration(older: string, entries: set<string>, current: set<string>)
    requires older != StaticCache
    ensures Evicted(map[older := entries, StaticCache := current]) == map[StaticCache := current]
  {
    var c := map[older := entries, StaticCache := current];
    assert c.Keys * {StaticCache} == {StaticCache};
  }

  /** The worker's state: the cache storage (cache name to the requests it
      holds), and whether `skipWaiting` and `clients.claim` were called. */
  class Worker {
    var caches: map<string, set<string>>
    var skippedWaiting: bool
    var claimed: bool

    /** A worker starting over whatever cache storage the origin already has. */
    constructor(existing: map<string, set<string>>)
      ensures caches == existing && !skippedWaiting && !claimed
    {
      caches := existing;
      skippedWaiting := false;
      claimed := false;
    }

    /** The `install` handler: open the current cache, add every static asset
        to it, then skip waiting. Other caches are untouched. */
    method Install()
      modifies this
      ensures StaticCache in caches
      ensures caches[StaticCache] == (if StaticCache in old(caches) then old(caches)[StaticCache] else {}) + set a | a in StaticAssets
      ensures forall k :: k in old(caches) && k != StaticCache ==> k in caches && caches[k] == old(caches)[k]
      ensures caches.Keys == old(caches).Keys + {StaticCache}
      ensures skippedWaiting && claimed == old(claimed)
    {
      var entries := if StaticCache in caches then caches[StaticCache] else {};
      caches := caches[StaticCache := entries + set a | a in StaticAssets];
      skippedWaiting := true;
    }

    /** The `activate` handler: delete every cache whose name is not the
        current one, then claim the clients. */
    method Activate()
      modifies this
      ensures caches == Evicted(old(caches))
      ensures claimed && skippedWaiting == old(skippedWaiting)
    {
      while exists k :: k in caches && k != StaticCache
        invariant caches.Keys <= old(caches).Keys
        invariant forall k :: k in caches ==> caches[k] == old(caches)[k]
        invariant StaticCache in old(caches) ==> StaticCache in caches
        invariant skippedWaiting == old(skippedWaiting)
        decreases |caches.Keys|
      {
        var k :| k in caches && k != StaticCache;
        caches := caches - {k};
      }
      claimed := true;
    }

    /** The `message` handler. */
    method OnMessage(data: MessageData)
      modifies this
      ensures skippedWaiting == (old(skippedWaiting) || AsksToSkipWaiting(data))
      ensures caches == old(caches) && claimed == old(claimed)
    {
      if AsksToSkipWaiting(data) {
        skippedWaiting := true;
      }
    }
  }

  /** After installation and activation the current cache holds every static
      asset and is the only cache left. */
  method InstallThenActivate(w: Worker)
    modifies w
    ensures w.caches.Keys == {StaticCache}
    ensures forall a :: a in StaticAssets ==> a in w.caches[StaticCache]
    ensures w.skippedWaiting && w.claimed
  {
    w.Install();
    w.Activate();
  }

  // ---- fetch ----

  /** The fields of a request the fetch handler reads. */
  datatype Request = Request(httpMethod: string, mode: string, url: string)

  /** What the handler does with a request: leave it to the browser, answer
      from the network with the cached index page as fallback, or answer
      from the cache with the network as fallback. */
  datatype Handling = PassThrough | NetworkFirst(fallback: string) | CacheFirst

  /** `String.prototype.startsWith`. */
  predicate StartsWith(s: string, prefix: string)
  {
    |prefix| <= |s| && s[..|prefix|] == prefix
  }

  /** The routing decision as written: the origin test is a plain prefix test. */
  function RouteAsWritten(r: Request, origin: string): (route: Handling)
    ensures r.httpMethod != "GET" ==> route == PassThrough
    ensures r.httpMethod == "GET" && r.mode == "navigate" ==> route == NetworkFirst(IndexPage)
    ensures r.httpMethod == "GET" && r.mode != "navigate" ==> (route == CacheFirst <==> StartsWith(r.url, origin))
  {
    if r.httpMethod != "GET" then PassThrough
    else if r.mode == "navigate" then NetworkFirst(IndexPage)
    else if !StartsWith(r.url, origin) then PassThrough
    else CacheFirst
  }

  /** A URL on the origin: the origin itself, or the origin followed by a path,
      query or fragment. */
  predicate SameOrigin(url: string, origin: string)
  {
    url == origin || (StartsWith(url, origin) && |url| > |origin| && url[|origin|] in "/?#")
  }

  /** The prefix test lets through a host that merely begins with the origin's
      host name. */
  lemma PrefixAdmitsOtherOrigin()
    ensures var r := Request("GET", "no-cors", "https://vista.example.net/x.js");
            && RouteAsWritten(r, "https://vista.example") == CacheFirst
            && !SameOrigin(r.url, "https://vista.example")
  {
    var url := "https://vista.example.net/x.js";
    assert url[..21] == "https://vista.example";
    assert url[21] == '.';
  }

  /** The routing decision with the origin test the handler intends: only
      requests to the worker's own origin are answered from the cache. */
  function Route(r: Request, origin: string): (route: Handling)
    ensures r.httpMethod != "GET" ==> route == PassThrough
    ensures r.httpMethod == "GET" && r.mode == "navigate" ==> route == NetworkFirst(IndexPage)
    ensures r.httpMethod == "GET" && r.mode != "navigate" ==> (route == CacheFirst <==> SameOrigin(r.url, origin))
    ensures route == PassThrough <==> r.httpMethod != "GET" || (r.mode != "navigate" && !SameOrigin(r.url, origin))
  {
    if r.httpMethod != "GET" then PassThrough
    else if r.mode == "navigate" then NetworkFirst(IndexPage)
    else if !SameOrigin(r.url, origin) then PassThrough
    else CacheFirst
  }

  /** The two decisions differ only on a URL that begins with the origin
      without being on it. */
  lemma RouteRefinesAsWritten(r: Request, origin: string)
    ensures Route(r, origin) != RouteAsWritten(r, origin) ==>
      r.httpMethod == "GET" && r.mode != "navigate" && StartsWith(r.url, origin) && !SameOrigin(r.url, origin)
    ensures Route(r, origin) == CacheFirst ==> RouteAsWritten(r, origin) == CacheFirst
  {
  }

  /** How a request is answered. */
  datatype Answer = BrowserDefault | FromNetwork | FromCache(key: string) | NetworkError

  /** The answer for a route, given whether the network succeeds and the
      requests held by any cache (`caches.match` searches them all): the
      navigation fallback finds the index page or gives no response, which the
      browser turns into a network error; cache-first uses a cached response
      before the network. */
  function Respond(route: Handling, r: Request, networkOk: bool, cached: set<string>): (a: Answer)
    ensures route == PassThrough <==> a == BrowserDefault
    ensures route.NetworkFirst? ==> (a == FromNetwork <==> networkOk)
    ensures route.NetworkFirst? && !networkOk ==>
      a == (if route.fallback in cached then FromCache(route.fallback) else NetworkError)
    ensures route == CacheFirst && r.url in cached ==> a == FromCache(r.url)
    ensures route == CacheFirst && r.url !in cached ==> a == (if networkOk then FromNetwork else NetworkError)
    ensures a.FromCache? ==> a.key in cached
  {
    match route
    case PassThrough => BrowserDefault
    case NetworkFirst(fallback) =>
      if networkOk then FromNetwork
      else if fallback in cached then FromCache(fallback)
      else NetworkError
    case CacheFirst =>
      if r.url in cached then FromCache(r.url)
      else if networkOk then FromNetwork
      else NetworkError
  }

  /** Every request any cache holds. */
  function Held(caches: map<string, set<string>>): (held: set<string>)
    ensures forall e :: e in held <==> exists k :: k in caches && e in caches[k]
  {
    set k, e | k in caches && e in caches[k] :: e
  }

  /** After installation and activation an offline navigation, to any origin,
      is answered with the cached index page. */
  lemma OfflineNavigation(caches: map<string, set<string>>, r: Request, origin: string)
    requires StaticCache in caches && IndexPage in caches[StaticCache]
    requires r.httpMethod == "GET" && r.mode == "navigate"
    ensures Respond(Route(r, origin), r, false, Held(Evicted(caches))) == FromCache(IndexPage)
  {
    assert IndexPage in Evicted(caches)[StaticCache];
  }

  // ---- message ----

  /** `event.data`: a falsy value, or a value whose `type` property is read
      (absent for primitives and objects without one). */
  datatype MessageData = Falsy | Present(typeProperty: Option<JsonValue>)

  /** `event.data && event.data.type === 'SKIP_WAITING'`. */
  predicate AsksToSkipWaiting(data: MessageData)
  {
    data.Present? && data.typeProperty == Some(JString("SKIP_WAITING"))
  }

  /** The message the hashed page posts to a waiting worker. */
  const PageSkipWaiting: MessageData := Present(Some(JString("SKIP_WAITING")))

  /** The page's message is the only shape that makes the worker skip waiting:
      a falsy value, a missing `type` or any other `type` is ignored. */
  lemma OnlySkipWaitingMessage(data: MessageData)
    ensures AsksToSkipWaiting(data) <==> data == PageSkipWaiting
  {
  }
}
