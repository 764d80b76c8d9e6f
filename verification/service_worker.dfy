/** The service worker's caching policy: what the install, activate and
    fetch handlers and the two caching strategies do to the cache store.
    Each handler is one sequential step from the store before to a result
    and the store after. The network is an input: a response, or None for a
    network error (an HTTP error status is still a response). */
module ServiceWorker {
  import opened CacheStore

  /** The name of the current cache generation. */
  const CACHE_NAME: string := "pwa-lab-v1"

  /** The assets stored at install time. */
  const CORE_ASSETS: seq<Url> := [
    "/", "/index.html", "/styles.css", "/app.js", "/manifest.json", "/offline.html",
    "/data/sample.json", "/assets/icons/icon-192.svg", "/assets/icons/icon-512.svg"
  ]

  /** The page served to a navigation that neither the network nor the
      cache can answer. */
  const OFFLINE_URL: Url := "/offline.html"

  datatype Request = Request(verb: string, mode: string, url: Url)

  /** How the fetch handler treats a request. */
  datatype Route = Bypass | ToNetworkFirst | ToStaleWhileRevalidate

  /** What the fetch handler does with a request: leaves it to the browser,
      or answers it through `respondWith` (with no response when the
      strategy resolves to `undefined`). */
  datatype Reply = NotIntercepted | Respond(response: Option<Response>)

  /** A handler's result together with the store it leaves behind. */
  datatype Step<T> = Step(result: T, store: Store)

  /** The fetch handler's choice of strategy. */
  function RouteOf(req: Request): (r: Route)
    ensures r == Bypass <==> req.verb != "GET"
    ensures r == ToNetworkFirst <==> req.verb == "GET" && req.mode == "navigate"
    ensures r == ToStaleWhileRevalidate <==> req.verb == "GET" && req.mode != "navigate"
  {
    if req.verb != "GET" then Bypass
    else if req.mode == "navigate" then ToNetworkFirst
    else ToStaleWhileRevalidate
  }

  /** Whether the store holds every core asset in the current generation. */
  ghost predicate CoreCached(s: Store)
  {
    CACHE_NAME in s && forall i :: 0 <= i < |CORE_ASSETS| ==> CORE_ASSETS[i] in s[CACHE_NAME]
  }

  /** The install handler: open the current generation, store every core
      asset with `addAll`, and reach `skipWaiting` (result true) only if
      that succeeded. */
  function InstallStep(s: Store, network: map<Url, Response>): (r: Step<bool>)
    ensures r.result <==> AllFetched(CORE_ASSETS, network)
    ensures CACHE_NAME in r.store && OthersUnchanged(s, r.store, CACHE_NAME)
    ensures r.result ==> CoreCached(r.store)
    ensures r.result ==> forall i :: 0 <= i < |CORE_ASSETS| ==>
      Lookup(r.store, CACHE_NAME, CORE_ASSETS[i]) == Some(network[CORE_ASSETS[i]])
    ensures !r.result ==> forall u :: Lookup(r.store, CACHE_NAME, u) == Lookup(s, CACHE_NAME, u)
    ensures forall u :: u !in CORE_ASSETS ==> Lookup(r.store, CACHE_NAME, u) == Lookup(s, CACHE_NAME, u)
  {
    var cache := Opened(s, CACHE_NAME);
    match AddedAll(cache, CACHE_NAME, CORE_ASSETS, network)
    case None => Step(false, cache)
    case Some(added) => Step(true, added)
  }

  /** The activate handler: every generation other than the current one is
      deleted; the current one keeps its entries. */
  function ActivateStep(s: Store): (t: Store)
    ensures t.Keys <= {CACHE_NAME}
    ensures CACHE_NAME in t <==> CACHE_NAME in s
    ensures CACHE_NAME in s ==> t[CACHE_NAME] == s[CACHE_NAME]
    ensures forall u :: Lookup(t, CACHE_NAME, u) == Lookup(s, CACHE_NAME, u)
  {
    map n | n in s && n == CACHE_NAME :: s[n]
  }

  /** Network first, for navigations. A network response is returned and
      written through to the cache; on a network error the cached entry is
      returned, else the cached offline page, else nothing. */
  function NetworkFirstStep(s: Store, req: Request, net: Option<Response>): (r: Step<Option<Response>>)
    ensures CACHE_NAME in r.store && OthersUnchanged(s, r.store, CACHE_NAME)
    ensures net.Some? ==> r.result == net && Lookup(r.store, CACHE_NAME, req.url) == net
    ensures forall u :: u != req.url ==> Lookup(r.store, CACHE_NAME, u) == Lookup(s, CACHE_NAME, u)
    ensures net.None? ==> forall u :: Lookup(r.store, CACHE_NAME, u) == Lookup(s, CACHE_NAME, u)
    ensures net.None? && Lookup(s, CACHE_NAME, req.url).Some? ==>
      r.result == Lookup(s, CACHE_NAME, req.url)
    ensures net.None? && Lookup(s, CACHE_NAME, req.url).None? ==>
      r.result == Lookup(s, CACHE_NAME, OFFLINE_URL)
  {
    var cache := Opened(s, CACHE_NAME);
    match net
    case Some(resp) => Step(Some(resp), Stored(cache, CACHE_NAME, req.url, resp))
    case None =>
      var hit := Lookup(cache, CACHE_NAME, req.url);
      Step(if hit.Some? then hit else Lookup(cache, CACHE_NAME, OFFLINE_URL), cache)
  }

  /** Stale while revalidate, for every other GET. A cached entry is
      returned whatever the network does; with nothing cached the network's
      outcome is returned. A network response always replaces the entry. */
  function StaleWhileRevalidateStep(s: Store, req: Request, net: Option<Response>): (r: Step<Option<Response>>)
    ensures CACHE_NAME in r.store && OthersUnchanged(s, r.store, CACHE_NAME)
    ensures Lookup(s, CACHE_NAME, req.url).Some? ==> r.result == Lookup(s, CACHE_NAME, req.url)
    ensures Lookup(s, CACHE_NAME, req.url).None? ==> r.result == net
    ensures net.Some? ==> Lookup(r.store, CACHE_NAME, req.url) == net
    ensures forall u :: u != req.url ==> Lookup(r.store, CACHE_NAME, u) == Lookup(s, CACHE_NAME, u)
    ensures net.None? ==> forall u :: Lookup(r.store, CACHE_NAME, u) == Lookup(s, CACHE_NAME, u)
  {
    var cache := Opened(s, CACHE_NAME);
    var cached := Lookup(cache, CACHE_NAME, req.url);
    match net
    case Some(resp) => Step(if cached.Some? then cached else net, Stored(cache, CACHE_NAME, req.url, resp))
    case None => Step(cached, cache)
  }

  /** The fetch handler: a non-GET request is not intercepted and the store
      is neither read nor written; a GET navigation is answered by network
      first; every other GET by stale while revalidate. */
  function FetchStep(s: Store, req: Request, net: Option<Response>): (r: Step<Reply>)
    ensures RouteOf(req) == Bypass ==> r == Step(NotIntercepted, s)
    ensures RouteOf(req) == ToNetworkFirst ==>
      var nf := NetworkFirstStep(s, req, net); r == Step(Respond(nf.result), nf.store)
    ensures RouteOf(req) == ToStaleWhileRevalidate ==>
      var swr := StaleWhileRevalidateStep(s, req, net); r == Step(Respond(swr.result), swr.store)
  {
    if req.verb != "GET" then Step(NotIntercepted, s)
    else if req.mode == "navigate" then
      var nf := NetworkFirstStep(s, req, net);
      Step(Respond(nf.result), nf.store)
    else
      var swr := StaleWhileRevalidateStep(s, req, net);
      Step(Respond(swr.result), swr.store)
  }

  /** The install handler on the live cache storage. Returns whether
      `skipWaiting` is reached. */
  method Install(caches: CacheStorage, network: map<Url, Response>) returns (skipWaiting: bool)
    modifies caches
    ensures Step(skipWaiting, caches.generations) == InstallStep(old(caches.generations), network)
  {
    caches.Open(CACHE_NAME);
    skipWaiting := caches.AddAll(CACHE_NAME, CORE_ASSETS, network);
  }

  /** The activate handler on the live cache storage: deletes every stale
      generation, then reaches `clients.claim` (always). */
  method Activate(caches: CacheStorage) returns (claimed: bool)
    modifies caches
    ensures caches.generations == ActivateStep(old(caches.generations))
    ensures claimed
  {
    var names := caches.Keys();
    var stale := set n | n in names && n != CACHE_NAME;
    while stale != {}
      invariant stale <= caches.generations.Keys
      invariant CACHE_NAME !in stale
      invariant caches.generations.Keys == ActivateStep(old(caches.generations)).Keys + stale
      invariant forall n :: n in caches.generations ==> caches.generations[n] == old(caches.generations)[n]
      decreases stale
    {
      var n :| n in stale;
      var _ := caches.Delete(n);
      stale := stale - {n};
    }
    claimed := true;
  }

  /** `networkFirst(request)` on the live cache storage. */
  method NetworkFirst(caches: CacheStorage, req: Request, net: Option<Response>) returns (response: Option<Response>)
    modifies caches
    ensures Step(response, caches.generations) == NetworkFirstStep(old(caches.generations), req, net)
  {
    match net {
      case Some(resp) =>
        caches.Open(CACHE_NAME);
        // The source does not await this put (fire and forget); it is
        // applied before the step ends.
        caches.Put(CACHE_NAME, req.url, resp);
        response := Some(resp);
      case None =>
        caches.Open(CACHE_NAME);
        response := caches.Match(CACHE_NAME, req.url);
        if response.None? {
          response := caches.Match(CACHE_NAME, OFFLINE_URL);
        }
    }
  }

  /** `staleWhileRevalidate(request)` on the live cache storage. */
  method StaleWhileRevalidate(caches: CacheStorage, req: Request, net: Option<Response>) returns (response: Option<Response>)
    modifies caches
    ensures Step(response, caches.generations) == StaleWhileRevalidateStep(old(caches.generations), req, net)
  {
    caches.Open(CACHE_NAME);
    var cached := caches.Match(CACHE_NAME, req.url);
    // The revalidation runs in the background in the source and its put is
    // not awaited; it is applied before the step ends.
    var fromNetwork: Option<Response>;
    match net {
      case Some(resp) =>
        caches.Put(CACHE_NAME, req.url, resp);
        fromNetwork := Some(resp);
      case None =>
        fromNetwork := cached;
    }
    response := if cached.Some? then cached else fromNetwork;
  }

  /** The fetch handler on the live cache storage. */
  method HandleFetch(caches: CacheStorage, req: Request, net: Option<Response>) returns (reply: Reply)
    modifies caches
    ensures Step(reply, caches.generations) == FetchStep(old(caches.generations), req, net)
  {
    if req.verb != "GET" {
      return NotIntercepted;
    }
    if req.mode == "navigate" {
      var response := NetworkFirst(caches, req, net);
      return Respond(response);
    }
    var response := StaleWhileRevalidate(caches, req, net);
    reply := Respond(response);
  }
}
