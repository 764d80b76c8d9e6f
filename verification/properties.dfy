/** Properties of the caching policy that relate several handler steps:
    repeated requests, the lifecycle of the current generation, and what an
    installed worker can always answer offline. */
module ServiceWorkerProperties {
  import opened CacheStore
  import opened ServiceWorker

  /** An event the worker handles. */
  datatype Event =
    | InstallEvent(network: map<Url, Response>)
    | ActivateEvent
    | FetchEvent(req: Request, net: Option<Response>)

  /** The store after the worker handles one event. */
  function Apply(s: Store, e: Event): Store
  {
    match e
    case InstallEvent(network) => InstallStep(s, network).store
    case ActivateEvent => ActivateStep(s)
    case FetchEvent(req, net) => FetchStep(s, req, net).store
  }

  /** The store after the worker handles `events` in order. */
  function Run(s: Store, events: seq<Event>): Store
    decreases |events|
  {
    if events == [] then s else Run(Apply(s, events[0]), events[1..])
  }

  /** A request that is not a GET gets the same treatment whatever the
      store and the network: it is not intercepted and nothing is written. */
  lemma NonGetIgnoresStore(s1: Store, s2: Store, req: Request, net1: Option<Response>, net2: Option<Response>)
    requires req.verb != "GET"
    ensures FetchStep(s1, req, net1) == Step(NotIntercepted, s1)
    ensures FetchStep(s1, req, net1).result == FetchStep(s2, req, net2).result
  {
  }

  /** Offline, a navigation answered once is answered the same way again,
      and the second request changes nothing. */
  lemma OfflineNavigationRepeats(s: Store, req: Request)
    requires RouteOf(req) == ToNetworkFirst
    ensures var first := FetchStep(s, req, None);
            FetchStep(first.store, req, None) == first
  {
  }

  /** Stale while revalidate serves a cached entry while fetching a newer
      one, so the next request for the URL gets the newer one: a response
      is at most one generation stale. */
  lemma StaleByOneGeneration(s: Store, req: Request, cached: Response, newer: Response, net: Option<Response>)
    requires RouteOf(req) == ToStaleWhileRevalidate
    requires Lookup(s, CACHE_NAME, req.url) == Some(cached)
    ensures var first := FetchStep(s, req, Some(newer));
            first.result == Respond(Some(cached)) &&
            FetchStep(first.store, req, net).result == Respond(Some(newer))
  {
  }

  /** A GET of the sample data with an empty store and the network up is
      answered from the network and stored; repeating it with the network
      down gives back the stored response. */
  lemma SampleDataOfflineReplay(resp: Response)
    ensures var req := Request("GET", "cors", "/data/sample.json");
            var first := FetchStep(map[], req, Some(resp));
            first.result == Respond(Some(resp)) &&
            FetchStep(first.store, req, None).result == Respond(Some(resp))
  {
  }

  /** Handling any one event keeps every core asset cached: installs and
      fetches only add or replace entries of the current generation, and
      activation keeps the current generation. */
  lemma EventKeepsCoreCached(s: Store, e: Event)
    requires CoreCached(s)
    ensures CoreCached(Apply(s, e))
  {
  }

  /** Every sequence of events keeps every core asset cached. */
  lemma {:induction false} RunKeepsCoreCached(s: Store, events: seq<Event>)
    requires CoreCached(s)
    ensures CoreCached(Run(s, events))
    decreases |events|
  {
    if events != [] {
      EventKeepsCoreCached(s, events[0]);
      RunKeepsCoreCached(Apply(s, events[0]), events[1..]);
    }
  }

  /** With every core asset cached, an offline navigation always gets a
      response: the cached page, or else the cached offline page. */
  lemma OfflineNavigationAnswered(s: Store, req: Request)
    requires CoreCached(s)
    requires RouteOf(req) == ToNetworkFirst
    ensures FetchStep(s, req, None).result.Respond?
    ensures FetchStep(s, req, None).result.response.Some?
  {
    assert CORE_ASSETS[5] == OFFLINE_URL;
    assert Lookup(s, CACHE_NAME, OFFLINE_URL).Some?;
  }

  /** After a successful install, whatever events follow, every offline
      navigation is answered. */
  lemma InstalledWorkerAnswersOfflineNavigation(s: Store, network: map<Url, Response>, events: seq<Event>, req: Request)
    requires AllFetched(CORE_ASSETS, network)
    requires RouteOf(req) == ToNetworkFirst
    ensures FetchStep(Run(InstallStep(s, network).store, events), req, None).result.Respond?
    ensures FetchStep(Run(InstallStep(s, network).store, events), req, None).result.response.Some?
  {
    RunKeepsCoreCached(InstallStep(s, network).store, events);
    OfflineNavigationAnswered(Run(InstallStep(s, network).store, events), req);
  }

  /** Installing and then activating leaves exactly one generation, the
      current one, holding every core asset. */
  lemma InstallThenActivate(s: Store, network: map<Url, Response>)
    requires AllFetched(CORE_ASSETS, network)
    ensures ActivateStep(InstallStep(s, network).store).Keys == {CACHE_NAME}
    ensures CoreCached(ActivateStep(InstallStep(s, network).store))
  {
  }
}
