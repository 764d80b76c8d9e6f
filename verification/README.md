# Caching policy of the demo PWA's service worker

This project models the service worker of a small progressive web app
(`sw.js`). The worker keeps named cache generations. Each generation maps a
request URL to a stored response. The worker does four things with them:

- On install it opens the current generation `pwa-lab-v1` and stores the nine
  core assets with `cache.addAll`. It reaches `skipWaiting` only when that
  succeeds.
- On activate it deletes every other generation and then reaches
  `clients.claim`.
- On fetch it leaves non-GET requests alone. It answers GET navigations with
  network first and every other GET with stale while revalidate.
- Network first writes a network response through to the cache. On a network
  error it serves the cached entry, then the cached `/offline.html`, then
  nothing. Stale while revalidate serves the cached entry if there is one, and
  otherwise the network's outcome. A network response always replaces the
  cached entry.

The model has three modules:

- `CacheStore` (`cache_store.dfy`) is the platform's cache storage: the value
  `Store = map<string, map<Url, Response>>`, a pure function for each Cache API
  operation the worker uses (`Opened`, `Lookup`, `Stored`, `AddedAll`,
  `Deleted`), and the class `CacheStorage`, which holds the store in a field
  and updates it in place, as the browser's `caches` object does.
- `ServiceWorker` (`service_worker.dfy`) is `sw.js`. It has the constants, the
  routing decision `RouteOf`, and one specification function per handler
  (`InstallStep`, `ActivateStep`, `NetworkFirstStep`,
  `StaleWhileRevalidateStep`, `FetchStep`). Each gives the handler's result and
  the store it leaves behind. Beside each function is a method (`Install`,
  `Activate`, `NetworkFirst`, `StaleWhileRevalidate`, `HandleFetch`). The
  method runs the handler's steps against a `CacheStorage` object, which plays
  the role of the global `caches`. Its postcondition ties the result and the
  new store to the specification function.
- `ServiceWorkerProperties` (`properties.dfy`) holds properties that span
  several steps. An event trace (`Run`) lets them speak of any sequence of
  install, activate and fetch events.

The network is an input. A strategy receives `Option<Response>`: `None` is a
network error, and a response with an HTTP error status still counts as a
success, because `fetch` resolves for it. Install receives a map from URL to
response, and a URL missing from it is a network error. Each handler is one
sequential step. The `cache.put` calls that the source does not await
(fire and forget) are applied before the step ends.

Where the design description and the code differ, the model follows the code:

- The description says a failed navigation with nothing cached always gets
  the offline page. The code returns no response when `/offline.html` is not
  cached either. `ServiceWorkerProperties.InstalledWorkerAnswersOfflineNavigation`
  proves the guarantee does hold once an install has succeeded, whatever events
  follow.
- The description says exactly one generation exists after activation. The
  code deletes the other generations, but it does not create the current one.
  So afterwards the set of names is a subset of `{pwa-lab-v1}`.
  `ServiceWorkerProperties.InstallThenActivate` proves it is exactly that set
  after a successful install.
- `caches.open` creates the generation when it is absent. The network-error
  path of network first, and a failed install, therefore leave every lookup
  unchanged, but an empty current generation may appear.

`cache.addAll` follows the `addAll()` algorithm of the Cache interface in the
W3C Service Workers specification. It fetches every URL. If any fetch has a
network error, a status outside 200–299, or status 206, it stores nothing and
rejects. Otherwise it stores every response.

## Model

| member | source | states |
|---|---|---|
| `ServiceWorker.RouteOf` | sw.js:14-19 | a request is bypassed exactly when its method is not GET, goes to network first exactly when it is a GET navigation, and to stale while revalidate exactly when it is any other GET |
| `ServiceWorker.FetchStep` | sw.js:12-20 | a bypassed request returns not-intercepted and the store unchanged; a navigation is answered with network first's response and store; every other GET with stale while revalidate's |
| `ServiceWorker.HandleFetch` | sw.js:12-20 | the fetch handler run on the live cache storage gives the reply and new store of `FetchStep` |
| `ServiceWorker.InstallStep` | sw.js:4-6 | `skipWaiting` is reached exactly when every core asset is fetched with an accepted response; then each core asset's lookup in `pwa-lab-v1` is its network response; otherwise no lookup changes; URLs outside the core assets and other generations never change |
| `ServiceWorker.Install` | sw.js:4-6 | the install handler run on the live cache storage gives the result and new store of `InstallStep` |
| `ServiceWorker.ActivateStep` | sw.js:8-10 | afterwards the generation names are a subset of `{pwa-lab-v1}`, the current generation is kept exactly when it existed, with the same entries |
| `ServiceWorker.Activate` | sw.js:8-10 | deleting each stale key in a loop yields `ActivateStep` of the old store, and `clients.claim` is reached |
| `ServiceWorker.NetworkFirstStep` | sw.js:33-43 | on network success the result is the network response and the URL now looks it up, other URLs unchanged; on network failure every lookup is unchanged and the result is the cached entry if present, else the cached `/offline.html` lookup |
| `ServiceWorker.NetworkFirst` | sw.js:33-43 | `networkFirst` run on the live cache storage gives the response and new store of `NetworkFirstStep` |
| `ServiceWorker.StaleWhileRevalidateStep` | sw.js:45-55 | with an entry cached the result is that entry whatever the network does; with none it is the network outcome; a network response replaces the entry; on network failure no lookup changes; other URLs never change |
| `ServiceWorker.StaleWhileRevalidate` | sw.js:45-55 | `staleWhileRevalidate` run on the live cache storage gives the response and new store of `StaleWhileRevalidateStep` |
| `CacheStore.Opened` | sw.js:46 | `caches.open` adds the name to the store's names, keeps every existing generation, and creates an absent one empty |
| `CacheStore.CacheStorage.Open` | sw.js:36 | opening updates the live store to `Opened` of the old one |
| `CacheStore.CacheStorage.Match` | sw.js:47 | `cache.match` finds a response exactly when the URL is a key of the generation, and it is the stored one |
| `CacheStore.Stored` | sw.js:37 | after `cache.put` the URL looks up the new response, and every other (generation, URL) lookup and the set of names are unchanged |
| `CacheStore.CacheStorage.Put` | sw.js:50 | putting updates the live store to `Stored` of the old one |
| `CacheStore.FetchAll` | sw.js:5 | the fetch phase of `addAll` succeeds exactly when every URL has an accepted response; its batch has exactly the listed URLs as keys, each mapped to its network response |
| `CacheStore.StoredAll` | sw.js:5 | the batch put replaces each batch URL's entry and keeps every other entry, generation and name |
| `CacheStore.AddedAll` | sw.js:5 | `addAll` succeeds exactly when every fetch is accepted; then each listed URL looks up its response and nothing else changes; otherwise there is no new store |
| `CacheStore.CacheStorage.AddAll` | sw.js:5 | all or nothing on the live store: success exactly when every fetch is accepted, store then `AddedAll`, else unchanged |
| `CacheStore.CacheStorage.Keys` | sw.js:9 | `caches.keys` returns exactly the names of the live store |
| `CacheStore.Deleted` | sw.js:9 | `caches.delete` removes exactly that name and keeps every other generation's entries |
| `CacheStore.CacheStorage.Delete` | sw.js:9 | deleting reports whether the name existed and updates the live store to `Deleted` of the old one |
| `ServiceWorkerProperties.NonGetIgnoresStore` | sw.js:14 | a non-GET request is not intercepted, leaves the store as it was, and gets the same reply for every store and every network outcome |
| `ServiceWorkerProperties.OfflineNavigationRepeats` | sw.js:39-41 | repeating an offline navigation gives the same result and the same store |
| `ServiceWorkerProperties.StaleByOneGeneration` | sw.js:45-55 | with an entry cached, a request on a working network returns the old entry, and the next request for that URL, online or not, returns the newer response |
| `ServiceWorkerProperties.SampleDataOfflineReplay` | sw.js:45-55 | `GET /data/sample.json` on an empty store with the network up returns and stores the response; repeating it offline returns the same response |
| `ServiceWorkerProperties.EventKeepsCoreCached` | sw.js:4-55 | if every core asset is cached, handling any install, activate or fetch event keeps them all cached |
| `ServiceWorkerProperties.RunKeepsCoreCached` | sw.js:4-55 | the same for every sequence of events |
| `ServiceWorkerProperties.OfflineNavigationAnswered` | sw.js:39-41 | with every core asset cached, an offline navigation is always answered with some response |
| `ServiceWorkerProperties.InstalledWorkerAnswersOfflineNavigation` | sw.js:1-55 | after a successful install, whatever events follow, every offline navigation is answered with some response |
| `ServiceWorkerProperties.InstallThenActivate` | sw.js:4-10 | after a successful install and an activation, `pwa-lab-v1` is the only generation and holds every core asset |

## Left out

- The `notificationclick` handler (sw.js:22-31). It only closes the notification and focuses or opens a window through the platform's client API.
- All of `app.js`. It is page glue over browser APIs (DOM, install prompt, notification permission, IndexedDB, share) with no caching logic of its own.
- Asynchrony: promise scheduling, `waitUntil`/`respondWith` lifetime extension, and background revalidation racing with other requests. Each handler is one sequential step, and the puts the source does not await are applied within the step.
- `skipWaiting` and `clients.claim` are modelled only as reached or not reached.
- Response internals. Headers, bodies, `clone()`, opaque responses and match options such as `Vary` are not modelled. A response is a value with a status code.
- `CacheStore.Stored`: the platform's own rejections of `cache.put` are not modelled, so a put always stores. These are status 206, `Vary: *`, and a URL whose scheme is not http(s). In the source such a rejection is ignored, because the put is not awaited.
- `CacheStore.FetchAll`: the rejection of `addAll` for a request list that contains the same URL twice is not modelled. The core asset list has no duplicates.
- URLs are compared as strings. Resolving relative URLs against the worker's location is not modelled.
- The order of the names that `caches.keys()` returns is not modelled. The model deletes stale generations in an arbitrary order, and the final store does not depend on it.
- Failures of `caches.open`, `caches.delete` or storage quota, and the browser evicting storage on its own, are not modelled.
