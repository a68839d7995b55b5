# Caching service worker, modelled in Dafny

A model of the decision layer of a browser service worker (`sw.js`) that
sits between a web app and the network. The worker:

- pre-caches the app shell (`/`, `/index.html`) into the current cache
  store `roteiros-app-cache-v2` when it is installed;
- deletes every store of an older generation when it is activated;
- intercepts every request and routes it:
  - a non-GET request, a `chrome-extension:` URL, or a host containing one
    of the Firebase backends (`firestore.googleapis.com`,
    `firebaseinstallations.googleapis.com`, `identitytoolkit.googleapis.com`)
    is left to the browser;
  - a first-party request (its path is in the seed list, or it comes from
    the worker's own origin) is served **cache first**: an entry from any
    store, else the network, with ok responses written to the current store;
  - any other (third-party) request is served **stale-while-revalidate**:
    the current store's entry if there is one, else the network. Either
    way, an ok network response refreshes the entry.

The browser APIs are replaced by values. The origin's cache storage is a
`map<Tag, map<Key, Response>>`. A fetch is an input `NetOutcome`: a
delivered response, or a network error. The URL parser's output is given
as fields of the request.

Files:

- `http.dfy` (module `Http`): requests, response snapshots (`Ok()` means
  status 200 to 299), and network outcomes.
- `policy.dfy` (module `Policy`): the constants, the substring test behind
  `hostname.includes`, the request classifier, the install-time seed
  filter, and the resolution of seed paths to the absolute URLs they are
  cached under.
- `storage.dfy` (module `CacheStorage`): `caches.open`, `cache.put`,
  `caches.delete`, `cache.addAll` and the activation purge as functions on
  the storage value.
- `strategies.dfy` (module `Strategies`): the two caching strategies as
  relations between the storage before and after a request, and lemmas
  about sequences of requests.
- `worker.dfy` (module `Worker`): class `ServiceWorker`. Its `caches`
  field is the storage. Its methods are the install, activate and fetch
  handlers, and the two strategies. Each method is proved against the
  functions and relations above.
- `scenarios.dfy` (module `Scenarios`): client methods whose asserted
  outcomes verify against the handlers' contracts.

Points of the code worth noting:

- The third-party branch calls `caches.open(CACHE_NAME)` before anything
  else (sw.js:94). So the current store exists after any third-party
  request, even when nothing was written. The storage after a failed or
  non-ok fetch is `Open(before, CacheName)`, not `before`.
- The third-party lookup is awaited before the fetch is issued (sw.js:95-96).
  In this one-step model the order does not matter.
- The first-party lookup uses `caches.match` over all stores (sw.js:66), not
  only the current one. Its write goes to the current store only (sw.js:76-79).
- The deny-list test is a substring test on the hostname (sw.js:54-56), not
  an equality test.
- `cache.addAll` (sw.js:23) requests each seed path resolved against the
  worker's URL and stores it under that absolute URL (`https://host/` for
  `/`), the same key a later request for that page looks up.

## Model

| member | source | states |
|---|---|---|
| `Policy.Includes` | sw.js:54-56 | `hostname.includes(h)` is true exactly when `h` occurs as a contiguous run somewhere in the hostname |
| `Policy.Classify` | sw.js:53-64 | A request is ignored exactly when its method is not GET, its protocol is `chrome-extension:`, or its hostname contains one of the three Firebase hosts. A request that is not ignored is first-party exactly when its path is in the seed list or its origin is the worker's. It is third-party exactly when neither holds |
| `Policy.Resolve` | sw.js:23 | The URL `addAll` requests and stores for a seed path starts with the worker's origin followed by a path beginning with `/`. A site path (a single leading `/`) is kept as it is |
| `Policy.ResolveInjective` | sw.js:23 | Two different site paths never resolve to the same URL, so no such seed entry overwrites another |
| `Policy.SeedListIsSitePaths` | sw.js:3-5 | Both configured seed entries are site paths, so `Resolve` gives the URL the browser caches them under |
| `Policy.ResolveAll` | sw.js:23 | Resolving a list of paths keeps its length and order, and yields exactly the resolved URLs of its paths |
| `Policy.LocalSeeds` | sw.js:23 | The install filter keeps exactly the seed entries that do not start with `"http"` and adds nothing |
| `Policy.LocalSeedsAppend` | sw.js:23 | The filter keeps list order: filtering `a + b` gives the filtered `a` followed by the filtered `b` |
| `Policy.LocalSeedsOfLocal` | sw.js:23 | A list with no `"http"` entries passes the filter unchanged |
| `Policy.SeedListIsLocal` | sw.js:3-5 | Both configured seed entries (`/`, `/index.html`) pass the filter, in order |
| `CacheStorage.Open` | sw.js:16 | After `caches.open(tag)`, the store `tag` exists. An existing store keeps its entries, a missing one is created empty, and no other store changes |
| `CacheStorage.OpenIdempotent` | sw.js:16 | Opening the same tag twice gives the same storage as opening it once |
| `CacheStorage.Put` | sw.js:76-79 | A put creates the store if needed and maps the key to the new response. Every other entry and every other store is unchanged |
| `CacheStorage.PutGrowsByOne` | sw.js:79 | A put adds or replaces exactly one entry, in the target store, and keeps every other entry |
| `CacheStorage.PutKeepsAllOk` | sw.js:74-79 | Putting an ok response into storage where every response is ok keeps every response ok |
| `CacheStorage.Delete` | sw.js:39 | `caches.delete(tag)` removes exactly the store `tag`, keeps every other store, and is a no-op when `tag` is absent |
| `CacheStorage.Purge` | sw.js:34-42 | After the purge, the set of tags is the old set intersected with {current}, and the current store's entries are untouched |
| `CacheStorage.PurgeIdempotent` | sw.js:34-42 | Purging a second time changes nothing |
| `CacheStorage.AddAll` | sw.js:23 | `addAll` succeeds exactly when every URL's fetch delivers an ok response. On success, every URL maps to its response, entries for other keys are kept, and no other keys appear |
| `Strategies.CacheFirstMissThenHit` | sw.js:66-82 | After a first-party miss answered by an ok response, the page gets that response. The next first-party request for the URL is a hit: it gets the same response, makes no fetch, and changes no store |
| `Strategies.CacheFirstFailureNotCached` | sw.js:73-87 | After a first-party miss with a non-ok response or a network failure, the page gets that response, or none on a failure. The storage is unchanged, so the next request fetches again |
| `Strategies.CacheFirstWritesOnlyOk` | sw.js:73-82 | A first-party request either leaves the storage unchanged, or writes one entry, and only when the network gave an ok response: that response, for the request's URL, in the current store |
| `Strategies.CacheFirstKeepsAllOk` | sw.js:74-79 | Storage that holds only ok responses still does after a first-party request |
| `Strategies.RevalidateServesStaleThenFresh` | sw.js:94-106 | With an entry in the current store and an ok network response, the page gets the old entry, whatever the network returned. The next third-party request for the URL gets the network's content |
| `Strategies.RevalidateOpensCurrent` | sw.js:94-106 | After a third-party request the current store exists. The page gets no response exactly when the current store had no entry and the fetch failed |
| `Strategies.RevalidateKeepsAllOk` | sw.js:96-100 | Storage that holds only ok responses still does after a third-party request, because non-ok responses are never stored |
| `Worker.SeedingSucceeds` | sw.js:23 | Seeding succeeds exactly when every local seed entry, requested under its resolved URL, fetches ok |
| `Worker.SeededPageIsHit` | sw.js:66-70 | Once a local seed entry is in the current store under its resolved URL, a first-party request for that URL is answered with an entry some store holds, makes no fetch, and changes no store |
| `Worker.SeedingStores` | sw.js:23 | A successful seeding stores each local seed entry under its resolved absolute URL with its fetched response, adds no key that is not a resolved local seed, and keeps an all-ok store all ok |
| `Worker.ServiceWorker.Install` | sw.js:16-27 | The current store exists afterwards, even if seeding fails. Seeding succeeds exactly when every local seed entry fetches ok, and then stores each under its absolute URL (`Worker.SeededPageIsHit` then makes a later first-party request for it a hit). Otherwise the store is left as opened and install still completes. Only local seed entries are ever added. Other stores are untouched, and all-ok storage stays all ok |
| `Worker.ServiceWorker.Activate` | sw.js:34-42 | Deleting the stale stores one tag at a time leaves exactly the purge of the old storage: only the current tag, with its entries untouched |
| `Worker.ServiceWorker.Match` | sw.js:66 | `caches.match` answers something exactly when some store holds the URL, and its answer is an entry some store holds for it |
| `Worker.ServiceWorker.CacheFirst` | sw.js:65-89 | On a hit in any store: that entry, no fetch, storage unchanged. On a miss: the fetch result is passed on as it is (none on failure), and it is stored in the current store only when it is ok |
| `Worker.ServiceWorker.StaleWhileRevalidate` | sw.js:93-108 | Opens the current store and always fetches. An ok response overwrites the entry. The page gets the current store's earlier entry if there was one, else the network's answer |
| `Worker.ServiceWorker.HandleFetch` | sw.js:48-110 | An ignored request is not intercepted: no response is substituted, nothing is fetched, and the storage is unchanged. A first-party request follows cache first, and a third-party request follows stale-while-revalidate |

## Left out

- Event registration and host lifecycle plumbing are not modelled: `addEventListener`, `event.waitUntil`, `event.respondWith` and `self.clients.claim()`. Each handler is a plain method, and `respondWith` becomes the `RespondedWith` outcome.
- The `console.log`, `console.error` and `console.warn` calls are not modelled. They only log.
- URL parsing (`new URL(...)`) is not modelled. The request carries its protocol, hostname, origin and path as given fields, and its URL string is the cache key, compared exactly. The Cache API drops the fragment before comparing, so `https://host/#/x` matches the entry for `https://host/` in the browser but not in the model. Other cache-key matching options (ignoring the query string, `Vary`) are not modelled either.
- `Policy.Resolve` is exact only for site paths: a single leading `/` and no dot segments, query or fragment. Both configured seeds are such paths (`Policy.SeedListIsSitePaths`). It does not model scheme-relative `//host/...` entries, absolute URLs that the case-sensitive `startsWith('http')` filter lets through (`HTTPS://...`, `ftp:...`), a worker script served outside the site root, or `./`, `../`, queries and fragments. The model keys all of these under the worker's origin.
- The real Cache API and `fetch` are replaced by the storage map and by network outcomes passed in as inputs. Storage-operation failures (quota exceeded, a failed `caches.delete`) are not modelled: every put and delete succeeds. That includes a 206 Partial Content response, which `cache.put` always rejects (sw.js:79, sw.js:99) but the model stores, because `Ok()` covers every status from 200 to 299.
- `CacheStorage.AddAll` takes `addAll` to be all or nothing. It does not model the rejection of a batch that names the same request twice, or partial fetch behaviour inside the library.
- Response body streams and `clone()` are not modelled. A response is an immutable value, so cloning before storing is the identity.
- Concurrency is not modelled. Each handler runs as one atomic step. This leaves out racing requests for the same key, the un-awaited `cache.put` calls (sw.js:76-79, sw.js:99), which here finish within the handler's step, and activation running alongside fetches.
- `Worker.ServiceWorker.Match`: when several stores hold the URL, the contract says only that the answer comes from one of them. It does not say which store `caches.match` searches first, because that order belongs to the browser.
- Install's seed order: the filter is proved to keep list order (`Policy.LocalSeedsAppend`), but a store is a map, so the order in which `addAll` writes entries is not visible in the model.
