/**
 * Client code: concrete runs of the worker whose outcomes follow from the
 * handlers' contracts alone.
 */
module Scenarios {
  import opened Http
  import opened Policy
  import opened CacheStorage
  import opened Strategies
  import opened Worker

  const AppOrigin := "https://app.example"

  /** A GET request for `url`, with its parsed parts. */
  function Get(url: Key, host: string, origin: string, path: string): Request {
    Request("GET", url, "https:", host, origin, path)
  }

  /** A GET over https to a host name shorter than every deny-listed host is never ignored. */
  lemma ShortHostNotIgnored(req: Request)
    requires req.verb == "GET" && req.protocol == "https:" && |req.hostname| < 24
    ensures !IsIgnored(req)
  {
    forall h | h in IgnoredHosts ensures !Occurs(h, req.hostname) {
      assert |h| >= 24;
    }
  }

  /** A network that answers every URL with 200 and the URL as body. */
  function Echo(u: Key): NetOutcome {
    Delivered(Response(200, u))
  }

  /** The only URLs install can add for the app's origin are its root and its index page. */
  lemma SeedUrlsOfApp(k: Key)
    requires exists u :: u in UrlsToCache && !("http" <= u) && k == Resolve(AppOrigin, u)
    ensures k == AppOrigin + "/" || k == AppOrigin + "/index.html"
  {
    var u :| u in UrlsToCache && !("http" <= u) && k == Resolve(AppOrigin, u);
    assert u == "/" || u == "/index.html";
  }

  /**
   * A store that holds every local seed entry of the app under its
   * absolute URL, as fetched from `Echo`, and nothing else, is exactly the
   * app shell.
   */
  lemma AppShellStore(store: Store)
    requires forall u :: u in LocalSeeds(UrlsToCache) ==>
               Resolve(AppOrigin, u) in store && store[Resolve(AppOrigin, u)] == Echo(Resolve(AppOrigin, u)).response
    requires forall k :: k in store ==>
               || k in Open(map[], CacheName)[CacheName]
               || exists u :: u in UrlsToCache && !("http" <= u) && k == Resolve(AppOrigin, u)
    ensures store == map[AppOrigin + "/" := Response(200, AppOrigin + "/"),
                         AppOrigin + "/index.html" := Response(200, AppOrigin + "/index.html")]
  {
    var root, index := AppOrigin + "/", AppOrigin + "/index.html";
    SeedListIsLocal();
    assert Resolve(AppOrigin, "/") == root && Resolve(AppOrigin, "/index.html") == index;
    assert "/" in LocalSeeds(UrlsToCache) && "/index.html" in LocalSeeds(UrlsToCache);
    forall k | k in store ensures k == root || k == index {
      SeedUrlsOfApp(k);
    }
  }

  /** Install with a reachable network stores exactly the two seed entries, under their absolute URLs. */
  method InstallSeedsAppShell() {
    var w := new ServiceWorker(AppOrigin, map[]);
    assert forall k :: Echo(k).Storable();
    var seeded := w.Install(Echo);
    AppShellStore(w.caches[CacheName]);
    assert w.caches.Keys == {CacheName};
  }

  /** After a successful install, a navigation to the site root is served from the cache, with the network down. */
  method ShellServedAfterInstall() {
    var w := new ServiceWorker(AppOrigin, map[]);
    var root := AppOrigin + "/";
    SeedListIsLocal();
    assert forall u :: u in LocalSeeds(UrlsToCache) ==> Echo(Resolve(AppOrigin, u)).Storable();
    var seeded := w.Install(Echo);
    assert Resolve(AppOrigin, "/") == root;
    assert "/" in LocalSeeds(UrlsToCache);
    assert w.caches[CacheName][root] == Response(200, root);
    var before := w.caches;
    assert before.Keys == {CacheName};

    var req := Get(root, "app.example", AppOrigin, "/");
    ShortHostNotIgnored(req);
    var h, f := w.HandleFetch(req, NetworkError);
    assert Held(before, root);
    assert !f;
    assert h == RespondedWith(Some(Response(200, root)));
  }

  /** Install with the network down still leaves an empty current store, and does not fail. */
  method InstallOffline() {
    var w := new ServiceWorker(AppOrigin, map[]);
    SeedListIsLocal();
    var seeded := w.Install((u: Key) => NetworkError);
    assert "/" in LocalSeeds(UrlsToCache);
    assert !seeded;
    assert w.caches == map[CacheName := map[]];
  }

  /** Activation with an old and the current generation keeps only the current one; a second activation changes nothing. */
  method ActivateDropsOldGeneration() {
    var current := map["/" := Response(200, "shell")];
    var w := new ServiceWorker(AppOrigin, map["roteiros-app-cache-v1" := map[], CacheName := current]);
    w.Activate();
    assert w.caches == map[CacheName := current];
    w.Activate();
    assert w.caches == map[CacheName := current];
  }

  /** A same-origin asset missing from the cache is fetched, cached, and served from the cache next time. */
  method FirstPartyMissThenHit() {
    var w := new ServiceWorker(AppOrigin, map[CacheName := map[]]);
    var url := AppOrigin + "/app.js";
    var req := Get(url, "app.example", AppOrigin, "/app.js");
    ShortHostNotIgnored(req);
    var body := Response(200, "console.log(1)");
    var h1, f1 := w.HandleFetch(req, Delivered(body));
    assert h1 == RespondedWith(Some(body)) && f1;
    assert w.caches[CacheName][url] == body;
    var h2, f2 := w.HandleFetch(req, NetworkError);
    assert Held(w.caches, url);
    assert !f2;
    assert h2 == RespondedWith(Some(body)) by {
      CacheFirstMissThenHit(map[CacheName := map[]], url, Delivered(body), Some(body), true,
        map[CacheName := map[url := body]], NetworkError, h2.reply, f2, w.caches);
    }
  }

  /** A same-origin asset the server answers with 404 is passed on and not cached. */
  method FirstPartyNotFound() {
    var w := new ServiceWorker(AppOrigin, map[CacheName := map[]]);
    var url := AppOrigin + "/missing.js";
    var req := Get(url, "app.example", AppOrigin, "/missing.js");
    ShortHostNotIgnored(req);
    var notFound := Response(404, "not found");
    var h, f := w.HandleFetch(req, Delivered(notFound));
    assert h == RespondedWith(Some(notFound));
    assert w.caches == map[CacheName := map[]];
  }

  /** A CDN resource that is neither cached nor reachable gets no response. */
  method ThirdPartyOffline() {
    var w := new ServiceWorker(AppOrigin, map[]);
    var url := "https://cdn.example/lib.css";
    var req := Get(url, "cdn.example", "https://cdn.example", "/lib.css");
    ShortHostNotIgnored(req);
    assert req.pathname !in UrlsToCache;
    var h, f := w.HandleFetch(req, NetworkError);
    assert h == RespondedWith(None);
    assert w.caches == map[CacheName := map[]];
  }

  /** A cached CDN resource is served stale once; the next request sees the refreshed copy. */
  method ThirdPartyStaleThenFresh() {
    var url := "https://cdn.example/lib.css";
    var stale := Response(200, "v1");
    var renewed := Response(200, "v2");
    var w := new ServiceWorker(AppOrigin, map[CacheName := map[url := stale]]);
    var req := Get(url, "cdn.example", "https://cdn.example", "/lib.css");
    ShortHostNotIgnored(req);
    assert req.pathname !in UrlsToCache;
    var h1, f1 := w.HandleFetch(req, Delivered(renewed));
    assert h1 == RespondedWith(Some(stale));
    var h2, f2 := w.HandleFetch(req, NetworkError);
    assert h2 == RespondedWith(Some(renewed));
  }

  /** A Firestore request and a POST are left to the browser, and the storage is untouched. */
  method BackendAndPostIgnored() {
    var w := new ServiceWorker(AppOrigin, map[]);
    var firestore := Get("https://firestore.googleapis.com/v1/doc", "firestore.googleapis.com",
                         "https://firestore.googleapis.com", "/v1/doc");
    assert OccursAt(IgnoredHosts[0], firestore.hostname, 0);
    var h1, f1 := w.HandleFetch(firestore, Delivered(Response(200, "doc")));
    assert h1 == NotIntercepted && !f1 && w.caches == map[];
    var post := Request("POST", AppOrigin + "/", "https:", "app.example", AppOrigin, "/");
    var h2, f2 := w.HandleFetch(post, Delivered(Response(200, "ok")));
    assert h2 == NotIntercepted && w.caches == map[];
  }
}
