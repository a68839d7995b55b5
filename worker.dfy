/**
 * The service worker itself: its three event handlers (install, activate,
 * fetch) as methods of a class whose state is the origin's cache storage.
 * Each handler is one atomic step; the network is an input to it.
 */
module Worker {
  import opened Http
  import opened Policy
  import opened CacheStorage
  import opened Strategies

  /** Seeding succeeds exactly when every local seed entry, requested under its resolved URL, fetches ok. */
  lemma SeedingSucceeds(start: Store, origin: string, net: Key -> NetOutcome)
    ensures AddAll(start, ResolveAll(origin, LocalSeeds(UrlsToCache)), net).Some? <==>
            forall u :: u in LocalSeeds(UrlsToCache) ==> net(Resolve(origin, u)).Storable()
  {
    var urls := ResolveAll(origin, LocalSeeds(UrlsToCache));
    assert (forall k :: k in urls ==> net(k).Storable()) <==>
           (forall u :: u in LocalSeeds(UrlsToCache) ==> net(Resolve(origin, u)).Storable());
  }

  /**
   * A successful seeding stores every local seed entry under its resolved
   * URL with its fetched response, adds no other key, and keeps an all-ok
   * store all ok.
   */
  lemma SeedingStores(start: Store, origin: string, net: Key -> NetOutcome)
    requires AddAll(start, ResolveAll(origin, LocalSeeds(UrlsToCache)), net).Some?
    ensures var store := AddAll(start, ResolveAll(origin, LocalSeeds(UrlsToCache)), net).value;
            && (forall u :: u in LocalSeeds(UrlsToCache) ==>
                  Resolve(origin, u) in store && store[Resolve(origin, u)] == net(Resolve(origin, u)).response)
            && (forall k :: k in store ==>
                  k in start || exists u :: u in UrlsToCache && !("http" <= u) && k == Resolve(origin, u))
            && (StoreOk(start) ==> StoreOk(store))
  {
    var seeds := LocalSeeds(UrlsToCache);
    var urls := ResolveAll(origin, seeds);
    var store := AddAll(start, urls, net).value;
    forall k | k in store
      ensures k in start || exists u :: u in UrlsToCache && !("http" <= u) && k == Resolve(origin, u)
    {
      if k !in start {
        assert k in urls;
        var u :| u in seeds && k == Resolve(origin, u);
        assert u in UrlsToCache && !("http" <= u);
      }
    }
  }

  /**
   * Once a local seed entry is in the current store under its resolved URL,
   * a first-party request for that URL is a hit: it is answered with an
   * entry some store holds, does not reach the network, and changes nothing.
   */
  lemma SeededPageIsHit(c: Caches, origin: string, u: string, net: NetOutcome,
                        reply: Option<Response>, fetched: bool, c': Caches)
    requires u in LocalSeeds(UrlsToCache)
    requires CacheName in c && Resolve(origin, u) in c[CacheName]
    requires CacheFirstSpec(c, Resolve(origin, u), net, reply, fetched, c')
    ensures !fetched && c' == c
    ensures reply.Some? && HeldBy(c, Resolve(origin, u), reply.value)
  {
  }

  /** What the fetch handler does with a request: leave it alone, or answer it (possibly with nothing). */
  datatype Handling = NotIntercepted | RespondedWith(reply: Option<Response>)

  class ServiceWorker {
    /** Every cache store of the origin, by tag. */
    var caches: Caches
    /** `self.location.origin`: the origin the worker was served from. */
    const origin: string

    /** A worker for `origin` that finds the stores `persisted` left by earlier versions. */
    constructor(origin: string, persisted: Caches)
      ensures this.origin == origin && caches == persisted
    {
      this.origin := origin;
      caches := persisted;
    }

    /**
     * Install: open the current store, then `addAll` the local seed
     * entries, each requested and stored under its URL resolved against
     * the worker's origin. A failed `addAll` is caught, so install itself
     * never fails; `seeded` says whether the seed entries were stored.
     */
    method Install(net: Key -> NetOutcome) returns (seeded: bool)
      modifies this
      ensures CacheName in caches
      ensures seeded <==> forall u :: u in LocalSeeds(UrlsToCache) ==> net(Resolve(origin, u)).Storable()
      ensures forall t :: t in old(caches) && t != CacheName ==> t in caches && caches[t] == old(caches)[t]
      ensures caches.Keys == old(caches).Keys + {CacheName}
      ensures var start := Open(old(caches), CacheName)[CacheName];
              && (seeded ==> caches[CacheName] == AddAll(start, ResolveAll(origin, LocalSeeds(UrlsToCache)), net).value)
              && (!seeded ==> caches[CacheName] == start)
      ensures seeded ==> forall u :: u in LocalSeeds(UrlsToCache) ==>
                Resolve(origin, u) in caches[CacheName] &&
                caches[CacheName][Resolve(origin, u)] == net(Resolve(origin, u)).response
      ensures forall k :: k in caches[CacheName] ==>
                || k in Open(old(caches), CacheName)[CacheName]
                || exists u :: u in UrlsToCache && !("http" <= u) && k == Resolve(origin, u)
      ensures AllOk(old(caches)) ==> AllOk(caches)
    {
      caches := Open(caches, CacheName);
      var start := caches[CacheName];
      var added := AddAll(start, ResolveAll(origin, LocalSeeds(UrlsToCache)), net);
      SeedingSucceeds(start, origin, net);
      AllOkByStore(old(caches));
      AllOkByStore(caches);
      match added {
        case Some(store) =>
          SeedingStores(start, origin, net);
          caches := caches[CacheName := store];
          seeded := true;
        case None =>
          seeded := false;
      }
      AllOkByStore(caches);
    }

    /** Activate: delete, one by one, every store whose tag is not the current one. */
    method Activate()
      modifies this
      ensures caches == Purge(old(caches), CacheName)
    {
      var names := caches.Keys;
      while names != {}
        invariant names <= old(caches).Keys
        invariant caches.Keys == old(caches).Keys - (old(caches).Keys - names - {CacheName})
        invariant forall t :: t in caches ==> caches[t] == old(caches)[t]
        decreases names
      {
        var name :| name in names;
        if name != CacheName {
          caches := Delete(caches, name);
        }
        names := names - {name};
      }
    }

    /** `caches.match(key)`: an entry for `key` from some store that holds one, if any does. */
    method Match(key: Key) returns (hit: Option<Response>)
      ensures hit.Some? <==> Held(caches, key)
      ensures hit.Some? ==> HeldBy(caches, key, hit.value)
    {
      if t :| t in caches && key in caches[t] {
        hit := Some(caches[t][key]);
      } else {
        hit := None;
      }
    }

    /** The first-party branch: cache first, then the network, caching ok responses in the current store. */
    method CacheFirst(req: Request, net: NetOutcome) returns (reply: Option<Response>, fetched: bool)
      modifies this
      ensures CacheFirstSpec(old(caches), req.url, net, reply, fetched, caches)
    {
      var cached := Match(req.url);
      if cached.Some? {
        return cached, false;
      }
      fetched := true;
      if net.Storable() {
        caches := Put(caches, CacheName, req.url, net.response);
      }
      reply := net.Reply();
    }

    /**
     * The third-party branch: open the current store, look the request up
     * there, then fetch; an ok response is written back, and the page gets
     * the cached entry if there was one, else the network's answer.
     */
    method StaleWhileRevalidate(req: Request, net: NetOutcome) returns (reply: Option<Response>, fetched: bool)
      modifies this
      ensures RevalidateSpec(old(caches), req.url, net, reply, fetched, caches)
    {
      caches := Open(caches, CacheName);
      var cached: Option<Response> := None;
      if req.url in caches[CacheName] {
        cached := Some(caches[CacheName][req.url]);
      }
      fetched := true;
      if net.Storable() {
        caches := caches[CacheName := caches[CacheName][req.url := net.response]];
      }
      reply := if cached.Some? then cached else net.Reply();
    }

    /** The fetch handler: route the request, then run the strategy for its route. */
    method HandleFetch(req: Request, net: NetOutcome) returns (handling: Handling, fetched: bool)
      modifies this
      ensures IsIgnored(req) ==> handling == NotIntercepted && !fetched && caches == old(caches)
      ensures Classify(req, origin) == FirstParty ==>
                handling.RespondedWith? && CacheFirstSpec(old(caches), req.url, net, handling.reply, fetched, caches)
      ensures Classify(req, origin) == ThirdParty ==>
                handling.RespondedWith? && RevalidateSpec(old(caches), req.url, net, handling.reply, fetched, caches)
    {
      var route := Classify(req, origin);
      match route
      case Ignored =>
        handling, fetched := NotIntercepted, false;
      case FirstParty =>
        var reply;
        reply, fetched := CacheFirst(req, net);
        handling := RespondedWith(reply);
      case ThirdParty =>
        var reply;
        reply, fetched := StaleWhileRevalidate(req, net);
        handling := RespondedWith(reply);
    }
  }
}
