/**
 * What one intercepted request does to the cache storage and what the
 * page receives, for each of the two caching strategies, stated as
 * relations between the storage before and after the request. The
 * network is an input: `net` is what the one fetch the strategy may issue
 * settles to, and `fetched` says whether the strategy issued it.
 */
module Strategies {
  import opened Http
  import opened Policy
  import opened CacheStorage

  /**
   * Cache first, for first-party requests. A request held by any store is
   * answered from it without touching the network or the storage.
   * Otherwise the network decides: its response (ok or not) is passed on,
   * a failure yields no response, and only an ok response is written to
   * the current store.
   */
  ghost predicate CacheFirstSpec(before: Caches, key: Key, net: NetOutcome,
                                 reply: Option<Response>, fetched: bool, after: Caches)
  {
    if Held(before, key) then
      && !fetched
      && reply.Some? && HeldBy(before, key, reply.value)
      && after == before
    else
      && fetched
      && reply == net.Reply()
      && after == (if net.Storable() then Put(before, CacheName, key, net.response) else before)
  }

  /** The entry of the current store for `key`, if any: the only store the third-party branch looks in. */
  function CurrentEntry(c: Caches, key: Key): Option<Response> {
    if CacheName in c && key in c[CacheName] then Some(c[CacheName][key]) else None
  }

  /**
   * Stale-while-revalidate, for third-party requests. The current store is
   * opened (and so created if missing), the network is always asked, an ok
   * network response overwrites the entry, and the page receives the entry
   * the current store held before the request if there was one, else what
   * the network gave.
   */
  ghost predicate RevalidateSpec(before: Caches, key: Key, net: NetOutcome,
                                 reply: Option<Response>, fetched: bool, after: Caches)
  {
    && fetched
    && reply == (if CurrentEntry(before, key).Some? then CurrentEntry(before, key) else net.Reply())
    && after == (if net.Storable() then Put(before, CacheName, key, net.response) else Open(before, CacheName))
  }

  /**
   * A first-party miss answered with an ok response makes the next request
   * for the same URL a hit: it is answered with that response and does not
   * reach the network.
   */
  lemma CacheFirstMissThenHit(
      c0: Caches, key: Key, net1: NetOutcome, reply1: Option<Response>, fetched1: bool, c1: Caches,
      net2: NetOutcome, reply2: Option<Response>, fetched2: bool, c2: Caches)
    requires !Held(c0, key) && net1.Storable()
    requires CacheFirstSpec(c0, key, net1, reply1, fetched1, c1)
    requires CacheFirstSpec(c1, key, net2, reply2, fetched2, c2)
    ensures reply1 == Some(net1.response)
    ensures !fetched2 && reply2 == Some(net1.response) && c2 == c1
  {
  }

  /**
   * A first-party miss that the network answers with a non-ok status, or
   * not at all, leaves the storage as it was, so the next request for the
   * same URL goes to the network again.
   */
  lemma CacheFirstFailureNotCached(
      c0: Caches, key: Key, net1: NetOutcome, reply1: Option<Response>, fetched1: bool, c1: Caches,
      net2: NetOutcome, reply2: Option<Response>, fetched2: bool, c2: Caches)
    requires !Held(c0, key) && !net1.Storable()
    requires CacheFirstSpec(c0, key, net1, reply1, fetched1, c1)
    requires CacheFirstSpec(c1, key, net2, reply2, fetched2, c2)
    ensures c1 == c0 && reply1 == net1.Reply()
    ensures fetched2 && reply2 == net2.Reply()
  {
  }

  /**
   * Stale-while-revalidate: with an entry in the current store, the page
   * gets that entry even when the network returns something else; an ok
   * network response replaces it, so the next third-party request for the
   * same URL gets the new content.
   */
  lemma RevalidateServesStaleThenFresh(
      c0: Caches, key: Key, net1: NetOutcome, reply1: Option<Response>, fetched1: bool, c1: Caches,
      net2: NetOutcome, reply2: Option<Response>, fetched2: bool, c2: Caches)
    requires CurrentEntry(c0, key).Some? && net1.Storable()
    requires RevalidateSpec(c0, key, net1, reply1, fetched1, c1)
    requires RevalidateSpec(c1, key, net2, reply2, fetched2, c2)
    ensures reply1 == Some(c0[CacheName][key])
    ensures reply2 == Some(net1.response)
  {
  }

  /** The third-party branch always ends with the current store in place, whatever the network did. */
  lemma RevalidateOpensCurrent(c0: Caches, key: Key, net: NetOutcome, reply: Option<Response>, fetched: bool, c1: Caches)
    requires RevalidateSpec(c0, key, net, reply, fetched, c1)
    ensures CacheName in c1
    ensures reply.None? <==> CurrentEntry(c0, key).None? && net.NetworkError?
  {
  }

  /** A first-party request writes at most one entry, the ok network response for its URL, into the current store. */
  lemma CacheFirstWritesOnlyOk(c0: Caches, key: Key, net: NetOutcome, reply: Option<Response>, fetched: bool, c1: Caches)
    requires CacheFirstSpec(c0, key, net, reply, fetched, c1)
    ensures c1 == c0 || (net.Storable() && GrowsAtMostBy(c0, c1, CacheName, key, net.response))
  {
  }

  /** Storage that holds only ok responses still does so after a first-party request. */
  lemma CacheFirstKeepsAllOk(c0: Caches, key: Key, net: NetOutcome, reply: Option<Response>, fetched: bool, c1: Caches)
    requires AllOk(c0)
    requires CacheFirstSpec(c0, key, net, reply, fetched, c1)
    ensures AllOk(c1)
  {
  }

  /** Storage that holds only ok responses still does so after a third-party request. */
  lemma RevalidateKeepsAllOk(c0: Caches, key: Key, net: NetOutcome, reply: Option<Response>, fetched: bool, c1: Caches)
    requires AllOk(c0)
    requires RevalidateSpec(c0, key, net, reply, fetched, c1)
    ensures AllOk(c1)
  {
  }
}
