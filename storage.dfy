/**
 * The origin's cache storage as a value: every named store, each mapping
 * a request URL to a response snapshot. `caches.open`, `cache.put`,
 * `caches.delete` and `cache.addAll` are functions on that value; what
 * `caches.match` may answer is the predicate `HeldBy`.
 */
module CacheStorage {
  import opened Http

  type Store = map<Key, Response>
  type Caches = map<Tag, Store>

  /** `caches.open(tag)`: the store `tag` exists afterwards; an existing store is kept as it is. */
  function Open(c: Caches, tag: Tag): (c': Caches)
    ensures c'.Keys == c.Keys + {tag}
    ensures forall t :: t in c ==> c'[t] == c[t]
    ensures tag !in c ==> c'[tag] == map[]
  {
    if tag in c then c else c[tag := map[]]
  }

  /** Opening a store twice gives access to the same entries as opening it once. */
  lemma OpenIdempotent(c: Caches, tag: Tag)
    ensures Open(Open(c, tag), tag) == Open(c, tag)
  {
  }

  /** `caches.open(tag)` followed by `cache.put(key, r)`: an unconditional upsert. */
  function Put(c: Caches, tag: Tag, key: Key, r: Response): (c': Caches)
    ensures c'.Keys == c.Keys + {tag}
    ensures forall t :: t in c && t != tag ==> c'[t] == c[t]
    ensures c'[tag].Keys == Open(c, tag)[tag].Keys + {key}
    ensures c'[tag][key] == r
    ensures forall k :: k in Open(c, tag)[tag] && k != key ==> c'[tag][k] == Open(c, tag)[tag][k]
  {
    var o := Open(c, tag);
    o[tag := o[tag][key := r]]
  }

  /** Some store holds an entry for `key`. */
  ghost predicate Held(c: Caches, key: Key) {
    exists t :: t in c && key in c[t]
  }

  /** Some store holds `r` under `key`: what `caches.match` may answer, whichever store it searches first. */
  ghost predicate HeldBy(c: Caches, key: Key, r: Response) {
    exists t :: t in c && key in c[t] && c[t][key] == r
  }

  /** Every response kept in every store is ok. */
  ghost predicate AllOk(c: Caches) {
    forall t, k :: t in c && k in c[t] ==> c[t][k].Ok()
  }

  /** Every store keeps its entries from `c`, except that `tag` may also hold `r` under `key`. */
  ghost predicate GrowsAtMostBy(c: Caches, c': Caches, tag: Tag, key: Key, r: Response) {
    && c.Keys <= c'.Keys <= c.Keys + {tag}
    && forall t, k :: t in c' && k in c'[t] ==>
         (t == tag && k == key && c'[t][k] == r) || (t in c && k in c[t] && c'[t][k] == c[t][k])
  }

  /** A put changes nothing but the one entry it writes. */
  lemma PutGrowsByOne(c: Caches, tag: Tag, key: Key, r: Response)
    ensures GrowsAtMostBy(c, Put(c, tag, key, r), tag, key, r)
  {
  }

  /** After a put of an ok response, every cached response is still ok. */
  lemma PutKeepsAllOk(c: Caches, tag: Tag, key: Key, r: Response)
    requires AllOk(c) && r.Ok()
    ensures AllOk(Put(c, tag, key, r))
  {
  }

  /** `caches.delete(tag)`: the store `tag` is gone, every other store is kept; deleting a missing store is a no-op. */
  function Delete(c: Caches, tag: Tag): (c': Caches)
    ensures c'.Keys == c.Keys - {tag}
    ensures forall t :: t in c' ==> c'[t] == c[t]
    ensures tag !in c ==> c' == c
  {
    c - {tag}
  }

  /** The activation purge: keep the store `current` and delete every other one. */
  function Purge(c: Caches, current: Tag): (c': Caches)
    ensures c'.Keys == c.Keys * {current}
    ensures current in c ==> c'[current] == c[current]
  {
    if current in c then map[current := c[current]] else map[]
  }

  /** Purging twice is purging once. */
  lemma PurgeIdempotent(c: Caches, current: Tag)
    ensures Purge(Purge(c, current), current) == Purge(c, current)
  {
  }

  /** Every response in `store` is ok. */
  ghost predicate StoreOk(store: Store) {
    forall k :: k in store ==> store[k].Ok()
  }

  /** Storage is all ok exactly when each of its stores is. */
  lemma AllOkByStore(c: Caches)
    ensures AllOk(c) <==> forall t :: t in c ==> StoreOk(c[t])
  {
  }

  /**
   * `cache.addAll(urls)` on `store`, with `net` giving what fetching each
   * URL settles to: all or nothing. It fails when some URL cannot be
   * fetched or answers with a non-ok status; otherwise every URL is stored
   * with its response.
   */
  function AddAll(store: Store, urls: seq<Key>, net: Key -> NetOutcome): (r: Option<Store>)
    ensures r.Some? <==> forall u :: u in urls ==> net(u).Storable()
    ensures r.Some? ==> r.value.Keys == store.Keys + (set u | u in urls)
    ensures r.Some? ==> forall u :: u in urls ==> r.value[u] == net(u).response
    ensures r.Some? ==> forall k :: k in store && k !in urls ==> r.value[k] == store[k]
    ensures r.Some? && StoreOk(store) ==> StoreOk(r.value)
  {
    if exists u :: u in urls && !net(u).Storable() then None
    else Some(store + map u | u in urls :: net(u).response)
  }
}
