/**
 * The worker's fixed configuration and its two pure decisions: which
 * requests it intercepts (and with which strategy), and which entries of
 * the seed list it pre-caches at install time.
 */
module Policy {
  import opened Http

  /** The tag of the current cache generation. */
  const CacheName: Tag := "roteiros-app-cache-v2"

  /** The seed list: the app-shell paths cached at install time. */
  const UrlsToCache: seq<string> := ["/", "/index.html"]

  /** Backends whose requests the worker never intercepts. */
  const IgnoredHosts: seq<string> :=
    ["firestore.googleapis.com", "firebaseinstallations.googleapis.com", "identitytoolkit.googleapis.com"]

  /** `sub` occurs in `s` starting at position `i`. */
  ghost predicate OccursAt(sub: string, s: string, i: int) {
    0 <= i <= |s| - |sub| && s[i..i + |sub|] == sub
  }

  /** `sub` occurs somewhere in `s` as a contiguous run. */
  ghost predicate Occurs(sub: string, s: string) {
    exists i :: OccursAt(sub, s, i)
  }

  /** When `sub` is not a prefix of `s`, it occurs in `s` exactly when it occurs in `s` without its first character. */
  lemma OccursInTail(s: string, sub: string)
    requires |sub| <= |s| && !(sub <= s)
    ensures |s| > 0
    ensures Occurs(sub, s) <==> Occurs(sub, s[1..])
  {
    if Occurs(sub, s) {
      var i :| OccursAt(sub, s, i);
      assert i != 0;
      assert s[1..][i - 1..i - 1 + |sub|] == sub;
      assert OccursAt(sub, s[1..], i - 1);
    }
    if Occurs(sub, s[1..]) {
      var j :| OccursAt(sub, s[1..], j);
      assert s[j + 1..j + 1 + |sub|] == sub;
      assert OccursAt(sub, s, j + 1);
    }
  }

  /** JavaScript's `s.includes(sub)`: a substring search. */
  function Includes(s: string, sub: string): (r: bool)
    ensures r <==> Occurs(sub, s)
    decreases |s|
  {
    if |sub| > |s| then false
    else if sub <= s then
      assert OccursAt(sub, s, 0);
      true
    else
      OccursInTail(s, sub);
      Includes(s[1..], sub)
  }

  /** The three ways the fetch handler treats an intercepted request. */
  datatype Route = Ignored | FirstParty | ThirdParty

  /** A request the worker leaves to the browser's default handling. */
  ghost predicate IsIgnored(req: Request) {
    || req.verb != "GET"
    || req.protocol == "chrome-extension:"
    || exists h :: h in IgnoredHosts && Occurs(h, req.hostname)
  }

  /**
   * The fetch handler's routing decision. `selfOrigin` is the origin the
   * worker itself was served from.
   */
  function Classify(req: Request, selfOrigin: string): (route: Route)
    ensures route == Ignored <==> IsIgnored(req)
    ensures route == FirstParty <==>
              !IsIgnored(req) && (req.pathname in UrlsToCache || req.origin == selfOrigin)
    ensures route == ThirdParty <==>
              !IsIgnored(req) && req.pathname !in UrlsToCache && req.origin != selfOrigin
  {
    if || req.protocol == "chrome-extension:"
       || Includes(req.hostname, IgnoredHosts[0])
       || Includes(req.hostname, IgnoredHosts[1])
       || Includes(req.hostname, IgnoredHosts[2])
       || req.verb != "GET"
    then Ignored
    else if req.pathname in UrlsToCache || req.origin == selfOrigin then FirstParty
    else ThirdParty
  }

  /** The install-time filter: the seed entries that do not start with "http", in list order. */
  function LocalSeeds(urls: seq<string>): (r: seq<string>)
    ensures forall u :: u in r <==> u in urls && !("http" <= u)
    ensures |r| <= |urls|
  {
    if urls == [] then []
    else
      var rest := LocalSeeds(urls[1..]);
      if "http" <= urls[0] then rest else [urls[0]] + rest
  }

  /**
   * A path on the site: it starts with a single "/". A seed entry starting
   * with "//" is scheme-relative and names a host of its own.
   */
  predicate SitePath(path: string) {
    "/" <= path && !("//" <= path)
  }

  /**
   * The absolute URL `cache.addAll` requests and stores for a seed path:
   * the path resolved against the worker's own URL. The worker script is
   * served from the site root, so a relative path resolves under "/".
   * The result is the browser's only for site paths without dot segments,
   * query or fragment.
   */
  function Resolve(origin: string, path: string): (url: Key)
    ensures origin <= url && "/" <= url[|origin|..]
    ensures SitePath(path) ==> url[|origin|..] == path
  {
    if "/" <= path then origin + path else origin + "/" + path
  }

  /** Two site paths resolve to the same URL only when they are the same path. */
  lemma ResolveInjective(origin: string, a: string, b: string)
    requires SitePath(a) && SitePath(b) && Resolve(origin, a) == Resolve(origin, b)
    ensures a == b
  {
    assert a == (origin + a)[|origin|..];
    assert b == (origin + b)[|origin|..];
  }

  /** Both configured seed entries are site paths, so `Resolve` gives the URL the browser caches them under. */
  lemma SeedListIsSitePaths()
    ensures forall u :: u in UrlsToCache ==> SitePath(u)
  {
    assert UrlsToCache[0] == "/" && |UrlsToCache[0]| < |"//"|;
    assert UrlsToCache[1][1] == 'i';
  }

  /** Every path of `paths` resolved against `origin`, in list order. */
  function ResolveAll(origin: string, paths: seq<string>): (urls: seq<Key>)
    ensures |urls| == |paths|
    ensures forall i :: 0 <= i < |paths| ==> urls[i] == Resolve(origin, paths[i])
    ensures forall k :: k in urls <==> exists p :: p in paths && k == Resolve(origin, p)
  {
    if paths == [] then []
    else [Resolve(origin, paths[0])] + ResolveAll(origin, paths[1..])
  }

  /** The filter keeps relative order: filtering a concatenation concatenates the filtered parts. */
  lemma {:induction false} LocalSeedsAppend(a: seq<string>, b: seq<string>)
    ensures LocalSeeds(a + b) == LocalSeeds(a) + LocalSeeds(b)
  {
    if a != [] {
      assert (a + b)[0] == a[0];
      assert (a + b)[1..] == a[1..] + b;
      LocalSeedsAppend(a[1..], b);
    } else {
      assert a + b == b;
    }
  }

  /** A list of local entries passes the filter unchanged. */
  lemma {:induction false} LocalSeedsOfLocal(urls: seq<string>)
    requires forall u :: u in urls ==> !("http" <= u)
    ensures LocalSeeds(urls) == urls
  {
    if urls != [] {
      assert urls[0] in urls;
      assert forall u :: u in urls[1..] ==> u in urls;
      LocalSeedsOfLocal(urls[1..]);
      assert urls == [urls[0]] + urls[1..];
    }
  }

  /** Every entry of the configured seed list is local, so install tries to cache all of it. */
  lemma SeedListIsLocal()
    ensures LocalSeeds(UrlsToCache) == UrlsToCache
  {
    assert !("http" <= UrlsToCache[0]) && !("http" <= UrlsToCache[1]) by {
      assert |UrlsToCache[0]| < |"http"|;
      assert UrlsToCache[1][0] == '/';
    }
    LocalSeedsOfLocal(UrlsToCache);
  }
}
