/**
 * The offline layer of the server-rendered page (service-worker.js): which
 * requests it answers and how, the caches it fills, and which old caches it
 * deletes when a new version activates. Cache Storage is modelled as its
 * ordered list of named caches, each a map from request URL to response;
 * network answers are parameters.
 */
module ServiceWorker {
  import opened Wrappers
  import opened Text

  const CacheName := "web2speech-v1"
  const DynamicCache := "web2speech-dynamic-v1"
  const CachePrefix := "web2speech-"

  /** A fetch event's request: its method (`verb`), the parsed URL's protocol and path, the
      full URL (the cache key) and the request mode. */
  datatype Request = Request(verb: string, protocol: string, pathname: string, url: string, mode: string)

  /** The bodies the worker produces itself stand for their fixed texts. */
  datatype Body = Content(data: string) | AssetUnavailable | ApiUnavailable | OfflinePage

  datatype Response = Response(status: int, body: Body)

  /** `response.ok`. */
  predicate IsOk(r: Response) {
    200 <= r.status <= 299
  }

  datatype Route = NotIntercepted | StaticRoute | ApiRoute | PageRoute

  /** `isStaticAsset`, on the request's path. */
  predicate IsStaticAsset(path: string) {
    || Contains(path, "/static/")
    || EndsWith(path, ".css") || EndsWith(path, ".js") || EndsWith(path, ".png")
    || EndsWith(path, ".svg") || EndsWith(path, ".ico")
  }

  /** `isAPICall`, on the request's path. */
  predicate IsApiCall(path: string) {
    StartsWith(path, "/api/")
  }

  /** The fetch listener's choice: non-GET and extension requests pass
      through; static assets come before API calls, which come before pages. */
  function RouteOf(req: Request): Route {
    if req.verb != "GET" || req.protocol == "chrome-extension:" then NotIntercepted
    else if IsStaticAsset(req.pathname) then StaticRoute
    else if IsApiCall(req.pathname) then ApiRoute
    else PageRoute
  }

  /** Every GET outside extensions is answered by exactly one handler, and the
      API handler sees only paths that are not static assets. */
  lemma RouteCases(req: Request)
    ensures RouteOf(req) == NotIntercepted <==> req.verb != "GET" || req.protocol == "chrome-extension:"
    ensures RouteOf(req) == StaticRoute ==> IsStaticAsset(req.pathname)
    ensures RouteOf(req) == ApiRoute <==>
      RouteOf(req) != NotIntercepted && !IsStaticAsset(req.pathname) && IsApiCall(req.pathname)
    ensures RouteOf(req) == PageRoute ==> !IsStaticAsset(req.pathname) && !IsApiCall(req.pathname)
  {
  }

  /** Anything under '/static/' is a static asset, and so is a script under
      '/api/': the static rule takes precedence over the API rule. */
  lemma StaticTakesPrecedence(req: Request)
    requires req.verb == "GET" && req.protocol != "chrome-extension:"
    ensures StartsWith(req.pathname, "/static/") ==> RouteOf(req) == StaticRoute
    ensures IsApiCall(req.pathname) && EndsWith(req.pathname, ".js") ==> RouteOf(req) == StaticRoute
  {
  }

  lemma ApiScriptRoutesStatic()
    ensures RouteOf(Request("GET", "https:", "/api/x.js", "https://host/api/x.js", "cors")) == StaticRoute
  {
    assert EndsWith("/api/x.js", ".js");
  }

  /** One named cache: request URL to stored response. */
  datatype NamedCache = NamedCache(name: string, entries: map<string, Response>)

  /** `caches.match`: the first cache, in creation order, holding the key. */
  function Match(cs: seq<NamedCache>, key: string): (r: Option<Response>)
    ensures r.Some? <==> exists i :: 0 <= i < |cs| && key in cs[i].entries
  {
    if cs == [] then None
    else if key in cs[0].entries then Some(cs[0].entries[key])
    else Match(cs[1..], key)
  }

  /** `caches.open(name)` then `cache.put(key, r)`: opening creates the cache at
      the end when no cache has that name. */
  function Put(cs: seq<NamedCache>, name: string, key: string, r: Response): seq<NamedCache> {
    if cs == [] then [NamedCache(name, map[key := r])]
    else if cs[0].name == name then [cs[0].(entries := cs[0].entries[key := r])] + cs[1..]
    else [cs[0]] + Put(cs[1..], name, key, r)
  }

  function Names(cs: seq<NamedCache>): seq<string> {
    seq(|cs|, i requires 0 <= i < |cs| => cs[i].name)
  }

  /** Cache Storage never holds two caches of the same name. */
  predicate DistinctNames(cs: seq<NamedCache>) {
    forall i, j :: 0 <= i < j < |cs| ==> cs[i].name != cs[j].name
  }

  /** No cache that `caches.match` consults before the one named `name` (all
      of them, when none has that name) holds `key`. */
  predicate NotShadowed(cs: seq<NamedCache>, name: string, key: string)
    decreases |cs|
  {
    cs == [] || cs[0].name == name || (key !in cs[0].entries && NotShadowed(cs[1..], name, key))
  }

  /** A stored response is found by its key, whether it is new or overwrites an
      older response in the same cache, unless an earlier cache holds the key. */
  lemma {:induction false} MatchPutStored(cs: seq<NamedCache>, name: string, key: string, r: Response)
    requires NotShadowed(cs, name, key)
    ensures Match(Put(cs, name, key, r), key) == Some(r)
  {
    if cs != [] && cs[0].name != name {
      MatchPutStored(cs[1..], name, key, r);
    }
  }

  /** A key no cache holds is shadowed by none. */
  lemma {:induction false} MissNotShadowed(cs: seq<NamedCache>, name: string, key: string)
    requires Match(cs, key) == None
    ensures NotShadowed(cs, name, key)
  {
    if cs != [] && cs[0].name != name {
      MissNotShadowed(cs[1..], name, key);
    }
  }

  /** Storing under one key leaves every other key's lookup unchanged. */
  lemma {:induction false} MatchPutOther(cs: seq<NamedCache>, name: string, key: string, r: Response, other: string)
    requires other != key
    ensures Match(Put(cs, name, key, r), other) == Match(cs, other)
  {
    if cs != [] && cs[0].name != name {
      MatchPutOther(cs[1..], name, key, r, other);
    }
  }

  /** Storing adds a cache only when none has the name, and then at the end. */
  lemma {:induction false} PutNames(cs: seq<NamedCache>, name: string, key: string, r: Response)
    ensures name in Names(cs) ==> Names(Put(cs, name, key, r)) == Names(cs)
    ensures name !in Names(cs) ==> Names(Put(cs, name, key, r)) == Names(cs) + [name]
  {
    if cs != [] {
      assert Names(cs) == [cs[0].name] + Names(cs[1..]);
      PutNames(cs[1..], name, key, r);
      var p := Put(cs, name, key, r);
      if cs[0].name != name {
        assert Names(p) == [cs[0].name] + Names(Put(cs[1..], name, key, r));
      } else {
        assert Names(p) == Names(cs) by {
          forall i | 0 <= i < |cs| ensures Names(p)[i] == Names(cs)[i] {
          }
        }
      }
    }
  }

  /** No cache in `cs` is named `n`. */
  predicate NameFree(cs: seq<NamedCache>, n: string) {
    forall i :: 0 <= i < |cs| ==> cs[i].name != n
  }

  lemma NameFreeCons(cs: seq<NamedCache>, n: string)
    requires cs != []
    ensures NameFree(cs, n) <==> cs[0].name != n && NameFree(cs[1..], n)
  {
    if cs[0].name != n && NameFree(cs[1..], n) {
      forall i | 1 <= i < |cs| ensures cs[i].name != n {
        assert cs[i] == cs[1..][i - 1];
      }
    }
  }

  lemma DistinctCons(cs: seq<NamedCache>)
    requires cs != []
    ensures DistinctNames(cs) <==> DistinctNames(cs[1..]) && NameFree(cs[1..], cs[0].name)
  {
    if DistinctNames(cs) {
      forall i, j | 0 <= i < j < |cs| - 1 ensures cs[1..][i].name != cs[1..][j].name {
        assert cs[1..][i] == cs[i + 1] && cs[1..][j] == cs[j + 1];
      }
      forall i | 0 <= i < |cs| - 1 ensures cs[1..][i].name != cs[0].name {
        assert cs[1..][i] == cs[i + 1];
      }
    }
    if DistinctNames(cs[1..]) && NameFree(cs[1..], cs[0].name) {
      forall i, j | 0 <= i < j < |cs| ensures cs[i].name != cs[j].name {
        assert cs[j] == cs[1..][j - 1];
        if i > 0 {
          assert cs[i] == cs[1..][i - 1];
        }
      }
    }
  }

  /** Storing under another name does not create a cache named `n`. */
  lemma {:induction false} PutFree(cs: seq<NamedCache>, name: string, key: string, r: Response, n: string)
    requires NameFree(cs, n) && n != name
    ensures NameFree(Put(cs, name, key, r), n)
  {
    var p := Put(cs, name, key, r);
    if cs != [] {
      NameFreeCons(cs, n);
      NameFreeCons(p, n);
      if cs[0].name != name {
        PutFree(cs[1..], name, key, r, n);
        assert p[1..] == Put(cs[1..], name, key, r);
      } else {
        assert p[1..] == cs[1..];
      }
    }
  }

  /** Storing keeps cache names distinct. */
  lemma {:induction false} PutDistinct(cs: seq<NamedCache>, name: string, key: string, r: Response)
    requires DistinctNames(cs)
    ensures DistinctNames(Put(cs, name, key, r))
  {
    var p := Put(cs, name, key, r);
    if cs != [] {
      DistinctCons(cs);
      DistinctCons(p);
      if cs[0].name != name {
        PutDistinct(cs[1..], name, key, r);
        PutFree(cs[1..], name, key, r, cs[0].name);
        assert p[1..] == Put(cs[1..], name, key, r);
      } else {
        assert p[1..] == cs[1..];
      }
    }
  }

  /** The activate handler's filter: an application cache of another version. */
  predicate Obsolete(name: string) {
    StartsWith(name, CachePrefix) && name != CacheName && name != DynamicCache
  }

  /** The caches that survive activation, in their order. */
  function Kept(cs: seq<NamedCache>): (r: seq<NamedCache>)
    ensures |r| <= |cs|
  {
    if cs == [] then []
    else if Obsolete(cs[0].name) then Kept(cs[1..])
    else [cs[0]] + Kept(cs[1..])
  }

  /** Activation deletes exactly the obsolete caches: the current two and every
      cache not named with the application prefix survive, with their contents. */
  lemma {:induction false} KeptExactly(cs: seq<NamedCache>)
    ensures forall c :: c in Kept(cs) <==> c in cs && !Obsolete(c.name)
  {
    if cs != [] {
      KeptExactly(cs[1..]);
      assert cs == [cs[0]] + cs[1..];
    }
  }

  /** The two current caches and any foreign cache are never deleted. */
  lemma CurrentCachesSurvive(name: string)
    ensures name == CacheName || name == DynamicCache || !StartsWith(name, CachePrefix) ==> !Obsolete(name)
    ensures Obsolete("web2speech-v0") && !Obsolete("other-v1")
  {
  }

  /** The browser's Cache Storage as the worker sees it. */
  class CacheStorage {
    var caches: seq<NamedCache>

    predicate Valid()
      reads this
    {
      DistinctNames(caches)
    }

    constructor (initial: seq<NamedCache>)
      requires DistinctNames(initial)
      ensures caches == initial && Valid()
    {
      caches := initial;
    }

    /** The activate handler: every obsolete cache is deleted. */
    method Activate()
      requires Valid()
      modifies this
      ensures caches == Kept(old(caches)) && Valid()
    {
      KeptDistinct(caches);
      caches := Kept(caches);
    }

    /** Cache-first for static assets: a cached answer is returned without
        using the network; otherwise an OK network answer is stored in the
        static cache and returned; a failed fetch falls back to the cache, then to 503. */
    method HandleStaticAsset(req: Request, fetched: Option<Response>) returns (resp: Response)
      requires Valid()
      modifies this
      ensures Valid()
      ensures Match(old(caches), req.url).Some? ==> resp == Match(old(caches), req.url).value && caches == old(caches)
      ensures Match(old(caches), req.url) == None && fetched.Some? ==>
        resp == fetched.value
        && caches == (if IsOk(fetched.value) then Put(old(caches), CacheName, req.url, fetched.value) else old(caches))
      ensures Match(old(caches), req.url) == None && fetched == None ==>
        resp == Response(503, AssetUnavailable) && caches == old(caches)
    {
      var cached := Match(caches, req.url);
      if cached.Some? {
        return cached.value;
      }
      if fetched == None {
        // The second lookup of the failure path sees the caches unchanged
        // since the first, so it misses too.
        return Response(503, AssetUnavailable);
      }
      if IsOk(fetched.value) {
        PutDistinct(caches, CacheName, req.url, fetched.value);
        caches := Put(caches, CacheName, req.url, fetched.value);
      }
      resp := fetched.value;
    }

    /** Network-first for API calls: an OK answer is stored in the dynamic
        cache; a failed fetch is answered from any cache, else with 503. */
    method HandleApiCall(req: Request, fetched: Option<Response>) returns (resp: Response)
      requires Valid()
      modifies this
      ensures Valid()
      ensures fetched.Some? ==>
        resp == fetched.value
        && caches == (if IsOk(fetched.value) then Put(old(caches), DynamicCache, req.url, fetched.value) else old(caches))
      ensures fetched == None ==>
        && caches == old(caches)
        && resp == (if Match(old(caches), req.url).Some? then Match(old(caches), req.url).value else Response(503, ApiUnavailable))
    {
      if fetched.Some? {
        if IsOk(fetched.value) {
          PutDistinct(caches, DynamicCache, req.url, fetched.value);
          caches := Put(caches, DynamicCache, req.url, fetched.value);
        }
        return fetched.value;
      }
      var cached := Match(caches, req.url);
      if cached.Some? {
        return cached.value;
      }
      resp := Response(503, ApiUnavailable);
    }

    /** Pages: the main page (a URL ending in '/' or naming index.html) is
        served from the cached site root when there is one; other pages go to
        the network, storing OK answers in the dynamic cache; a failed fetch
        falls back to the cached page, then for navigations to the cached
        root, then to the offline page. `root` is the URL that '/' resolves to. */
    method HandlePageRequest(req: Request, root: string, fetched: Option<Response>) returns (resp: Response)
      requires Valid()
      modifies this
      ensures Valid()
      ensures IsMainPage(req) && Match(old(caches), root).Some? ==>
        resp == Match(old(caches), root).value && caches == old(caches)
      ensures !(IsMainPage(req) && Match(old(caches), root).Some?) && fetched.Some? ==>
        resp == fetched.value
        && caches == (if IsOk(fetched.value) then Put(old(caches), DynamicCache, req.url, fetched.value) else old(caches))
      ensures !(IsMainPage(req) && Match(old(caches), root).Some?) && fetched == None ==>
        caches == old(caches) && resp == PageFallback(old(caches), req, root)
    {
      if IsMainPage(req) {
        var cached := Match(caches, root);
        if cached.Some? {
          return cached.value;
        }
      }
      if fetched.Some? {
        if IsOk(fetched.value) {
          PutDistinct(caches, DynamicCache, req.url, fetched.value);
          caches := Put(caches, DynamicCache, req.url, fetched.value);
        }
        return fetched.value;
      }
      var cached := Match(caches, req.url);
      if cached.Some? {
        return cached.value;
      }
      if req.mode == "navigate" {
        var main := Match(caches, root);
        if main.Some? {
          return main.value;
        }
      }
      resp := Response(200, OfflinePage);
    }

    /** The fetch listener: the handler `RouteOf` picks, or no answer at all. */
    method HandleFetch(req: Request, root: string, fetched: Option<Response>) returns (resp: Option<Response>)
      requires Valid()
      modifies this
      ensures Valid()
      ensures RouteOf(req) == NotIntercepted ==> resp == None && caches == old(caches)
      ensures RouteOf(req) != NotIntercepted ==> resp.Some?
      ensures RouteOf(req) == StaticRoute ==>
        && resp == Some(if Match(old(caches), req.url).Some? then Match(old(caches), req.url).value
                        else if fetched.Some? then fetched.value
                        else Response(503, AssetUnavailable))
        && caches == (if Match(old(caches), req.url) == None && fetched.Some? && IsOk(fetched.value)
                      then Put(old(caches), CacheName, req.url, fetched.value) else old(caches))
      ensures RouteOf(req) == ApiRoute ==>
        && resp == Some(if fetched.Some? then fetched.value
                        else if Match(old(caches), req.url).Some? then Match(old(caches), req.url).value
                        else Response(503, ApiUnavailable))
        && caches == (if fetched.Some? && IsOk(fetched.value)
                      then Put(old(caches), DynamicCache, req.url, fetched.value) else old(caches))
      ensures RouteOf(req) == PageRoute ==>
        && resp == Some(if IsMainPage(req) && Match(old(caches), root).Some? then Match(old(caches), root).value
                        else if fetched.Some? then fetched.value
                        else PageFallback(old(caches), req, root))
        && caches == (if !(IsMainPage(req) && Match(old(caches), root).Some?) && fetched.Some? && IsOk(fetched.value)
                      then Put(old(caches), DynamicCache, req.url, fetched.value) else old(caches))
      ensures caches != old(caches) ==> fetched.Some? && IsOk(fetched.value)
      ensures caches != old(caches) && RouteOf(req) == StaticRoute ==>
        fetched.Some? && caches == Put(old(caches), CacheName, req.url, fetched.value)
      ensures caches != old(caches) && (RouteOf(req) == ApiRoute || RouteOf(req) == PageRoute) ==>
        fetched.Some? && caches == Put(old(caches), DynamicCache, req.url, fetched.value)
    {
      match RouteOf(req)
      case NotIntercepted =>
        resp := None;
      case StaticRoute =>
        var r := HandleStaticAsset(req, fetched);
        resp := Some(r);
      case ApiRoute =>
        var r := HandleApiCall(req, fetched);
        resp := Some(r);
      case PageRoute =>
        var r := HandlePageRequest(req, root, fetched);
        resp := Some(r);
    }
  }

  /** The URL test for the main page. */
  predicate IsMainPage(req: Request) {
    EndsWith(req.url, "/") || Contains(req.url, "index.html")
  }

  /** What a page request gets when the network fails. */
  function PageFallback(cs: seq<NamedCache>, req: Request, root: string): (r: Response)
    ensures Match(cs, req.url).Some? ==> r == Match(cs, req.url).value
    ensures Match(cs, req.url) == None && req.mode == "navigate" && Match(cs, root).Some? ==> r == Match(cs, root).value
    ensures Match(cs, req.url) == None && (req.mode != "navigate" || Match(cs, root) == None) ==> r == Response(200, OfflinePage)
  {
    if Match(cs, req.url).Some? then Match(cs, req.url).value
    else if req.mode == "navigate" && Match(cs, root).Some? then Match(cs, root).value
    else Response(200, OfflinePage)
  }

  /** Deleting caches creates no name. */
  lemma {:induction false} KeptFree(cs: seq<NamedCache>, n: string)
    requires NameFree(cs, n)
    ensures NameFree(Kept(cs), n)
  {
    if cs != [] {
      NameFreeCons(cs, n);
      KeptFree(cs[1..], n);
      var k := Kept(cs);
      if !Obsolete(cs[0].name) {
        NameFreeCons(k, n);
        assert k[1..] == Kept(cs[1..]);
      }
    }
  }

  /** Deleting caches keeps the surviving names distinct. */
  lemma {:induction false} KeptDistinct(cs: seq<NamedCache>)
    requires DistinctNames(cs)
    ensures DistinctNames(Kept(cs))
  {
    if cs != [] {
      DistinctCons(cs);
      KeptDistinct(cs[1..]);
      if !Obsolete(cs[0].name) {
        KeptFree(cs[1..], cs[0].name);
        var k := Kept(cs);
        DistinctCons(k);
        assert k[1..] == Kept(cs[1..]);
      }
    }
  }
}
