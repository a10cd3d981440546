/**
 * The full service worker (sw.js): a request classifier, four retrieval strategies over a
 * static and a dynamic cache, the install/activate lifecycle, periodic cleanup and the control
 * messages of the page.
 */
module FullWorker {
  import opened Text
  import opened Platform

  /** The version the worker reports to the page. */
  const Version := "appagus-v1.0.0"
  const StaticCache := "static-v1"
  const DynamicCache := "dynamic-v1"

  /** The files install puts in the static cache, as paths relative to the worker's origin. */
  const StaticFiles: seq<string> :=
    ["/", "/index.html", "/styles.css", "/app.js", "/manifest.json", "/LogoCaballo.jpg", "/icons/icon.svg"]

  /** The caches activate and cleanup keep. */
  const CurrentCaches: set<CacheName> := {StaticCache, DynamicCache}

  // ---------------------------------------------------------------------------------------------
  // Classification

  /** The URL contains one of the listed static files. */
  predicate ListedStatic(url: Url)
  {
    exists f | f in StaticFiles :: Contains(url, f)
  }

  /** The URL contains one of the recognised static extensions. */
  predicate HasStaticExtension(url: Url)
  {
    Contains(url, ".css") || Contains(url, ".js") || Contains(url, ".png") ||
    Contains(url, ".jpg") || Contains(url, ".svg") || Contains(url, ".ico")
  }

  /** `isStaticFile`: a listed file or a static extension; the list test amounts to "contains '/'". */
  predicate IsStaticFile(url: Url)
    ensures IsStaticFile(url) <==> Contains(url, "/") || HasStaticExtension(url)
  {
    ListedStaticIffSlash(url);
    ListedStatic(url) || HasStaticExtension(url)
  }

  /**
   * `isDynamicFile`: the URL mentions '/api/', 'data' or 'json'. A URL that passes the '/api/'
   * test contains '/', and so is already a static file.
   */
  predicate IsDynamicFile(url: Url)
    ensures IsDynamicFile(url) ==> Contains(url, "/") || Contains(url, "data") || Contains(url, "json")
  {
    ApiPathHasSlash(url);
    Contains(url, "/api/") || Contains(url, "data") || Contains(url, "json")
  }

  lemma ApiPathHasSlash(url: Url)
    ensures Contains(url, "/api/") ==> Contains(url, "/")
  {
    if Contains(url, "/api/") {
      assert "/api/"[0..1] == "/";
      ContainsAt("/api/", "/", 0);
      ContainsTrans(url, "/api/", "/");
    }
  }

  /**
   * Because '/' is itself a listed static file and every listed file contains '/', the list test
   * is exactly "the URL contains '/'".
   */
  lemma {:induction false} ListedStaticIffSlash(url: Url)
    ensures ListedStatic(url) <==> Contains(url, "/")
  {
    assert StaticFiles[0] == "/";
    if ListedStatic(url) {
      var f :| f in StaticFiles && Contains(url, f);
      assert f[0..1] == "/";
      ContainsAt(f, "/", 0);
      ContainsTrans(url, f, "/");
    }
  }

  /** The handler the fetch listener hands a request to. */
  datatype Route = Bypass | NavigationRoute | StaticRoute | DynamicRoute | DefaultRoute

  /** The fetch listener's priority chain. */
  function Classify(req: Request): (r: Route)
    ensures r == Bypass <==> req.verb != "GET"
    ensures r == NavigationRoute <==> req.verb == "GET" && req.mode == Navigate
    ensures r == StaticRoute <==> req.verb == "GET" && req.mode != Navigate && IsStaticFile(req.url)
    ensures r == DynamicRoute <==>
              req.verb == "GET" && req.mode != Navigate && !IsStaticFile(req.url) && IsDynamicFile(req.url)
    ensures r == DefaultRoute <==>
              req.verb == "GET" && req.mode != Navigate && !IsStaticFile(req.url) && !IsDynamicFile(req.url)
    ensures r == DynamicRoute || r == DefaultRoute ==> !Contains(req.url, "/")
    ensures r == DynamicRoute ==> Contains(req.url, "data") || Contains(req.url, "json")
  {
    if req.verb != "GET" then Bypass
    else if req.mode == Navigate then NavigationRoute
    else if IsStaticFile(req.url) then StaticRoute
    else if IsDynamicFile(req.url) then DynamicRoute
    else DefaultRoute
  }

  /** A URL that is both a static and a dynamic file goes to the static strategy. */
  lemma StaticBeforeDynamic(req: Request)
    requires req.verb == "GET" && req.mode != Navigate
    requires IsStaticFile(req.url) && IsDynamicFile(req.url)
    ensures Classify(req) == StaticRoute
  {
  }

  /**
   * Every http(s) URL contains '/', so a GET request for one is either a navigation or a static
   * file: the dynamic and default strategies are never chosen for it.
   */
  lemma HttpRequestsNeverDynamic(req: Request)
    requires req.verb == "GET"
    requires IsPrefix("http://", req.url) || IsPrefix("https://", req.url)
    ensures Classify(req) == NavigationRoute || Classify(req) == StaticRoute
  {
    // the second slash of the scheme separator
    var k := if IsPrefix("http://", req.url) then 5 else 6;
    assert req.url[..k + 2][k] == '/';
    assert req.url[k..k + 1] == [req.url[k]] == "/";
    ContainsAt(req.url, "/", k);
  }

  // ---------------------------------------------------------------------------------------------
  // The offline page

  /** The self-contained page shown when nothing else answers; its markup is not modelled. */
  const OfflineHtml := "<!DOCTYPE html><html lang=\"es\"><title>AppAgus - Sin Conexión</title></html>"

  /** `getOfflineResponse()`: an HTML page with no status given, so status 200. */
  function OfflineResponse(): (r: Response)
    ensures r.status == 200 && r.Ok()
    ensures r.contentType == Some("text/html")
    ensures r.body == OfflineHtml
  {
    NewResponse(OfflineHtml, ResponseInit(None, None, Some("text/html")))
  }

  // ---------------------------------------------------------------------------------------------
  // The strategies, as a decision table

  /**
   * The reply of each strategy, from what `caches.match` gave for the request (`hit`) and for
   * '/index.html' (`index`) before the request, and what the network did.
   */
  function StrategyReply(route: Route, hit: Option<Response>, index: Option<Response>, n: NetResult): (r: Reply)
    requires route != Bypass
    ensures r != Nothing
    ensures r == Rejected <==> route == StaticRoute && hit.None? && n.TransportError?
    ensures Consults(route, hit) && n.Delivered? ==> r == Serve(n.response)
    ensures !Consults(route, hit) ==> r == Serve(hit.value)
  {
    match route
    case StaticRoute =>
      // cache first; the catch looks the request up once more, in a store nothing has changed, and rethrows
      if hit.Some? then Serve(hit.value)
      else if n.Delivered? then Serve(n.response)
      else Rejected
    case NavigationRoute =>
      if n.Delivered? then Serve(n.response)
      else if hit.Some? then Serve(hit.value)
      else if index.Some? then Serve(index.value)
      else Serve(OfflineResponse())
    case DynamicRoute | DefaultRoute =>
      if n.Delivered? then Serve(n.response)
      else if hit.Some? then Serve(hit.value)
      else Serve(OfflineResponse())
  }

  /** The strategy asks the network: all but cache-first on a hit. */
  predicate Consults(route: Route, hit: Option<Response>)
  {
    route != Bypass && !(route == StaticRoute && hit.Some?)
  }

  /** The strategy writes the network's response through: it asked the network and got an `ok` response. */
  predicate WritesThrough(route: Route, hit: Option<Response>, n: NetResult)
  {
    Consults(route, hit) && Storable(n)
  }

  /** Cache-first writes to the static cache, the network-first strategies to the dynamic one. */
  function TargetCache(route: Route): CacheName
  {
    if route == StaticRoute then StaticCache else DynamicCache
  }

  /** The store after a request: written through, or unchanged. */
  ghost predicate StoreAfter(route: Route, hit: Option<Response>, n: NetResult, url: Url,
                             names0: seq<CacheName>, caches0: Caches, names1: seq<CacheName>, caches1: Caches)
  {
    if WritesThrough(route, hit, n) then
      names1 == Opened(names0, TargetCache(route)) && caches1 == PutEntry(caches0, TargetCache(route), url, n.response)
    else
      names1 == names0 && caches1 == caches0
  }

  /** A navigation never fails, whatever the network and the store hold. */
  lemma NavigationNeverRejects(hit: Option<Response>, index: Option<Response>, n: NetResult)
    ensures StrategyReply(NavigationRoute, hit, index, n).Serve?
    ensures n.TransportError? && hit.None? && index.None? ==> StrategyReply(NavigationRoute, hit, index, n) == Serve(OfflineResponse())
  {
  }

  /** Network-first answers whatever the network delivers, `ok` or not, and stores only `ok` responses. */
  lemma NetworkFirstPassesResponses(route: Route, hit: Option<Response>, index: Option<Response>, r: Response)
    requires route == NavigationRoute || route == DynamicRoute || route == DefaultRoute
    ensures StrategyReply(route, hit, index, Delivered(r)) == Serve(r)
    ensures WritesThrough(route, hit, Delivered(r)) <==> r.Ok()
    ensures TargetCache(route) == DynamicCache
  {
  }

  /** `handleDynamicFile` and `handleNetworkFirst` give the same reply and write the same cache. */
  lemma DynamicSameAsDefault(hit: Option<Response>, index: Option<Response>, n: NetResult)
    ensures StrategyReply(DynamicRoute, hit, index, n) == StrategyReply(DefaultRoute, hit, index, n)
    ensures WritesThrough(DynamicRoute, hit, n) == WritesThrough(DefaultRoute, hit, n)
    ensures TargetCache(DynamicRoute) == TargetCache(DefaultRoute)
  {
  }

  /**
   * A dynamic response stored while online answers the same request once offline, provided no
   * other cache holds that URL.
   */
  lemma {:induction false} OfflineReadBack(names: seq<CacheName>, caches: Caches, url: Url, index: Option<Response>, r: Response)
    requires r.Ok() && !r.Partial()
    requires forall c :: c in names && c != DynamicCache ==> !Holds(caches, c, url)
    ensures var names1 := Opened(names, DynamicCache);
            var caches1 := PutEntry(caches, DynamicCache, url, r);
            StrategyReply(DynamicRoute, Lookup(names1, caches1, url), index, TransportError) == Serve(r)
  {
    LookupAfterPut(names, caches, DynamicCache, url, r);
  }

  /**
   * A file that install stored in `static-v1` is, from then on, a cache hit: cache-first serves
   * it without asking the network.
   */
  lemma InstalledFileServedFromCache(names: seq<CacheName>, caches: Caches, url: Url, index: Option<Response>, n: NetResult)
    requires StaticCache in names && Holds(caches, StaticCache, url)
    ensures Lookup(names, caches, url).Some?
    ensures !Consults(StaticRoute, Lookup(names, caches, url))
    ensures StrategyReply(StaticRoute, Lookup(names, caches, url), index, n) == Serve(Lookup(names, caches, url).value)
    ensures (forall c :: c in names && c != StaticCache ==> !Holds(caches, c, url)) ==>
              StrategyReply(StaticRoute, Lookup(names, caches, url), index, n) == Serve(caches[StaticCache][url])
  {
  }

  // ---------------------------------------------------------------------------------------------
  // The handlers

  /** `handleStaticFile`: cache first, write-through to the static cache. */
  method HandleStaticFile(cs: CacheStorage, url: Url, net: Network) returns (reply: Reply, fetched: bool)
    requires cs.Valid()
    modifies cs
    ensures cs.Valid()
    ensures reply == StrategyReply(StaticRoute, old(cs.Match(url)), None, net(url))
    ensures fetched == Consults(StaticRoute, old(cs.Match(url)))
    ensures StoreAfter(StaticRoute, old(cs.Match(url)), net(url), url, old(cs.names), old(cs.caches), cs.names, cs.caches)
  {
    var hit := cs.Match(url);
    if hit.Some? {
      return Serve(hit.value), false;
    }
    fetched := true;
    var n := FetchThrough(cs, url, net, StaticCache);
    if n.Delivered? {
      reply := Serve(n.response);
    } else {
      reply := Rejected;
    }
  }

  /** `handleDynamicFile`: network first, write-through to the dynamic cache, then the cache, then the offline page. */
  method HandleDynamicFile(cs: CacheStorage, url: Url, net: Network) returns (reply: Reply)
    requires cs.Valid()
    modifies cs
    ensures cs.Valid()
    ensures reply == StrategyReply(DynamicRoute, old(cs.Match(url)), None, net(url))
    ensures StoreAfter(DynamicRoute, old(cs.Match(url)), net(url), url, old(cs.names), old(cs.caches), cs.names, cs.caches)
  {
    var n := FetchThrough(cs, url, net, DynamicCache);
    if n.Delivered? {
      reply := Serve(n.response);
    } else {
      var cached := cs.Match(url);
      if cached.Some? {
        reply := Serve(cached.value);
      } else {
        reply := Serve(OfflineResponse());
      }
    }
  }

  /** `handleNavigation`: network first, then the cached page, then the cached '/index.html', then the offline page. */
  method HandleNavigation(cs: CacheStorage, origin: string, url: Url, net: Network) returns (reply: Reply)
    requires cs.Valid()
    modifies cs
    ensures cs.Valid()
    ensures reply == StrategyReply(NavigationRoute, old(cs.Match(url)), old(cs.Match(Absolute(origin, "/index.html"))), net(url))
    ensures StoreAfter(NavigationRoute, old(cs.Match(url)), net(url), url, old(cs.names), old(cs.caches), cs.names, cs.caches)
  {
    var n := FetchThrough(cs, url, net, DynamicCache);
    if n.Delivered? {
      reply := Serve(n.response);
    } else {
      var cached := cs.Match(url);
      if cached.Some? {
        reply := Serve(cached.value);
      } else {
        var fallback := cs.Match(Absolute(origin, "/index.html"));
        if fallback.Some? {
          reply := Serve(fallback.value);
        } else {
          reply := Serve(OfflineResponse());
        }
      }
    }
  }

  /** `handleNetworkFirst`, the default strategy: the same steps as `handleDynamicFile`. */
  method HandleNetworkFirst(cs: CacheStorage, url: Url, net: Network) returns (reply: Reply)
    requires cs.Valid()
    modifies cs
    ensures cs.Valid()
    ensures reply == StrategyReply(DefaultRoute, old(cs.Match(url)), None, net(url))
    ensures StoreAfter(DefaultRoute, old(cs.Match(url)), net(url), url, old(cs.names), old(cs.caches), cs.names, cs.caches)
  {
    var n := FetchThrough(cs, url, net, DynamicCache);
    if n.Delivered? {
      reply := Serve(n.response);
    } else {
      var cached := cs.Match(url);
      if cached.Some? {
        reply := Serve(cached.value);
      } else {
        reply := Serve(OfflineResponse());
      }
    }
  }

  /** The fetch listener: classify once, then run the chosen strategy. */
  method OnFetch(cs: CacheStorage, origin: string, req: Request, net: Network) returns (outcome: FetchOutcome, fetched: bool)
    requires cs.Valid()
    modifies cs
    ensures cs.Valid()
    ensures var route := Classify(req);
            var hit := old(cs.Match(req.url));
            && outcome == (if route == Bypass then PassThrough
                           else RespondWith(StrategyReply(route, hit, old(cs.Match(Absolute(origin, "/index.html"))), net(req.url))))
            && fetched == Consults(route, hit)
            && StoreAfter(route, hit, net(req.url), req.url, old(cs.names), old(cs.caches), cs.names, cs.caches)
  {
    var reply: Reply;
    match Classify(req) {
      case Bypass =>
        return PassThrough, false;
      case NavigationRoute =>
        reply := HandleNavigation(cs, origin, req.url, net);
        fetched := true;
      case StaticRoute =>
        reply, fetched := HandleStaticFile(cs, req.url, net);
      case DynamicRoute =>
        reply := HandleDynamicFile(cs, req.url, net);
        fetched := true;
      case DefaultRoute =>
        reply := HandleNetworkFirst(cs, req.url, net);
        fetched := true;
    }
    outcome := RespondWith(reply);
  }

  // ---------------------------------------------------------------------------------------------
  // Lifecycle and messages

  /**
   * The install listener: open the static cache, `addAll` the static files, and ask to skip
   * waiting only when that succeeded; a failure is caught, so install itself never fails.
   */
  method Install(cs: CacheStorage, scope: WorkerScope, origin: string, net: Network)
    requires cs.Valid()
    modifies cs, scope
    ensures cs.Valid()
    ensures cs.names == Opened(old(cs.names), StaticCache)
    ensures var before := EntriesOf(old(cs.caches), StaticCache);
            var files := AbsoluteAll(origin, StaticFiles);
            cs.caches == old(cs.caches)[StaticCache := if AddAllSucceeds(files, net) then before + Fetched(files, net) else before]
    ensures AddAllSucceeds(AbsoluteAll(origin, StaticFiles), net) ==>
              forall f :: f in StaticFiles ==> Holds(cs.caches, StaticCache, Absolute(origin, f))
    ensures scope.skipWaitingCalled == (old(scope.skipWaitingCalled) || AddAllSucceeds(AbsoluteAll(origin, StaticFiles), net))
    ensures scope.clientsClaimed == old(scope.clientsClaimed)
  {
    PrecacheAndSkipWaiting(cs, scope, StaticCache, AbsoluteAll(origin, StaticFiles), net);
    ResolvedStaticFiles(origin);
  }

  /** Every listed static file, resolved against the origin, is among the URLs install fetches. */
  lemma ResolvedStaticFiles(origin: string)
    ensures forall f :: f in StaticFiles ==> Absolute(origin, f) in AbsoluteAll(origin, StaticFiles)
  {
    var files := AbsoluteAll(origin, StaticFiles);
    forall f | f in StaticFiles
      ensures Absolute(origin, f) in files
    {
      var i :| 0 <= i < |StaticFiles| && StaticFiles[i] == f;
      assert files[i] == Absolute(origin, f);
    }
  }

  /** The activate listener: delete every cache but the static and dynamic ones, then claim the clients. */
  method Activate(cs: CacheStorage, scope: WorkerScope)
    requires cs.Valid()
    modifies cs, scope
    ensures cs.Valid()
    ensures cs.names == Retain(old(cs.names), CurrentCaches)
    ensures cs.caches == RetainEntries(old(cs.caches), CurrentCaches)
    ensures forall n :: n in cs.names ==> n == StaticCache || n == DynamicCache
    ensures scope.clientsClaimed && scope.skipWaitingCalled == old(scope.skipWaitingCalled)
  {
    cs.DeleteAllExcept(CurrentCaches);
    scope.ClaimClients();
  }

  /** `cleanupOldCaches`: the same filter as activate, without claiming clients. */
  method CleanupOldCaches(cs: CacheStorage)
    requires cs.Valid()
    modifies cs
    ensures cs.Valid()
    ensures cs.names == Retain(old(cs.names), CurrentCaches)
    ensures cs.caches == RetainEntries(old(cs.caches), CurrentCaches)
    ensures forall n :: n in cs.names ==> n == StaticCache || n == DynamicCache
  {
    cs.DeleteAllExcept(CurrentCaches);
  }

  /**
   * The message listener. `kind` is `event.data.type`, or None when the message carries no data;
   * the answer is what is posted back on the message's first port.
   */
  method OnMessage(cs: CacheStorage, scope: WorkerScope, kind: Option<string>) returns (posted: Option<string>)
    requires cs.Valid()
    modifies cs, scope
    ensures cs.Valid()
    ensures scope.skipWaitingCalled == (old(scope.skipWaitingCalled) || kind == Some("SKIP_WAITING"))
    ensures scope.clientsClaimed == old(scope.clientsClaimed)
    ensures posted == if kind == Some("GET_VERSION") then Some(Version) else None
    ensures kind == Some("CLEAR_CACHE") ==> cs.names == [] && cs.caches == map[]
    ensures kind != Some("CLEAR_CACHE") ==> cs.names == old(cs.names) && cs.caches == old(cs.caches)
  {
    posted := None;
    if kind == Some("SKIP_WAITING") {
      scope.SkipWaiting();
    }
    if kind == Some("GET_VERSION") {
      posted := Some(Version);
    }
    if kind == Some("CLEAR_CACHE") {
      RetainNothing(cs.names);
      cs.DeleteAllExcept({});
    }
  }
}
