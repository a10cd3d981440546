/**
 * The smallest service worker (sw-ultra-simple.js): one cache and cache-first for every GET
 * request, with '/index.html' or a 404 page when the network fails.
 */
module UltraSimpleWorker {
  import opened Platform

  const UltraCache := "appagus-ultra-simple-v1"

  /** The files install puts in the cache, as paths relative to the worker's origin. */
  const FilesToCache: seq<string> :=
    ["/", "/index.html", "/styles.css", "/app.js", "/manifest.json", "/LogoCaballo.jpg"]

  /** The message of the synthesised error page. */
  const NotFoundBody := "Error: No se pudo cargar el archivo"

  /** The page answered for a failed non-navigation request: a plain-text 404. */
  function NotFoundResponse(): (r: Response)
    ensures r.status == 404 && !r.Ok()
    ensures r.statusText == "Not Found"
    ensures r.body == NotFoundBody
    ensures r.contentType == Some(TextPlain)
  {
    NewResponse(NotFoundBody, ResponseInit(Some(404), Some("Not Found"), None))
  }

  /**
   * The install listener: open the cache, `addAll` the files, and ask to skip waiting only when
   * that succeeded; a failure is caught and install itself never fails.
   */
  method Install(cs: CacheStorage, scope: WorkerScope, origin: string, net: Network)
    requires cs.Valid()
    modifies cs, scope
    ensures cs.Valid()
    ensures cs.names == Opened(old(cs.names), UltraCache)
    ensures var before := EntriesOf(old(cs.caches), UltraCache);
            var files := AbsoluteAll(origin, FilesToCache);
            cs.caches == old(cs.caches)[UltraCache := if AddAllSucceeds(files, net) then before + Fetched(files, net) else before]
    ensures scope.skipWaitingCalled == (old(scope.skipWaitingCalled) || AddAllSucceeds(AbsoluteAll(origin, FilesToCache), net))
    ensures scope.clientsClaimed == old(scope.clientsClaimed)
  {
    PrecacheAndSkipWaiting(cs, scope, UltraCache, AbsoluteAll(origin, FilesToCache), net);
  }

  /** The activate listener: delete every cache but this worker's one, then claim the clients. */
  method Activate(cs: CacheStorage, scope: WorkerScope)
    requires cs.Valid()
    modifies cs, scope
    ensures cs.Valid()
    ensures cs.names == Retain(old(cs.names), {UltraCache})
    ensures cs.caches == RetainEntries(old(cs.caches), {UltraCache})
    ensures forall n :: n in cs.names ==> n == UltraCache
    ensures scope.clientsClaimed && scope.skipWaitingCalled == old(scope.skipWaitingCalled)
  {
    cs.DeleteAllExcept({UltraCache});
    scope.ClaimClients();
  }

  /**
   * The fetch listener: cache first for every GET request; on a miss the network's response is
   * answered and, when `ok`, put in the cache; on a transport failure a navigation gets the
   * cached '/index.html' (possibly nothing) and anything else the 404 page.
   */
  method OnFetch(cs: CacheStorage, origin: string, req: Request, net: Network) returns (outcome: FetchOutcome, fetched: bool)
    requires cs.Valid()
    modifies cs
    ensures cs.Valid()
    ensures req.verb != "GET" ==> outcome == PassThrough && !fetched
    ensures var hit := old(cs.Match(req.url));
            var index := old(cs.Match(Absolute(origin, "/index.html")));
            var n := net(req.url);
            req.verb == "GET" ==>
              && outcome == RespondWith(if hit.Some? then Serve(hit.value)
                                        else if n.Delivered? then Serve(n.response)
                                        else if req.mode == Navigate then (if index.Some? then Serve(index.value) else Nothing)
                                        else Serve(NotFoundResponse()))
              && fetched == hit.None?
    ensures if req.verb == "GET" && old(cs.Match(req.url)).None? && Storable(net(req.url))
            then cs.names == Opened(old(cs.names), UltraCache) && cs.caches == PutEntry(old(cs.caches), UltraCache, req.url, net(req.url).response)
            else cs.names == old(cs.names) && cs.caches == old(cs.caches)
  {
    if req.verb != "GET" {
      return PassThrough, false;
    }
    var hit := cs.Match(req.url);
    if hit.Some? {
      return RespondWith(Serve(hit.value)), false;
    }
    fetched := true;
    var n := FetchThrough(cs, req.url, net, UltraCache);
    if n.Delivered? {
      outcome := RespondWith(Serve(n.response));
    } else if req.mode == Navigate {
      var index := cs.Match(Absolute(origin, "/index.html"));
      if index.Some? {
        outcome := RespondWith(Serve(index.value));
      } else {
        outcome := RespondWith(Nothing);
      }
    } else {
      outcome := RespondWith(Serve(NotFoundResponse()));
    }
  }
}
