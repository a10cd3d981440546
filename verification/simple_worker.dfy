/**
 * The simplified service worker (sw-simple.js): one cache, cache-first for requests that match
 * an essential file, network-first without write-back for everything else.
 */
module SimpleWorker {
  import opened Text
  import opened Platform

  const SimpleCache := "appagus-simple-v1"

  /** The files install puts in the cache, as paths relative to the worker's origin. */
  const EssentialFiles: seq<string> :=
    ["/", "/index.html", "/styles.css", "/app.js", "/manifest.json", "/LogoCaballo.jpg"]

  /** The URL contains one of the essential files. */
  predicate ListedEssential(url: Url)
  {
    exists f | f in EssentialFiles :: Contains(url, f)
  }

  /** `ESSENTIAL_FILES.some(file => url.includes(file))`, which amounts to "the URL contains '/'". */
  predicate IsEssential(url: Url)
    ensures IsEssential(url) <==> Contains(url, "/")
  {
    EssentialIffSlash(url);
    ListedEssential(url)
  }

  /** '/' is listed and every listed file contains '/', so a URL is essential exactly when it contains '/'. */
  lemma {:induction false} EssentialIffSlash(url: Url)
    ensures ListedEssential(url) <==> Contains(url, "/")
  {
    assert EssentialFiles[0] == "/";
    if ListedEssential(url) {
      var f :| f in EssentialFiles && Contains(url, f);
      assert f[0..1] == "/";
      ContainsAt(f, "/", 0);
      ContainsTrans(url, f, "/");
    }
  }

  /**
   * The install listener: open the cache, `addAll` the essential files, and ask to skip waiting
   * only when that succeeded; a failure is caught and install itself never fails.
   */
  method Install(cs: CacheStorage, scope: WorkerScope, origin: string, net: Network)
    requires cs.Valid()
    modifies cs, scope
    ensures cs.Valid()
    ensures cs.names == Opened(old(cs.names), SimpleCache)
    ensures var before := EntriesOf(old(cs.caches), SimpleCache);
            var files := AbsoluteAll(origin, EssentialFiles);
            cs.caches == old(cs.caches)[SimpleCache := if AddAllSucceeds(files, net) then before + Fetched(files, net) else before]
    ensures scope.skipWaitingCalled == (old(scope.skipWaitingCalled) || AddAllSucceeds(AbsoluteAll(origin, EssentialFiles), net))
    ensures scope.clientsClaimed == old(scope.clientsClaimed)
  {
    PrecacheAndSkipWaiting(cs, scope, SimpleCache, AbsoluteAll(origin, EssentialFiles), net);
  }

  /** The activate listener: delete every cache but this worker's one, then claim the clients. */
  method Activate(cs: CacheStorage, scope: WorkerScope)
    requires cs.Valid()
    modifies cs, scope
    ensures cs.Valid()
    ensures cs.names == Retain(old(cs.names), {SimpleCache})
    ensures cs.caches == RetainEntries(old(cs.caches), {SimpleCache})
    ensures forall n :: n in cs.names ==> n == SimpleCache
    ensures scope.clientsClaimed && scope.skipWaitingCalled == old(scope.skipWaitingCalled)
  {
    cs.DeleteAllExcept({SimpleCache});
    scope.ClaimClients();
  }

  /**
   * The fetch listener. Essential requests: cache first, an `ok` network response is put in the
   * cache, a transport failure propagates. Other requests: the network's response as it is, and
   * on a transport failure whatever `caches.match` gives, possibly nothing; no write-back.
   */
  method OnFetch(cs: CacheStorage, req: Request, net: Network) returns (outcome: FetchOutcome, fetched: bool)
    requires cs.Valid()
    modifies cs
    ensures cs.Valid()
    ensures req.verb != "GET" ==> outcome == PassThrough && !fetched
    ensures var hit := old(cs.Match(req.url));
            var n := net(req.url);
            req.verb == "GET" && IsEssential(req.url) ==>
              && outcome == RespondWith(if hit.Some? then Serve(hit.value)
                                        else if n.Delivered? then Serve(n.response)
                                        else Rejected)
              && fetched == hit.None?
              && if hit.None? && Storable(n)
                 then cs.names == Opened(old(cs.names), SimpleCache) && cs.caches == PutEntry(old(cs.caches), SimpleCache, req.url, n.response)
                 else cs.names == old(cs.names) && cs.caches == old(cs.caches)
    ensures var hit := old(cs.Match(req.url));
            var n := net(req.url);
            req.verb == "GET" && !IsEssential(req.url) ==>
              && outcome == RespondWith(if n.Delivered? then Serve(n.response)
                                        else if hit.Some? then Serve(hit.value)
                                        else Nothing)
              && fetched
    ensures !(req.verb == "GET" && IsEssential(req.url)) ==> cs.names == old(cs.names) && cs.caches == old(cs.caches)
  {
    if req.verb != "GET" {
      return PassThrough, false;
    }
    if IsEssential(req.url) {
      var hit := cs.Match(req.url);
      if hit.Some? {
        return RespondWith(Serve(hit.value)), false;
      }
      fetched := true;
      var n := FetchThrough(cs, req.url, net, SimpleCache);
      if n.Delivered? {
        outcome := RespondWith(Serve(n.response));
      } else {
        outcome := RespondWith(Rejected);
      }
      return;
    }
    fetched := true;
    var n := net(req.url);
    if n.Delivered? {
      outcome := RespondWith(Serve(n.response));
    } else {
      var cached := cs.Match(req.url);
      if cached.Some? {
        outcome := RespondWith(Serve(cached.value));
      } else {
        outcome := RespondWith(Nothing);
      }
    }
  }

  /** The message listener; `kind` is `event.data.type`, or None when the message carries no data. */
  method OnMessage(scope: WorkerScope, kind: Option<string>)
    modifies scope
    ensures scope.skipWaitingCalled == (old(scope.skipWaitingCalled) || kind == Some("SKIP_WAITING"))
    ensures scope.clientsClaimed == old(scope.clientsClaimed)
  {
    if kind == Some("SKIP_WAITING") {
      scope.SkipWaiting();
    }
  }
}
