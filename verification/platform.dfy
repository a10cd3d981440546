/**
 * The platform the service workers run on, reduced to values: responses, the network as an
 * oracle, Cache Storage as an ordered map from cache name to (URL -> response), and the two
 * lifecycle flags a worker can raise (skip-waiting and clients-claim).
 */
module Platform {

  datatype Option<T> = None | Some(value: T)

  type Url = string
  type CacheName = string

  /** An immutable response snapshot (bodies are plain strings; headers reduce to Content-Type). */
  datatype Response = Response(status: int, statusText: string, body: string, contentType: Option<string>)
  {
    /** `response.ok` of the Fetch Standard: the status is in the range 200 to 299. */
    predicate Ok()
    {
      200 <= status <= 299
    }

    /** A partial-content response (status 206), which `cache.put` and `cache.addAll` refuse to store. */
    predicate Partial()
    {
      status == 206
    }
  }

  /** The second argument of `new Response(body, init)`, with only the fields the workers set. */
  datatype ResponseInit = ResponseInit(status: Option<int>, statusText: Option<string>, contentType: Option<string>)

  /** The `Content-Type` the Fetch Standard gives a response whose body is a string and whose headers name none. */
  const TextPlain := "text/plain;charset=UTF-8"

  /**
   * `new Response(body, init)` with a string body, per the Response class of the Fetch Standard:
   * the status defaults to 200, the status text to the empty string, and the content type to
   * text/plain unless the headers give one.
   */
  function NewResponse(body: string, init: ResponseInit): (r: Response)
    ensures r.body == body
    ensures init.status.None? ==> r.status == 200 && r.Ok()
    ensures init.contentType.Some? ==> r.contentType == init.contentType
    ensures init.contentType.None? ==> r.contentType == Some(TextPlain)
  {
    Response(
      if init.status.Some? then init.status.value else 200,
      if init.statusText.Some? then init.statusText.value else "",
      body,
      if init.contentType.Some? then init.contentType else Some(TextPlain))
  }

  /** What `fetch` does: it resolves with a response, whatever its status, or rejects on a transport failure. */
  datatype NetResult = Delivered(response: Response) | TransportError

  /** The network, as an oracle from URL to outcome. */
  type Network = Url -> NetResult

  /** A fetch outcome the strategies write through to a cache: a delivered `ok` response. */
  predicate Storable(n: NetResult)
  {
    n.Delivered? && n.response.Ok()
  }

  datatype Mode = Navigate | SameOrigin | NoCors | Cors

  /** The fields of an intercepted request the workers look at (`verb` is `request.method`). */
  datatype Request = Request(verb: string, url: Url, mode: Mode)

  /**
   * What a handler's promise settles to: a response, `undefined` (the page then sees a network
   * error), or a rejection.
   */
  datatype Reply = Serve(response: Response) | Nothing | Rejected

  /** A fetch event is either left to the browser or answered with `respondWith`. */
  datatype FetchOutcome = PassThrough | RespondWith(reply: Reply)

  /** A relative path such as '/index.html', resolved against the worker's origin. */
  function Absolute(origin: string, path: string): Url
  {
    origin + path
  }

  function AbsoluteAll(origin: string, paths: seq<string>): (r: seq<Url>)
    ensures |r| == |paths|
    ensures forall i :: 0 <= i < |paths| ==> r[i] == Absolute(origin, paths[i])
  {
    seq(|paths|, i requires 0 <= i < |paths| => Absolute(origin, paths[i]))
  }

  type Entries = map<Url, Response>
  type Caches = map<CacheName, Entries>

  predicate Distinct(names: seq<CacheName>)
  {
    forall i, j :: 0 <= i < j < |names| ==> names[i] != names[j]
  }

  /** Cache `name` exists and holds an entry for `url`. */
  predicate Holds(caches: Caches, name: CacheName, url: Url)
  {
    name in caches && url in caches[name]
  }

  /**
   * `caches.match(url)`: the caches are searched in creation order and the first entry found is
   * the answer (section 5.5 of the W3C Service Workers specification).
   */
  function Lookup(names: seq<CacheName>, caches: Caches, url: Url): (r: Option<Response>)
    ensures r.Some? ==> exists n :: n in names && Holds(caches, n, url) && caches[n][url] == r.value
    ensures r.None? ==> forall n :: n in names ==> !Holds(caches, n, url)
  {
    if names == [] then None
    else if Holds(caches, names[0], url) then Some(caches[names[0]][url])
    else Lookup(names[1..], caches, url)
  }

  /** The answer of `Lookup` is the entry of the first cache, in creation order, that holds `url`. */
  lemma {:induction false} LookupFirstHit(names: seq<CacheName>, caches: Caches, url: Url, k: nat)
    requires k < |names| && Holds(caches, names[k], url)
    requires forall j :: 0 <= j < k ==> !Holds(caches, names[j], url)
    ensures Lookup(names, caches, url) == Some(caches[names[k]][url])
  {
    if k > 0 {
      assert !Holds(caches, names[0], url);
      LookupFirstHit(names[1..], caches, url, k - 1);
    }
  }

  /** `caches.open(name)`: an existing cache keeps its place; a new one goes last. */
  function Opened(names: seq<CacheName>, name: CacheName): (r: seq<CacheName>)
    ensures name in r
    ensures forall n :: n in r <==> n in names || n == name
    ensures |r| == if name in names then |names| else |names| + 1
    ensures r[..|names|] == names
    ensures Distinct(names) ==> Distinct(r)
  {
    if name in names then names else names + [name]
  }

  /** The entries of cache `name`; a cache `caches.open` has yet to create has none. */
  function EntriesOf(caches: Caches, name: CacheName): Entries
  {
    if name in caches then caches[name] else map[]
  }

  /**
   * `cache.put(url, resp)` on cache `name`, which `caches.open` creates empty when absent. A
   * partial-content response is refused (the put rejects) and the opened cache keeps its entries.
   */
  function PutEntry(caches: Caches, name: CacheName, url: Url, resp: Response): (r: Caches)
    ensures r.Keys == caches.Keys + {name}
    ensures !resp.Partial() ==> Holds(r, name, url) && r[name][url] == resp
    ensures resp.Partial() ==> r[name] == EntriesOf(caches, name)
    ensures forall u :: u != url ==> (u in r[name] <==> Holds(caches, name, u))
    ensures forall u :: u != url && Holds(caches, name, u) ==> r[name][u] == caches[name][u]
    ensures forall n :: n in caches && n != name ==> r[n] == caches[n]
  {
    var entries := EntriesOf(caches, name);
    caches[name := if resp.Partial() then entries else entries[url := resp]]
  }

  /**
   * Write-through followed by a lookup: when no other cache holds `url`, the next `caches.match`
   * returns the response just stored.
   */
  lemma LookupAfterPut(names: seq<CacheName>, caches: Caches, name: CacheName, url: Url, resp: Response)
    requires !resp.Partial()
    requires forall n :: n in names && n != name ==> !Holds(caches, n, url)
    ensures Lookup(Opened(names, name), PutEntry(caches, name, url, resp), url) == Some(resp)
  {
  }

  /**
   * Write-through does not refresh what `caches.match` returns when an older cache holds the URL:
   * the entry of the first cache in creation order still shadows the one just stored.
   */
  lemma ShadowedByEarlierCache(names: seq<CacheName>, caches: Caches, name: CacheName, url: Url, resp: Response, k: nat)
    requires k < |names| && names[k] != name && Holds(caches, names[k], url)
    requires forall j :: 0 <= j < k ==> !Holds(caches, names[j], url) && names[j] != name
    ensures Lookup(Opened(names, name), PutEntry(caches, name, url, resp), url) == Some(caches[names[k]][url])
  {
    var s := Opened(names, name);
    assert s[..|names|] == names;
    LookupFirstHit(s, PutEntry(caches, name, url, resp), url, k);
  }

  /** The cache names that survive deleting every cache whose name is outside `keep`, in their order. */
  function Retain(names: seq<CacheName>, keep: set<CacheName>): (r: seq<CacheName>)
    ensures forall n :: n in r <==> n in names && n in keep
    ensures |r| <= |names|
  {
    if names == [] then []
    else Retain(names[..|names| - 1], keep) + (if names[|names| - 1] in keep then [names[|names| - 1]] else [])
  }

  /** The caches that survive deleting every cache whose name is outside `keep`, with their entries. */
  function RetainEntries(caches: Caches, keep: set<CacheName>): (r: Caches)
    ensures r.Keys == caches.Keys * keep
    ensures forall n :: n in r ==> r[n] == caches[n]
  {
    map n | n in caches && n in keep :: caches[n]
  }

  lemma {:induction false} RetainAllKept(names: seq<CacheName>, keep: set<CacheName>)
    requires forall n :: n in names ==> n in keep
    ensures Retain(names, keep) == names
  {
    if names != [] {
      var init, last := names[..|names| - 1], names[|names| - 1];
      assert names == init + [last] && last in keep;
      RetainAllKept(init, keep);
    }
  }

  /** Deleting every cache outside the empty set leaves no cache names. */
  lemma {:induction false} RetainNothing(names: seq<CacheName>)
    ensures Retain(names, {}) == []
  {
    if names != [] {
      RetainNothing(names[..|names| - 1]);
    }
  }

  /** Deleting every cache outside `keep` a second time changes nothing. */
  lemma RetainIdempotent(names: seq<CacheName>, caches: Caches, keep: set<CacheName>)
    ensures Retain(Retain(names, keep), keep) == Retain(names, keep)
    ensures RetainEntries(RetainEntries(caches, keep), keep) == RetainEntries(caches, keep)
  {
    RetainAllKept(Retain(names, keep), keep);
  }

  /** `caches.delete(name)`: the entry leaves the ordered map; the others keep their order. */
  function Remove(names: seq<CacheName>, name: CacheName): (r: seq<CacheName>)
    ensures forall n :: n in r <==> n in names && n != name
  {
    if names == [] then []
    else if names[0] == name then Remove(names[1..], name)
    else [names[0]] + Remove(names[1..], name)
  }

  lemma {:induction false} RemoveKeepsDistinct(names: seq<CacheName>, name: CacheName)
    requires Distinct(names)
    ensures Distinct(Remove(names, name))
  {
    if names != [] {
      assert Distinct(names[1..]);
      RemoveKeepsDistinct(names[1..], name);
      var rest := Remove(names[1..], name);
      if names[0] != name {
        assert names[0] !in rest;
        assert ([names[0]] + rest)[1..] == rest;
      }
    }
  }

  /**
   * One step of the deletion loop: the names already visited are filtered, the rest untouched;
   * visiting the next name deletes it exactly when it is outside `keep`.
   */
  lemma RetainStep(keys: seq<CacheName>, i: nat, keep: set<CacheName>)
    requires Distinct(keys) && i < |keys|
    ensures keys[i] !in keep ==> Remove(Retain(keys[..i], keep) + keys[i..], keys[i]) == Retain(keys[..i + 1], keep) + keys[i + 1..]
    ensures keys[i] in keep ==> Retain(keys[..i], keep) + keys[i..] == Retain(keys[..i + 1], keep) + keys[i + 1..]
  {
    assert keys[..i + 1][..i] == keys[..i];
    assert keys[i..] == [keys[i]] + keys[i + 1..];
    assert Retain(keys[..i], keep) + keys[i..] == Retain(keys[..i], keep) + [keys[i]] + keys[i + 1..];
    if keys[i] !in keep {
      assert Retain(keys[..i + 1], keep) == Retain(keys[..i], keep);
      assert keys[i] !in keys[..i];
      assert keys[i] !in keys[i + 1..];
      RemoveAround(Retain(keys[..i], keep), keys[i], keys[i + 1..]);
    }
  }

  /** After the deletion loop, the caches left are exactly the kept ones, with their entries. */
  lemma {:induction false} RetainedCaches(keys: seq<CacheName>, keep: set<CacheName>, names: seq<CacheName>, caches: Caches, caches0: Caches)
    requires names == Retain(keys, keep)
    requires forall n :: n in caches <==> n in names
    requires forall n :: n in caches0 <==> n in keys
    requires forall n :: n in caches ==> n in caches0 && caches[n] == caches0[n]
    ensures caches == RetainEntries(caches0, keep)
  {
    assert caches.Keys == RetainEntries(caches0, keep).Keys;
  }

  lemma {:induction false} RemoveAbsent(names: seq<CacheName>, name: CacheName)
    requires name !in names
    ensures Remove(names, name) == names
  {
    if names != [] {
      RemoveAbsent(names[1..], name);
      assert names == [names[0]] + names[1..];
    }
  }

  /** Removing a name that occurs exactly once closes the gap it leaves. */
  lemma {:induction false} RemoveAround(a: seq<CacheName>, x: CacheName, b: seq<CacheName>)
    requires x !in a && x !in b
    ensures Remove(a + [x] + b, x) == a + b
  {
    if a == [] {
      assert ([x] + b)[1..] == b;
      RemoveAbsent(b, x);
    } else {
      var s := a + [x] + b;
      assert s[0] == a[0] && a[0] != x;
      assert s[1..] == a[1..] + [x] + b;
      assert Remove(s, x) == [a[0]] + Remove(s[1..], x);
      RemoveAround(a[1..], x, b);
      assert a + b == [a[0]] + (a[1..] + b);
    }
  }

  /** Cache Storage of one origin: the cache names in creation order, and each cache's entries. */
  class CacheStorage {
    var names: seq<CacheName>
    var caches: Caches

    ghost predicate Valid()
      reads this
    {
      Distinct(names) && forall n :: n in caches <==> n in names
    }

    constructor ()
      ensures Valid() && names == [] && caches == map[]
    {
      names := [];
      caches := map[];
    }

    /** `caches.match(url)`: in a valid store it misses exactly when no cache at all holds `url`. */
    function Match(url: Url): (r: Option<Response>)
      reads this
      ensures Valid() ==> (r.None? <==> forall n :: n in caches ==> url !in caches[n])
      ensures r.Some? ==> exists n :: n in caches && url in caches[n] && caches[n][url] == r.value
    {
      Lookup(names, caches, url)
    }

    /** `caches.open(name)`. */
    method Open(name: CacheName)
      requires Valid()
      modifies this
      ensures Valid()
      ensures names == Opened(old(names), name)
      ensures caches == if name in old(caches) then old(caches) else old(caches)[name := map[]]
    {
      if name !in caches {
        caches := caches[name := map[]];
      }
      names := Opened(names, name);
    }

    /** `cache.put(url, resp)` on the opened cache `name`; a partial-content response is refused. */
    method Put(name: CacheName, url: Url, resp: Response)
      requires Valid() && name in caches
      modifies this
      ensures Valid() && names == old(names)
      ensures caches == PutEntry(old(caches), name, url, resp)
    {
      if !resp.Partial() {
        caches := caches[name := caches[name][url := resp]];
      }
    }

    /** `caches.delete(name)`, which reports whether there was such a cache. */
    method Delete(name: CacheName) returns (found: bool)
      requires Valid()
      modifies this
      ensures Valid()
      ensures found <==> name in old(names)
      ensures names == Remove(old(names), name)
      ensures caches == old(caches) - {name}
    {
      found := name in names;
      RemoveKeepsDistinct(names, name);
      names := Remove(names, name);
      caches := caches - {name};
    }

    /**
     * `caches.keys()` followed by `caches.delete` of every name outside `keep`: the loop the
     * workers' activate handlers run.
     */
    method DeleteAllExcept(keep: set<CacheName>)
      requires Valid()
      modifies this
      ensures Valid()
      ensures names == Retain(old(names), keep)
      ensures caches == RetainEntries(old(caches), keep)
    {
      var keys := names;
      var i := 0;
      while i < |keys|
        invariant 0 <= i <= |keys|
        invariant Valid() && keys == old(names)
        invariant names == Retain(keys[..i], keep) + keys[i..]
        invariant forall n :: n in caches ==> n in old(caches) && caches[n] == old(caches)[n]
      {
        DeleteUnlessKept(keys, i, keep);
        i := i + 1;
      }
      assert keys[..i] == keys;
      RetainedCaches(keys, keep, names, caches, old(caches));
    }

    /** One pass of the deletion loop: the cache `keys[i]` is deleted when it is outside `keep`. */
    method DeleteUnlessKept(keys: seq<CacheName>, i: nat, keep: set<CacheName>)
      requires Valid() && Distinct(keys) && i < |keys|
      requires names == Retain(keys[..i], keep) + keys[i..]
      modifies this
      ensures Valid()
      ensures names == Retain(keys[..i + 1], keep) + keys[i + 1..]
      ensures forall n :: n in caches ==> n in old(caches) && caches[n] == old(caches)[n]
    {
      RetainStep(keys, i, keep);
      if keys[i] !in keep {
        var _ := Delete(keys[i]);
      }
    }

    /**
     * `cache.addAll(urls)` on the opened cache `name`: every URL is fetched, and the entries are
     * stored only when every response is `ok`, none is partial content and no URL is listed
     * twice, all or nothing (section 5.4 of the W3C Service Workers specification).
     */
    method AddAll(name: CacheName, urls: seq<Url>, net: Network) returns (ok: bool)
      requires Valid() && name in caches
      modifies this
      ensures Valid() && names == old(names)
      ensures ok <==> AddAllSucceeds(urls, net)
      ensures ok ==> caches == old(caches)[name := old(caches)[name] + Fetched(urls, net)]
      ensures !ok ==> caches == old(caches)
    {
      ok := AllFetchOk(urls, net);
      if ok {
        PutAll(name, urls, net);
      }
    }

    /** The storing half of `addAll`, reached once every response is known to be `ok`. */
    method PutAll(name: CacheName, urls: seq<Url>, net: Network)
      requires Valid() && name in caches && AllAddable(urls, net)
      modifies this
      ensures Valid() && names == old(names)
      ensures caches == old(caches)[name := old(caches)[name] + Fetched(urls, net)]
    {
      assert old(caches)[name] + Fetched([], net) == old(caches)[name];
      var i := 0;
      while i < |urls|
        invariant 0 <= i <= |urls|
        invariant Valid() && names == old(names)
        invariant AllAddable(urls[..i], net)
        invariant caches == old(caches)[name := old(caches)[name] + Fetched(urls[..i], net)]
      {
        assert urls[..i + 1] == urls[..i] + [urls[i]];
        PutAllStep(old(caches), caches, name, urls[..i], urls[i], net);
        Put(name, urls[i], net(urls[i]).response);
        i := i + 1;
      }
      assert urls[..i] == urls;
    }
  }

  /**
   * The checking half of `addAll`: whether every URL of the list fetches to a response it accepts
   * and no URL is listed twice (the batch of puts refuses a request it already holds).
   */
  method AllFetchOk(urls: seq<Url>, net: Network) returns (ok: bool)
    ensures ok <==> AddAllSucceeds(urls, net)
  {
    ok := true;
    var i := 0;
    while i < |urls|
      invariant 0 <= i <= |urls|
      invariant ok <==> AddAllSucceeds(urls[..i], net)
    {
      assert urls[..i + 1] == urls[..i] + [urls[i]];
      DistinctStep(urls, i);
      if !Addable(net(urls[i])) || urls[i] in urls[..i] {
        ok := false;
      }
      i := i + 1;
    }
    assert urls[..i] == urls;
  }

  /** One put of the storing loop of `addAll`, seen as a change of the whole store. */
  lemma PutAllStep(caches0: Caches, caches: Caches, name: CacheName, done: seq<Url>, u: Url, net: Network)
    requires name in caches0 && AllAddable(done + [u], net)
    requires AllAddable(done, net) && caches == caches0[name := caches0[name] + Fetched(done, net)]
    ensures PutEntry(caches, name, u, net(u).response) == caches0[name := caches0[name] + Fetched(done + [u], net)]
  {
    FetchedStep(caches0[name], done, u, net);
  }

  /** Storing one more fetched URL extends the entries `addAll` has stored so far. */
  lemma {:induction false} FetchedStep(base: Entries, done: seq<Url>, u: Url, net: Network)
    requires AllAddable(done + [u], net)
    ensures AllAddable(done, net)
    ensures (base + Fetched(done, net))[u := net(u).response] == base + Fetched(done + [u], net)
  {
    assert forall v :: v in done ==> v in done + [u];
    assert Fetched(done + [u], net) == Fetched(done, net)[u := net(u).response];
  }

  /** A fetch outcome `addAll` accepts: a delivered `ok` response that is not partial content. */
  predicate Addable(n: NetResult)
  {
    Storable(n) && !n.response.Partial()
  }

  /** `addAll` stores the list: every response is accepted and no URL is repeated. */
  predicate AddAllSucceeds(urls: seq<Url>, net: Network)
  {
    AllAddable(urls, net) && Distinct(urls)
  }

  /** A prefix one longer is duplicate-free exactly when the shorter one is and the new URL is fresh. */
  lemma DistinctStep(s: seq<string>, i: nat)
    requires i < |s|
    ensures Distinct(s[..i + 1]) <==> Distinct(s[..i]) && s[i] !in s[..i]
  {
    var t := s[..i + 1];
    assert t[..i] == s[..i] && t[i] == s[i];
    if Distinct(s[..i]) && s[i] !in s[..i] {
      forall a, b | 0 <= a < b < |t|
        ensures t[a] != t[b]
      {
        if b == i {
          assert t[a] == s[..i][a];
        } else {
          assert t[a] == s[..i][a] && t[b] == s[..i][b];
        }
      }
    }
    if Distinct(t) {
      forall a, b | 0 <= a < b < i
        ensures s[..i][a] != s[..i][b]
      {
        assert t[a] == s[..i][a] && t[b] == s[..i][b];
      }
    }
  }

  /** Every URL of the list fetches to a response `addAll` accepts. */
  predicate AllAddable(urls: seq<Url>, net: Network)
  {
    forall u :: u in urls ==> Addable(net(u))
  }

  /** The entries `addAll` stores: each URL with the response the network gave for it. */
  function Fetched(urls: seq<Url>, net: Network): (r: Entries)
    requires AllAddable(urls, net)
    ensures r.Keys == set u | u in urls
    ensures forall u :: u in r ==> r[u] == net(u).response && r[u].Ok() && !r[u].Partial()
  {
    map u | u in urls :: net(u).response
  }

  /** Putting into a cache that `caches.open` has just created is putting into a missing cache. */
  lemma PutAfterOpen(caches: Caches, name: CacheName, url: Url, resp: Response)
    ensures PutEntry(if name in caches then caches else caches[name := map[]], name, url, resp) == PutEntry(caches, name, url, resp)
  {
  }

  /**
   * Fetch `url` and, when the response is `ok`, open cache `into` and put a copy there: the
   * write-through step every strategy shares. The put completes before the result is observed.
   */
  method FetchThrough(cs: CacheStorage, url: Url, net: Network, into: CacheName) returns (n: NetResult)
    requires cs.Valid()
    modifies cs
    ensures cs.Valid() && n == net(url)
    ensures Storable(n) ==> cs.names == Opened(old(cs.names), into) && cs.caches == PutEntry(old(cs.caches), into, url, n.response)
    ensures !Storable(n) ==> cs.names == old(cs.names) && cs.caches == old(cs.caches)
  {
    n := net(url);
    if Storable(n) {
      PutAfterOpen(cs.caches, into, url, n.response);
      cs.Open(into);
      cs.Put(into, url, n.response);
    }
  }

  /**
   * The install step all three workers share: open cache `name`, `addAll` the URLs, and ask to
   * skip waiting only when that succeeded; a failure is caught, so install itself never fails.
   */
  method PrecacheAndSkipWaiting(cs: CacheStorage, scope: WorkerScope, name: CacheName, urls: seq<Url>, net: Network)
    requires cs.Valid()
    modifies cs, scope
    ensures cs.Valid()
    ensures cs.names == Opened(old(cs.names), name)
    ensures var before := EntriesOf(old(cs.caches), name);
            cs.caches == old(cs.caches)[name := if AddAllSucceeds(urls, net) then before + Fetched(urls, net) else before]
    ensures AddAllSucceeds(urls, net) ==> forall u :: u in urls ==> Holds(cs.caches, name, u)
    ensures scope.skipWaitingCalled == (old(scope.skipWaitingCalled) || AddAllSucceeds(urls, net))
    ensures scope.clientsClaimed == old(scope.clientsClaimed)
  {
    cs.Open(name);
    ghost var afterOpen := cs.caches;
    var ok := cs.AddAll(name, urls, net);
    PrecachedStore(old(cs.caches), afterOpen, cs.caches, name, urls, net);
    if ok {
      scope.SkipWaiting();
    }
  }

  /** Opening cache `name` and then `addAll` on it, seen as one change of the store. */
  lemma PrecachedStore(caches0: Caches, caches1: Caches, caches2: Caches, name: CacheName, urls: seq<Url>, net: Network)
    requires caches1 == if name in caches0 then caches0 else caches0[name := map[]]
    requires AddAllSucceeds(urls, net) ==> caches2 == caches1[name := caches1[name] + Fetched(urls, net)]
    requires !AddAllSucceeds(urls, net) ==> caches2 == caches1
    ensures var before := EntriesOf(caches0, name);
            caches2 == caches0[name := if AddAllSucceeds(urls, net) then before + Fetched(urls, net) else before]
    ensures AddAllSucceeds(urls, net) ==> forall u :: u in urls ==> Holds(caches2, name, u)
  {
  }

  /** The worker's own lifecycle requests, recorded as flags. */
  class WorkerScope {
    var skipWaitingCalled: bool
    var clientsClaimed: bool

    constructor ()
      ensures !skipWaitingCalled && !clientsClaimed
    {
      skipWaitingCalled := false;
      clientsClaimed := false;
    }

    /** `self.skipWaiting()`. */
    method SkipWaiting()
      modifies this
      ensures skipWaitingCalled && clientsClaimed == old(clientsClaimed)
    {
      skipWaitingCalled := true;
    }

    /** `self.clients.claim()`. */
    method ClaimClients()
      modifies this
      ensures clientsClaimed && skipWaitingCalled == old(skipWaitingCalled)
    {
      clientsClaimed := true;
    }
  }
}
