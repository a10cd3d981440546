# AppAgus service workers in Dafny

AppAgus is an installable web application. Its service worker sits between the page and the network. For each GET request it chooses an answer: the local Cache Storage, the network, or a generated fallback page. It also keeps the caches in step with the worker's version. The repository has three variants of the worker, and this project models all three:

- `sw.js`, the full worker. A classifier sends each request down one of four routes: navigation, static file, dynamic file, or default. Static files are served cache-first and write through to `static-v1`. The other three routes are network-first and write through to `dynamic-v1`; when the network fails they fall back to the cache and then to an offline page. The worker also has an install handler, which pre-fills `static-v1`, and an activate handler and a `cleanupOldCaches` function, which both delete every other cache. Finally it answers three page messages: `SKIP_WAITING`, `GET_VERSION` and `CLEAR_CACHE`.
- `sw-simple.js`. It keeps one cache. A request whose URL contains an essential file is served cache-first; every other request is served network-first with a cache fallback and no write-back.
- `sw-ultra-simple.js`. It keeps one cache and serves every GET request cache-first. When the network fails, a navigation gets the cached `/index.html` and any other request gets a 404 page.

The project has five files:

- `text.dfy` (module `Text`) models JavaScript's `includes` as `Contains`. It proves that containment occurs at an offset and is transitive.
- `platform.dfy` (module `Platform`) models the platform. Responses are immutable values, and `response.ok` means a status from 200 to 299. `new Response` takes the Fetch Standard's defaults. The network is an oracle from URL to either a delivered response or a transport error. Cache Storage is a class `CacheStorage`: cache names in creation order plus a map from each cache to its entries. Its operations are `match`, `open`, `put` and `addAll` (both refuse a partial-content response, status 206), `delete` and the delete-all-but loop that every activate handler runs. The worker's `skipWaiting` and `clients.claim` requests are boolean flags on `WorkerScope`.
- `full_worker.dfy`, `simple_worker.dfy` and `ultra_simple_worker.dfy` model the three workers. Each handler is a module-level method that takes the `CacheStorage` object and changes it only through that object's methods. For `sw.js`, the handlers are proved against a decision table, `FullWorker.StrategyReply`, and the store effect `FullWorker.StoreAfter`. The lemmas in that file state what the table guarantees.

Derived fact: `'/'` is one of the listed static files (sw.js:8), and every listed file contains `'/'`. So `isStaticFile` holds for every URL that contains `'/'`. A GET request for an `http://` or `https://` URL therefore never reaches the dynamic or default strategy (`FullWorker.HttpRequestsNeverDynamic`). In `sw-simple.js`, for the same reason, the cache-first branch is taken exactly when the URL contains `'/'` (`SimpleWorker.EssentialIffSlash`).

Write-through does not always refresh what a later lookup returns. `caches.match` searches caches in creation order (section 5.5 of the W3C Service Workers specification). On a fresh store, install creates `static-v1` before any request creates `dynamic-v1`. Then a navigation's fresh copy of `/index.html` goes into `dynamic-v1`, but an offline lookup of that URL still finds the copy installed in `static-v1` (`Platform.ShadowedByEarlierCache`). The order is not fixed, though. After `CLEAR_CACHE` (sw.js:308-315), a navigation with an `ok` response can create `dynamic-v1` (sw.js:178) before a static miss (sw.js:128) or a later install creates `static-v1` again. From then on `dynamic-v1` is searched first, and the shadowing runs the other way.

Three behaviours of the code are easy to misread:

- In `sw.js`, a network-first request that is not a navigation gets the offline page when both the network and the cache fail. It does not propagate the failure (sw.js:167, sw.js:225).
- Install errors are caught (sw.js:36-38).
- Install opens the cache before `addAll`. A failed install therefore leaves that cache in place, with whatever it held before, and an empty cache when it is new.

## Model

| member | source | states |
|---|---|---|
| `Text.Contains` | sw.js:100-113 | `String.prototype.includes`: a string never includes a longer one |
| `Text.ContainsIffOccurs` | sw.js:100-113 | `s.includes(sub)` holds exactly when `sub` occurs in `s` at some offset |
| `Platform.NewResponse` | sw.js:293-295 | `new Response(body, init)`: when no status is given the status is 200 and the response is `ok`; a Content-Type in the headers is kept; with none, a string body gets `text/plain;charset=UTF-8` |
| `Platform.Lookup` | sw.js:119 | `caches.match`: a hit is an entry of one of the caches for that URL; a miss means no cache holds the URL |
| `Platform.CacheStorage.Match` | sw.js:119 | `caches.match` on the store: in a valid store it misses exactly when no cache holds the URL, and a hit is an entry of some cache for that URL |
| `Platform.LookupFirstHit` | sw.js:187 | the answer of `caches.match` is the entry of the first cache, in creation order, that holds the URL |
| `Platform.LookupAfterPut` | sw.js:152-153 | after opening a cache and putting a response that is not partial content under a URL that no other cache holds, a lookup of that URL returns exactly that response |
| `Platform.ShadowedByEarlierCache` | sw.js:176-194 | after a write-through, a lookup still returns the entry of an earlier cache that holds the URL, not the one just written |
| `Platform.Opened` | sw.js:128 | `caches.open` keeps every existing name in its place and appends the name when it is missing, so the names stay in creation order and distinct |
| `Platform.PutEntry` | sw.js:129 | `caches.open` then `cache.put`: the cache is created if needed, and the response is stored under the URL, unless it is partial content (status 206), which is refused; the cache's other entries and every other cache stay as they were |
| `Platform.Retain` | sw.js:393-395 | the names left by the filter are exactly the old names that are in the kept set |
| `Platform.RetainEntries` | sw.js:47-58 | the caches left are exactly the kept ones, each with its entries unchanged |
| `Platform.RetainIdempotent` | sw.js:390-399 | running the delete-all-but filter a second time changes neither the names nor the caches |
| `Platform.RetainNothing` | sw.js:310-313 | deleting every cache not in the empty set leaves no cache names |
| `Platform.Remove` | sw.js:54 | `caches.delete` removes exactly the named cache from the name list |
| `Platform.CacheStorage.Open` | sw.js:27 | opening a cache appends its name when it is new and creates it empty; the store invariant is kept |
| `Platform.CacheStorage.Put` | sw.js:129 | put on an opened cache has exactly the effect `PutEntry` describes (a partial-content response is refused), and the names are unchanged |
| `Platform.CacheStorage.Delete` | sw.js:54 | delete reports whether the cache existed and removes it from both the name list and the map |
| `Platform.CacheStorage.DeleteAllExcept` | sw.js:47-58 | the loop of `caches.delete` over `caches.keys()` leaves the kept names in their order, each with its old entries |
| `Platform.CacheStorage.AddAll` | sw.js:30 | `addAll` succeeds exactly when every URL fetches to an `ok` response that is not partial content (status 206) and no URL is listed twice, since the batch of puts refuses a request it already holds; on success it adds every URL with its response, and on failure it changes nothing |
| `Platform.CacheStorage.PutAll` | sw.js:30 | the storing half of `addAll` adds exactly the fetched entries to the named cache |
| `Platform.AllFetchOk` | sw.js:30 | the checking half of `addAll` returns true exactly when every URL fetches to an `ok` response that is not partial content and no URL is listed twice |
| `Platform.Fetched` | sw.js:30 | the entries `addAll` stores are keyed by exactly the listed URLs, and each holds that URL's `ok`, non-partial network response |
| `Platform.FetchThrough` | sw.js:126-131 | fetch returns the network's outcome; the target cache is opened and the response put there (`PutEntry`) only when it is `ok`, and otherwise the store is unchanged |
| `Platform.WorkerScope.SkipWaiting` | sw.js:34 | `self.skipWaiting()` raises the skip-waiting flag and leaves the claim flag unchanged |
| `Platform.WorkerScope.ClaimClients` | sw.js:61 | `self.clients.claim()` raises the claim flag and leaves the skip-waiting flag unchanged |
| `FullWorker.ListedStaticIffSlash` | sw.js:99-107 | a URL contains one of the listed static files exactly when it contains `'/'` |
| `FullWorker.Classify` | sw.js:72-95 | the priority chain: a request is bypassed exactly when it is not a GET; a GET takes the navigation route exactly when its mode is navigate; otherwise the static route exactly when `isStaticFile` holds, the dynamic route exactly when `isStaticFile` fails and `isDynamicFile` holds, and the default route exactly when both fail; the dynamic and default routes are reached only for URLs without `'/'`, and the dynamic route only for URLs containing `data` or `json` |
| `FullWorker.StaticBeforeDynamic` | sw.js:83-91 | a non-navigation GET for a URL that is both a static and a dynamic file goes to the static strategy |
| `FullWorker.IsStaticFile` | sw.js:99-107 | `isStaticFile` holds exactly when the URL contains `'/'` or one of the static extensions |
| `FullWorker.IsDynamicFile` | sw.js:110-114 | `isDynamicFile`: a URL that passes it contains `'/'`, `data` or `json`, because `'/api/'` contains `'/'` |
| `FullWorker.HttpRequestsNeverDynamic` | sw.js:83-95 | a GET request for an `http://` or `https://` URL is either a navigation or a static file |
| `FullWorker.OfflineResponse` | sw.js:230-296 | the offline page has status 200, is `ok`, has Content-Type `text/html` and the fixed HTML body; it takes no store argument |
| `FullWorker.StrategyReply` | sw.js:117-227 | the decision table of the four strategies: a reply is never `undefined`; it is a rejection exactly when cache-first misses and the network fails; when the strategy asks the network and it delivers, that response is served; cache-first on a hit serves the cached response |
| `FullWorker.NavigationNeverRejects` | sw.js:172-203 | a navigation is always answered with a response; when the network fails and neither the page nor `/index.html` is cached, the answer is the offline page |
| `FullWorker.NetworkFirstPassesResponses` | sw.js:146-156 | the network-first strategies return whatever the network delivers, `ok` or not, write it through exactly when it is `ok`, and always write to `dynamic-v1` |
| `FullWorker.DynamicSameAsDefault` | sw.js:206-227 | `handleDynamicFile` and `handleNetworkFirst` give the same reply, write through under the same condition and write to the same cache |
| `FullWorker.OfflineReadBack` | sw.js:157-164 | when no other cache holds the URL, a dynamic response stored while online (`ok`, not partial content) is the answer to the same request offline |
| `FullWorker.InstalledFileServedFromCache` | sw.js:119-123 | once install has stored a file in `static-v1`, a request for it is a cache hit: cache-first answers with the entry of the first cache in creation order that holds the URL, without asking the network; when no other cache holds it, that is the entry in `static-v1` |
| `FullWorker.HandleStaticFile` | sw.js:117-143 | on a hit the cached response is returned, the network is not asked and the store is unchanged; on a miss the network's response is returned and put in `static-v1` (`PutEntry`) only when `ok`; a transport failure on a miss rejects |
| `FullWorker.HandleDynamicFile` | sw.js:146-169 | the network's response is returned and put in `dynamic-v1` (`PutEntry`) only when `ok`; on a transport failure the cached match is returned if there is one, otherwise the offline page |
| `FullWorker.HandleNavigation` | sw.js:172-203 | the network's response is returned and put in `dynamic-v1` (`PutEntry`) only when `ok`; on a transport failure the answer is the cached page, then the cached `/index.html`, then the offline page |
| `FullWorker.HandleNetworkFirst` | sw.js:206-227 | has the same contract as `HandleDynamicFile` |
| `FullWorker.OnFetch` | sw.js:67-96 | non-GET requests pass through untouched with no fetch; every other request gets the reply, network use and store effect of the strategy its classification picks |
| `Platform.PrecacheAndSkipWaiting` | sw.js:26-38 | the install step the three workers share: the cache is opened, then `addAll` adds all the URLs or none; afterwards the cache holds its old entries plus, on success, every URL with its response; skip-waiting is requested exactly on success, and the claim flag is untouched |
| `FullWorker.Install` | sw.js:23-40 | install opens `static-v1` and adds all seven static files or none; skip-waiting is requested exactly when all were added; after a successful install every static file is in `static-v1`; install never fails |
| `FullWorker.Activate` | sw.js:43-64 | afterwards every cache name is `static-v1` or `dynamic-v1`, those two caches keep their entries, and the clients are claimed |
| `FullWorker.CleanupOldCaches` | sw.js:390-405 | applies the same filter as activate: afterwards every cache name is `static-v1` or `dynamic-v1`, those two caches keep their entries, and no clients are claimed |
| `FullWorker.OnMessage` | sw.js:299-317 | `SKIP_WAITING` requests skip-waiting; `GET_VERSION` posts `appagus-v1.0.0`; `CLEAR_CACHE` leaves no caches at all; any other message changes nothing |
| `SimpleWorker.IsEssential` | sw-simple.js:67 | the essential-file test holds exactly when the URL contains `'/'` |
| `SimpleWorker.EssentialIffSlash` | sw-simple.js:67 | a URL contains one of the essential files exactly when it contains `'/'` |
| `SimpleWorker.Install` | sw-simple.js:15-34 | install opens `appagus-simple-v1` and adds all six essential files or none; skip-waiting is requested exactly when all were added; install never fails |
| `SimpleWorker.Activate` | sw-simple.js:37-57 | afterwards the only possible cache name is `appagus-simple-v1`, and that cache keeps its entries; the clients are claimed; by `Platform.RetainIdempotent`, running it again changes nothing |
| `SimpleWorker.OnFetch` | sw-simple.js:60-100 | non-GET requests pass through. An essential request is served cache-first: a hit asks no network, an `ok` response on a miss is put in the cache (`PutEntry`), and a transport failure rejects. Any other request returns the network's response with no write-back; on a transport failure it returns the cached match, possibly nothing |
| `SimpleWorker.OnMessage` | sw-simple.js:103-107 | only `SKIP_WAITING` has an effect, and that effect is a skip-waiting request |
| `UltraSimpleWorker.NotFoundResponse` | sw-ultra-simple.js:100-103 | the error page has status 404, status text `Not Found`, the fixed message as its body and a plain-text content type, and it is not `ok` |
| `UltraSimpleWorker.Install` | sw-ultra-simple.js:17-34 | install opens `appagus-ultra-simple-v1` and adds all six files or none; skip-waiting is requested exactly when all were added; install never fails |
| `UltraSimpleWorker.Activate` | sw-ultra-simple.js:37-57 | afterwards the only possible cache name is `appagus-ultra-simple-v1`, and that cache keeps its entries; the clients are claimed; by `Platform.RetainIdempotent`, running it again changes nothing |
| `UltraSimpleWorker.OnFetch` | sw-ultra-simple.js:60-107 | non-GET requests pass through. For a GET request, a hit returns the cached response with no fetch and no store change. On a miss the network's response is returned and put in the cache (`PutEntry`) only when `ok`. On a transport failure a navigation gets the cached `/index.html`, possibly nothing, and any other request gets the 404 page |

## Left out

- The push, notificationclick and sync handlers and `doBackgroundSync` (sw.js:320-387) are left out. They only call platform notification and background-sync APIs and make no decision over the store.
- The 24-hour `setInterval` timer (sw.js:408) is left out. `cleanupOldCaches` is modelled as an operation that is invoked.
- Logging is left out.
- app.js is not part of this model. It is page-side UI glue: the install prompt, notifications and online/offline listeners.
- Real `fetch` and Cache API I/O are replaced by a network oracle (a function from URL to outcome) and an in-memory store. Cache keys are absolute URL strings. Relative paths (`'/index.html'`, the install lists) are resolved by prefixing the worker's origin. Query and fragment handling and `Vary` matching of `caches.match` are not modelled.
- The un-awaited `cache.put` calls (sw.js:129, sw.js:153, sw.js:179, sw.js:212, sw-simple.js:81-84, sw-ultra-simple.js:82-86) and interleaving between concurrent requests are not modelled. Each request is atomic, and its write completes before the answer is observed.
- `Platform.CacheStorage.AddAll`: a response whose `Vary` header is `*` is not refused, because headers other than Content-Type are not modelled.
- `Platform.AllFetchOk`: does not refuse a response whose `Vary` header is `*`, for the same reason.
- `Platform.PutEntry`: does not refuse a response whose `Vary` header is `*`, for the same reason. Such a put rejects in the browser and stores nothing.
- Errors raised by `caches.open`, `cache.put` or `caches.match` themselves, such as a storage quota being exceeded, are not modelled. Only transport failures of `fetch` are.
- `FullWorker.HandleStaticFile`: the catch block's second `caches.match` (sw.js:137-140) is not performed. In the atomic model nothing has changed the store since the miss that led to the fetch, so that lookup misses again and the error is rethrown.
- `skipWaiting` and `clients.claim` are recorded only as flags. The worker state machine they drive (installing, waiting, activating, active) belongs to the browser.
- Response bodies are strings that can be read any number of times, so `clone()` is the identity. Headers other than Content-Type are left out.
- The markup and CSS of the offline page are left out. Its body is a fixed placeholder string.
- `FullWorker.OnMessage`: posting `GET_VERSION`'s answer assumes the message carries a port. A message without one, which throws at sw.js:305, is not modelled.
