# Flutter service worker: cache reconciliation and serving

A Dafny model of the cache protocol in a Flutter-generated service worker
(`flutter_service_worker.js`). The worker keeps three browser caches:

- the content cache (`flutter-app-cache`), request URL to response;
- the staging cache (`flutter-temp-cache`), filled with the application shell on install;
- the manifest cache (`flutter-app-manifest`), which saves the resource manifest of the last successful activation.

The embedded manifest `RESOURCES` maps resource keys to content fingerprints. `CORE` lists the shell keys.
Both are parameters of the model, as is the origin the worker is served from.
Caches are finite maps. The network is a function from URL to a fetch outcome: a response of any status, or a rejection.
Nothing is assumed about that function.

Modules:

- `Urls` (urls.dfy): the two ways the worker turns a request URL into a resource key.
  The fetch handler strips the origin, cuts at the first `?v=` and maps root and hash-only URLs to `"/"`.
  Activation and prefetch only strip the origin and map `""` to `"/"`.
  The module also gives the URL a key is requested under.
- `Caches` (caches.dfy): responses, fetch outcomes, fingerprints, manifests, stores, and the all-or-nothing batch of `cache.addAll`.
- `Router` (router.dfy): the fetch handler's routing decision (pass through, online-first, cache-first), with the finding below.
- `Reconcile` (reconcile.dfy): install, activate and the offline prefetch as functions of the caches before the event, and the lifecycle lemmas.
- `Worker` (worker.dfy): class `ServiceWorker`.
  Its fields are the three caches.
  Its methods handle the events with the source's loops: they walk the content keys to evict, put the temp entries one by one, and build the prefetch list step by step.
  Each method is proved to produce exactly the state the `Reconcile` functions and the serving relations describe.

## Model

| member | source | states |
|---|---|---|
| `Urls.IndexOfFrom` | flutter_service_worker.js:232 | for a non-empty pattern, the result is -1 or an occurrence at or after `from`, and no occurrence lies between `from` and the result |
| `Urls.IndexOf` | flutter_service_worker.js:232 | -1 exactly when the pattern does not occur; otherwise the first occurrence |
| `Urls.CutVersionQuery` | flutter_service_worker.js:232-234 | the result is a prefix of the key that holds no `?v=`; a key without `?v=` is kept whole |
| `Urls.CutAppendedVersionQuery` | flutter_service_worker.js:232-234 | cutting `key + "?v=" + v` gives back `key` when `key` has no `?v=` of its own |
| `Urls.StripOrigin` | flutter_service_worker.js:230 | for a URL below `origin + "/"`, the result is exactly the rest of the URL |
| `Urls.FetchKey` | flutter_service_worker.js:229-237 | the fetch key is never empty and never contains `?v=`; it is `"/"` or a prefix of the URL with the origin stripped |
| `Urls.ActivationKey` | flutter_service_worker.js:190-194 | the activation key is never empty, and for a URL below `origin + "/"` (other than `origin + "//"`) the key's request URL is that URL again |
| `Urls.RequestUrl` | flutter_service_worker.js:159 | the URL a key is requested under lies below `origin + "/"` |
| `Urls.FetchKeyOfRequestUrl` | flutter_service_worker.js:229-237 | a request for a manifest key, with or without a `?v=` suffix, is looked up under that very key |
| `Urls.ActivationKeyOfRequestUrl` | flutter_service_worker.js:190-194 | the activation key of a key's request URL is that key |
| `Urls.ActivationKeyOfVersionedUrl` | flutter_service_worker.js:191-194 | for a URL with a `?v=` suffix, the activation key keeps the suffix and differs from the fetch key |
| `Urls.RootUrlsMapToEntryDocument` | flutter_service_worker.js:235-237 | the origin, `origin + "/"`, `origin + "/#..."` and `origin + "/?v=..."` all map to `"/"` |
| `Caches.FetchAll` | flutter_service_worker.js:158 | the batch exists exactly when every fetch is ok; it holds exactly the requested URLs, each with its network response |
| `Router.Classify` | flutter_service_worker.js:226-246 | pass-through exactly for non-GET or a key outside the manifest; online-first exactly for a GET with key `"/"`; cache-first exactly for a GET of any other manifest key |
| `Router.RouteOfManifestKey` | flutter_service_worker.js:229-246 | a GET of a manifest key's URL, with or without `?v=`, goes online-first for `"/"` and cache-first otherwise |
| `Router.UnknownKeyPassesThrough` | flutter_service_worker.js:238-242 | a request for a key outside the manifest is never intercepted, with or without `?v=` |
| `Router.ClassifyAsWritten` | flutter_service_worker.js:240-246 | routing with the lookup `RESOURCES[key]` going through `Object.prototype` (`TruthyLookup`: an own key, whose fingerprint is never empty, or one of the twelve inherited `Object.prototype` members): pass-through exactly when the request is not a GET or its key is neither an own key nor an inherited member |
| `Router.PrototypeKeyInterceptedAsWritten` | flutter_service_worker.js:240-242 | as written, a GET of `origin + "/constructor"` is served cache-first; the corrected routing lets it through |
| `Router.ClassifyAgreesOffPrototype` | flutter_service_worker.js:240 | both routings agree on every key that is not an inherited member |
| `Reconcile.RequestUrls` | flutter_service_worker.js:159 | one URL per key, in the same order; the URLs are exactly the keys' request URLs, and activation derives each non-empty key back from its URL |
| `Reconcile.Installed` | flutter_service_worker.js:154-161 | install succeeds exactly when every shell fetch is ok; temp then holds its old entries plus exactly the shell URLs, each with its network response |
| `Reconcile.Unchanged` | flutter_service_worker.js:198 | an entry is kept only when its key is in the current manifest; when the manifests are equal, exactly then |
| `Reconcile.Evict` | flutter_service_worker.js:190-201 | eviction only removes entries; survivors keep their response |
| `Reconcile.Activated` | flutter_service_worker.js:166-222 | temp ends empty; the saved manifest becomes the current one, or is deleted on a fault, which also empties the content cache; every temp entry ends in the content cache; any other content entry is a pre-existing one whose fingerprint is unchanged, and only when a manifest was saved |
| `Reconcile.RetainedIffFingerprintUnchanged` | flutter_service_worker.js:188-207 | with a saved manifest, an entry not restaged survives iff its key has the same fingerprint in both manifests, and survives unchanged |
| `Reconcile.SameManifestEvictsOnlyUnknownKeys` | flutter_service_worker.js:198-200 | when the manifests are equal, an entry is evicted iff its key is not in the manifest |
| `Reconcile.ReactivationIsStable` | flutter_service_worker.js:188-210 | a second activation with the same manifest and nothing restaged changes nothing, if every staged entry's key is a manifest key |
| `Reconcile.FaultForcesFullRebuild` | flutter_service_worker.js:214-220 | a fault deletes all three caches, so the next activation rebuilds the content cache from temp alone |
| `Reconcile.VersionedEntryEvicted` | flutter_service_worker.js:190-200 | an entry cached under a `?v=` URL is evicted at the next upgrade when no manifest key holds `?v=` |
| `Reconcile.FirstInstallThenActivate` | flutter_service_worker.js:154-186 | after a first install and activation, the content cache holds exactly the shell URLs with the fetched responses, and the manifest is saved |
| `Reconcile.UpgradeScenario` | flutter_service_worker.js:188-210 | an unchanged `a.js` keeps its cached bytes; a changed `shell.js` is evicted and comes back from temp |
| `Reconcile.CachedKeys` | flutter_service_worker.js:280-286 | the recorded keys are exactly the activation keys of the cached URLs |
| `Reconcile.MissingKeys` | flutter_service_worker.js:287-291 | a key is requested iff it is a manifest key that no cached URL derives to |
| `Reconcile.MissingKeysOfContent` | flutter_service_worker.js:279-291 | a key is requested iff it is in the manifest order and no URL in the content cache derives to it |
| `Reconcile.MissingKeysDistinct` | flutter_service_worker.js:287-291 | no key is requested twice |
| `Reconcile.MissingKeysInOrder` | flutter_service_worker.js:287-291 | the keys are requested in manifest-key order |
| `Reconcile.Prefetched` | flutter_service_worker.js:276-293 | the prefetch succeeds iff every missing key's fetch is ok; the cache then holds the old URLs plus exactly the missing keys' URLs, each with its network response, and (for non-empty keys) every old entry unchanged |
| `Reconcile.PrefetchCachesEveryKey` | flutter_service_worker.js:276-293 | after a successful prefetch every manifest key is cached, and every entry cached before is kept with its response |
| `Worker.ServedCacheFirst` | flutter_service_worker.js:247-260 | cache-first only adds, and at most the request URL; a rejected request leaves the cache as it was |
| `Worker.ServedOnlineFirst` | flutter_service_worker.js:296-314 | online-first only adds, and at most the request URL; a rejection reaches the caller only when nothing is cached and the cache is unchanged |
| `Worker.CacheFirstStoresOnlyOkResponses` | flutter_service_worker.js:247-260 | cache-first writes at most the request URL, only an ok response after a miss, and nothing on a hit |
| `Worker.OnlineFirstPrefersNetwork` | flutter_service_worker.js:296-314 | a fresh network response is served and cached even over a stale copy; offline, a cached copy is served; an error surfaces only with no copy |
| `Worker.PrefetchOfManifest` | flutter_service_worker.js:276-293 | over a manifest listed once per key, each uncached manifest key is requested once; on success every manifest key is cached and every old entry kept |
| `Worker.ServiceWorker.Install` | flutter_service_worker.js:154-162 | temp becomes `Installed` of the old temp, or stays as it was when install fails |
| `Worker.ServiceWorker.PutAll` | flutter_service_worker.js:177-180 | the content cache gains every entry of the source store, which overwrites |
| `Worker.ServiceWorker.EvictStale` | flutter_service_worker.js:190-201 | the content cache becomes `Evict` of the old one |
| `Worker.ServiceWorker.Activate` | flutter_service_worker.js:166-222 | the three caches become `Activated` of the old ones |
| `Worker.ServiceWorker.CacheFirst` | flutter_service_worker.js:247-260 | reply and content cache satisfy the cache-first relation |
| `Worker.ServiceWorker.OnlineFirst` | flutter_service_worker.js:296-314 | reply and content cache satisfy the online-first relation |
| `Worker.ServiceWorker.HandleFetch` | flutter_service_worker.js:225-261 | no reply and no cache change exactly on pass-through of the corrected routing; otherwise the route's serving relation holds |
| `Worker.ServiceWorker.MissingResources` | flutter_service_worker.js:276-291 | the list built equals `MissingKeys` of the manifest order and the cached keys |
| `Worker.ServiceWorker.DownloadOffline` | flutter_service_worker.js:276-293 | requests, once each and in manifest order, exactly the manifest keys no cached URL derives to; succeeds iff all those fetches are ok; the cache becomes `Prefetched` of the old one, after which every manifest key is cached and every old entry kept, or stays as it was |

## Behaviour of the code worth knowing

- The `?v=` cut is at the first `?v=` anywhere in the key, not only at a trailing query.
- Online-first stores whatever the network returns, with no `ok` check, so an error page for `"/"` is cached too.
- The offline prefetch compares manifest keys with the keys derived from cached URLs, not with the cached URLs themselves.
  An entry cached under a `?v=` URL therefore does not count as the key being present.
- Install adds the shell to whatever the temp cache already holds. It does not start from an empty temp cache.
- Stripping the origin drops `|origin| + 1` characters without comparing them with the origin.
  A cross-origin URL whose origin has the same length can therefore be looked up under a manifest key.
- `origin` in `downloadOffline` is the worker global scope's own `origin`, the same value as `self.location.origin`.
  The model passes it explicitly.

## Findings

| source | as written | input that shows it | evidently intended | confidence | as-written member | corrected member |
|---|---|---|---|---|---|---|
| flutter_service_worker.js:240-246 | `RESOURCES[key]` is a property read on a plain object, so inherited `Object.prototype` members such as `constructor` or `__proto__` read as truthy | a GET of `origin + "/constructor"` when the manifest has no key `constructor`: it is served cache-first and its response is cached when ok | only own manifest keys are intercepted, as the comment at lines 238-239 says | high, not executed | `Router.ClassifyAsWritten`, `Router.PrototypeKeyInterceptedAsWritten` | `Router.Classify`, `Router.UnknownKeyPassesThrough`, `Worker.ServiceWorker.HandleFetch` |

## Left out

- The contents of `RESOURCES` and `CORE` are build-generated data. They are parameters: `resources`, `resourceOrder` (the order `Object.keys` gives) and `core`.
  The worker's constructor takes `resourceOrder` to list every manifest key once, and no manifest key to be empty.
- `self.skipWaiting()`, `self.clients.claim()` and `console.error` have no effect on the caches.
- The `message` listener only dispatches to `skipWaiting` or to the offline prefetch, which is modelled.
  It does not await the prefetch, so a failed prefetch is not observed by anyone.
- `Request` and `Response` objects, `response.clone()`, the `{'cache': 'reload'}` option, `Vary` matching and fragment-insensitive matching in `cache.match` are left out.
  A cache is keyed by the request URL.
- Resolving a relative key to a URL assumes the worker is served from the site root and that keys are already in normal URL form (no `..`, no characters needing percent-encoding).
- The all-or-nothing behaviour of `cache.addAll` is that of the Cache API and is assumed, not derived.
  Its rejection of duplicate requests is not modelled; a duplicate is stored once.
- Saving the manifest as JSON and reading it back is the identity on the map.
  A saved manifest that fails to parse is one of the faults that trigger the catch block.
- A deleted cache and an empty one are the same value. `caches.open` after `caches.delete` yields an empty cache.
- Worker.ServiceWorker.Activate: which step of the try block throws is abstracted to one flag.
  The catch block deletes all three caches, so the final state is the same whichever step it was.
- Races between concurrent fetch events and an in-flight activation are left out. The code has no locking, and each event is modelled as running to completion.
- Worker.ServiceWorker.HandleFetch: routes with the corrected own-key lookup of `Router.Classify`, so it lets `origin + "/constructor"` through where the code intercepts it; the code's routing is `Router.ClassifyAsWritten`.
- Outside the fetch handler's routing, the prototype-chain lookup is not modelled.
  It also affects the eviction test at line 198 and the `currentContent[resourceKey]` test at line 288.
  There, lookups are by own key.
- JavaScript strings are UTF-16 code-unit sequences. The model uses Dafny `char` sequences, and no normalisation is applied.
