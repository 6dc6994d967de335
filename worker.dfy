/**
 * The service worker itself: its three caches as fields, and one method per
 * event it handles (install, activate, fetch, the offline prefetch), each
 * proved to leave the caches as the specification in Reconcile and the
 * serving relations below say.
 */
module Worker {
  import opened Wrappers
  import opened Urls
  import opened Caches
  import opened Router
  import opened Reconcile

  /** How the worker answers a request it intercepted. */
  datatype Reply = Respond(response: Response) | Reject(reason: string)

  /**
   * Cache-first: a cached response is served as it is; on a miss the network
   * answer is served, and stored under the request URL only when it is ok; a
   * rejected fetch is passed on and stores nothing.
   */
  predicate ServedCacheFirst(before: Store, url: string, net: Network, reply: Reply, after: Store)
    ensures ServedCacheFirst(before, url, net, reply, after) ==> before.Keys <= after.Keys <= before.Keys + {url}
    ensures ServedCacheFirst(before, url, net, reply, after) && reply.Reject? ==> after == before
  {
    if url in before then
      reply == Respond(before[url]) && after == before
    else match net(url)
      case Fetched(response) =>
        reply == Respond(response) && after == (if response.ok then before[url := response] else before)
      case NetworkError(reason) =>
        reply == Reject(reason) && after == before
  }

  /**
   * Online-first: whatever the network answers is stored under the request
   * URL and served, ok or not; when the fetch is rejected, a cached response
   * is served if there is one, else the rejection is passed on.
   */
  predicate ServedOnlineFirst(before: Store, url: string, net: Network, reply: Reply, after: Store)
    ensures ServedOnlineFirst(before, url, net, reply, after) ==> before.Keys <= after.Keys <= before.Keys + {url}
    ensures ServedOnlineFirst(before, url, net, reply, after) && reply.Reject? ==> after == before && url !in before
  {
    match net(url)
    case Fetched(response) =>
      reply == Respond(response) && after == before[url := response]
    case NetworkError(reason) =>
      after == before && reply == (if url in before then Respond(before[url]) else Reject(reason))
  }

  /**
   * Cache-first writes at most one entry, under the request URL, and only an
   * ok response from the network after a miss.
   */
  lemma CacheFirstStoresOnlyOkResponses(before: Store, url: string, net: Network, reply: Reply, after: Store)
    requires ServedCacheFirst(before, url, net, reply, after)
    ensures before.Keys <= after.Keys <= before.Keys + {url}
    ensures forall u :: u in after && u != url ==> after[u] == before[u]
    ensures url in after && url !in before ==> after[url].ok && net(url) == Fetched(after[url])
    ensures url in before ==> after == before && reply == Respond(before[url])
  {
  }

  /**
   * Online-first serves and caches the fresh network response even over a
   * stale cached one; offline, a cached copy is served without an error.
   */
  lemma OnlineFirstPrefersNetwork(before: Store, url: string, net: Network, reply: Reply, after: Store)
    requires ServedOnlineFirst(before, url, net, reply, after)
    ensures net(url).Fetched? ==> reply == Respond(net(url).response) && after[url] == net(url).response
    ensures net(url).NetworkError? && url in before ==> reply == Respond(before[url]) && after == before
    ensures reply.Reject? ==> url !in before && net(url) == NetworkError(reply.reason) && after == before
  {
  }

  /**
   * The offline prefetch over a manifest whose keys `order` lists once each:
   * it requests each manifest key no cached URL derives to, once, and when it
   * succeeds every manifest key is cached and every earlier entry is kept.
   */
  lemma PrefetchOfManifest(content: Store, origin: string, resources: Manifest, order: seq<string>, net: Network)
    requires Distinct(order) && (set k | k in order) == resources.Keys
    requires "" !in resources
    ensures var requested := MissingKeys(order, CachedKeys(content, origin));
            && Distinct(requested)
            && (forall k :: k in requested <==> k in resources && forall u :: u in content ==> ActivationKey(u, origin) != k)
            && (Prefetched(content, origin, order, net).Some? <==> forall k :: k in requested ==> FetchedOk(net(RequestUrl(origin, k))))
    ensures Prefetched(content, origin, order, net).Some? ==>
              var after := Prefetched(content, origin, order, net).value;
              && (forall k :: k in resources ==> k in CachedKeys(after, origin))
              && (forall u :: u in content ==> u in after && after[u] == content[u])
  {
    var requested := MissingKeys(order, CachedKeys(content, origin));
    MissingKeysDistinct(order, CachedKeys(content, origin));
    assert forall k :: k in order <==> k in resources by {
      forall k ensures k in order <==> k in resources {
        assert k in order <==> k in (set k | k in order);
      }
    }
    forall k ensures k in requested <==> k in resources && forall u :: u in content ==> ActivationKey(u, origin) != k {
      MissingKeysOfContent(order, content, origin, k);
    }
    if Prefetched(content, origin, order, net).Some? {
      PrefetchCachesEveryKey(content, origin, order, net);
    }
  }

  class ServiceWorker {
    /** The origin the worker is served from (`self.location.origin`). */
    const origin: string
    /** The embedded manifest, `RESOURCES`. */
    const resources: Manifest
    /** `Object.keys(RESOURCES)`: the manifest keys, each once, in the order the object lists them. */
    const resourceOrder: seq<string>
    /** The shell keys, `CORE`. */
    const core: seq<string>

    /** The content cache, `flutter-app-cache`. */
    var content: Store
    /** The staging cache, `flutter-temp-cache`. */
    var temp: Store
    /** The `manifest` entry of `flutter-app-manifest`, absent when that cache is missing or empty. */
    var manifest: Option<Manifest>

    /**
     * `resourceOrder` is `Object.keys(RESOURCES)`, so it lists every manifest
     * key once; the keys are paths or "/", never empty.
     */
    predicate Valid() {
      && Distinct(resourceOrder)
      && (set k | k in resourceOrder) == resources.Keys
      && "" !in resources
    }

    /** A worker version starting over the caches an earlier version left behind. */
    constructor (origin: string, resources: Manifest, resourceOrder: seq<string>, core: seq<string>,
                 content: Store, temp: Store, manifest: Option<Manifest>)
      requires Distinct(resourceOrder) && (set k | k in resourceOrder) == resources.Keys
      requires "" !in resources
      ensures Valid()
      ensures this.origin == origin && this.resources == resources
      ensures this.resourceOrder == resourceOrder && this.core == core
      ensures State() == CacheState(content, temp, manifest)
    {
      this.origin := origin;
      this.resources := resources;
      this.resourceOrder := resourceOrder;
      this.core := core;
      this.content := content;
      this.temp := temp;
      this.manifest := manifest;
    }

    /** The three caches as one value. */
    function State(): (s: CacheState)
      reads this
    {
      CacheState(content, temp, manifest)
    }

    /**
     * The install event: `addAll` of the shell URLs into temp. It fails, and
     * temp is left as it was, when any shell fetch is rejected or not ok.
     */
    method Install(net: Network) returns (ok: bool)
      modifies this`temp
      ensures ok <==> Installed(old(temp), origin, core, net).Some?
      ensures temp == if ok then Installed(old(temp), origin, core, net).value else old(temp)
    {
      var batch := FetchAll(RequestUrls(origin, core), net);
      ok := batch.Some?;
      if ok {
        temp := temp + batch.value;
      }
    }

    /** Puts every entry of `from` into the content cache, one at a time. */
    method PutAll(from: Store)
      modifies this`content
      ensures content == old(content) + from
    {
      var pending := from.Keys;
      while pending != {}
        invariant pending <= from.Keys
        invariant content == old(content) + map u | u in from.Keys - pending :: from[u]
        decreases pending
      {
        var u :| u in pending;
        content := content[u := from[u]];
        pending := pending - {u};
      }
      assert from.Keys - pending == from.Keys;
    }

    /**
     * The eviction pass: walks the content cache's keys and deletes every
     * entry whose derived key is missing from `resources` or whose
     * fingerprint differs from the one in `saved`.
     */
    method EvictStale(saved: Manifest)
      modifies this`content
      ensures content == Evict(old(content), origin, saved, resources)
    {
      var pending := content.Keys;
      while pending != {}
        invariant pending <= old(content).Keys
        invariant content == map u | u in old(content) && (u in pending || Unchanged(u, origin, saved, resources)) :: old(content)[u]
        decreases pending
      {
        var request :| request in pending;
        var key := ActivationKey(request, origin);
        if key !in resources || key !in saved || resources[key] != saved[key] {
          content := content - {request};
        }
        pending := pending - {request};
      }
    }

    /**
     * The activate event. `fault` says whether some awaited step of the try
     * block throws; the catch block then deletes all three caches, so the
     * outcome does not depend on which step it was.
     */
    method Activate(fault: bool)
      modifies this`content, this`temp, this`manifest
      ensures State() == Activated(old(State()), origin, resources, fault)
    {
      if fault {
        content, temp, manifest := map[], map[], None;
        return;
      }
      if manifest.None? {
        content := map[];
        PutAll(temp);
        temp := map[];
        manifest := Some(resources);
        return;
      }
      EvictStale(manifest.value);
      PutAll(temp);
      temp := map[];
      manifest := Some(resources);
    }

    /** Serves `url` cache-first from the content cache. */
    method CacheFirst(url: string, net: Network) returns (reply: Reply)
      modifies this`content
      ensures ServedCacheFirst(old(content), url, net, reply, content)
    {
      if url in content {
        return Respond(content[url]);
      }
      match net(url)
      case Fetched(response) =>
        if response.ok {
          content := content[url := response];
        }
        reply := Respond(response);
      case NetworkError(reason) =>
        reply := Reject(reason);
    }

    /** Serves `url` online-first, falling back to the content cache. */
    method OnlineFirst(url: string, net: Network) returns (reply: Reply)
      modifies this`content
      ensures ServedOnlineFirst(old(content), url, net, reply, content)
    {
      match net(url)
      case Fetched(response) =>
        content := content[url := response];
        reply := Respond(response);
      case NetworkError(reason) =>
        if url in content {
          reply := Respond(content[url]);
        } else {
          reply := Reject(reason);
        }
    }

    /**
     * The fetch event: None when the request is left to the browser (and the
     * caches are untouched), otherwise the worker's answer.
     */
    method HandleFetch(httpMethod: string, url: string, net: Network) returns (reply: Option<Reply>)
      modifies this`content
      ensures reply.None? <==> Classify(httpMethod, url, origin, resources).PassThrough?
      ensures reply.None? ==> content == old(content)
      ensures Classify(httpMethod, url, origin, resources).OnlineFirst? ==>
                reply.Some? && ServedOnlineFirst(old(content), url, net, reply.value, content)
      ensures Classify(httpMethod, url, origin, resources).CacheFirst? ==>
                reply.Some? && ServedCacheFirst(old(content), url, net, reply.value, content)
    {
      match Classify(httpMethod, url, origin, resources)
      case PassThrough =>
        reply := None;
      case OnlineFirst =>
        var r := OnlineFirst(url, net);
        reply := Some(r);
      case CacheFirst =>
        var r := CacheFirst(url, net);
        reply := Some(r);
    }

    /**
     * The keys the offline prefetch requests: those manifest keys, in
     * manifest order, that no cached URL derives to.
     */
    method MissingResources() returns (keys: seq<string>)
      ensures keys == MissingKeys(resourceOrder, CachedKeys(content, origin))
    {
      var currentContent: set<string> := {};
      var pending := content.Keys;
      while pending != {}
        invariant pending <= content.Keys
        invariant currentContent == set u | u in content.Keys - pending :: ActivationKey(u, origin)
        decreases pending
      {
        var request :| request in pending;
        currentContent := currentContent + {ActivationKey(request, origin)};
        pending := pending - {request};
      }
      assert content.Keys - pending == content.Keys;
      keys := [];
      for i := 0 to |resourceOrder|
        invariant keys == MissingKeys(resourceOrder[..i], currentContent)
      {
        assert resourceOrder[..i + 1][..i] == resourceOrder[..i];
        if resourceOrder[i] !in currentContent {
          keys := keys + [resourceOrder[i]];
        }
      }
      assert resourceOrder[..|resourceOrder|] == resourceOrder;
    }

    /**
     * The offline prefetch: `addAll` of the missing keys' URLs into the
     * content cache, all of them or none. `requested` is the list of keys
     * whose URLs it fetches.
     */
    method DownloadOffline(net: Network) returns (ok: bool, requested: seq<string>)
      requires Valid()
      modifies this`content
      ensures requested == MissingKeys(resourceOrder, CachedKeys(old(content), origin))
      ensures Distinct(requested)
      ensures forall k :: k in requested <==>
                k in resources && forall u :: u in old(content) ==> ActivationKey(u, origin) != k
      ensures ok <==> forall k :: k in requested ==> FetchedOk(net(RequestUrl(origin, k)))
      ensures content == if ok then Prefetched(old(content), origin, resourceOrder, net).value else old(content)
      ensures ok ==> forall k :: k in resources ==> k in CachedKeys(content, origin)
      ensures ok ==> forall u :: u in old(content) ==> u in content && content[u] == old(content)[u]
    {
      PrefetchOfManifest(content, origin, resources, resourceOrder, net);
      requested := MissingResources();
      var batch := FetchAll(RequestUrls(origin, requested), net);
      ok := batch.Some?;
      if ok {
        content := content + batch.value;
      }
    }
  }
}
