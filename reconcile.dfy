/**
 * What install, activate and the offline prefetch do to the caches, stated as
 * functions of the caches before the event. The worker's methods are proved
 * to compute exactly these; the lemmas here are what the lifecycle promises.
 */
module Reconcile {
  import opened Wrappers
  import opened Urls
  import opened Caches

  /** The worker's three caches: content, temp (the staged shell) and the saved manifest. */
  datatype CacheState = CacheState(content: Store, temp: Store, manifest: Option<Manifest>)

  /**
   * The absolute URLs requested for a list of resource keys, in the same
   * order; activation derives each non-empty key back from its URL.
   */
  function RequestUrls(origin: string, keys: seq<string>): (urls: seq<string>)
    ensures |urls| == |keys|
    ensures forall i :: 0 <= i < |keys| ==> urls[i] == RequestUrl(origin, keys[i])
    ensures forall i :: 0 <= i < |keys| && keys[i] != "" ==> ActivationKey(urls[i], origin) == keys[i]
    ensures (set u | u in urls) == set k | k in keys :: RequestUrl(origin, k)
  {
    var urls := seq(|keys|, i requires 0 <= i < |keys| => RequestUrl(origin, keys[i]));
    assert forall k :: k in keys ==> RequestUrl(origin, k) in urls by {
      forall k | k in keys ensures RequestUrl(origin, k) in urls {
        var i :| 0 <= i < |keys| && keys[i] == k;
        assert urls[i] == RequestUrl(origin, k);
      }
    }
    urls
  }

  // ---------------------------------------------------------------- install

  /**
   * The temp cache after install: `addAll` of the shell keys' URLs on top of
   * what temp already holds, or None when a shell fetch fails (install fails).
   */
  function Installed(temp: Store, origin: string, core: seq<string>, net: Network): (r: Option<Store>)
    ensures r.Some? <==> forall c :: c in core ==> FetchedOk(net(RequestUrl(origin, c)))
    ensures r.Some? ==> r.value.Keys == temp.Keys + set c | c in core :: RequestUrl(origin, c)
    ensures r.Some? ==> forall c :: c in core ==> net(RequestUrl(origin, c)) == Fetched(r.value[RequestUrl(origin, c)])
    ensures r.Some? ==> forall u :: u in temp && u !in (set c | c in core :: RequestUrl(origin, c)) ==> r.value[u] == temp[u]
  {
    var urls := RequestUrls(origin, core);
    match FetchAll(urls, net)
    case None => None
    case Some(batch) => Some(temp + batch)
  }

  // --------------------------------------------------------------- activate

  /**
   * Whether the eviction pass keeps the entry cached under `url`: its derived
   * key is in the current manifest with the fingerprint the saved manifest
   * gives it.
   */
  predicate Unchanged(url: string, origin: string, saved: Manifest, current: Manifest)
    ensures Unchanged(url, origin, saved, current) ==> ActivationKey(url, origin) in current
    ensures saved == current ==> (Unchanged(url, origin, saved, current) <==> ActivationKey(url, origin) in current)
  {
    var key := ActivationKey(url, origin);
    key in current && key in saved && current[key] == saved[key]
  }

  /** The content cache after the eviction pass: only entries whose fingerprint did not change stay. */
  function Evict(content: Store, origin: string, saved: Manifest, current: Manifest): (r: Store)
    ensures r.Keys <= content.Keys
    ensures forall u :: u in r ==> r[u] == content[u]
  {
    map u | u in content && Unchanged(u, origin, saved, current) :: content[u]
  }

  /**
   * The caches after activation. Without a saved manifest the content cache
   * is rebuilt from temp alone; with one, the eviction pass runs and the temp
   * entries are written over what survived. Either way temp is deleted and
   * the current manifest is saved. When any step throws (`fault`), all three
   * caches are deleted.
   */
  function Activated(s: CacheState, origin: string, current: Manifest, fault: bool): (r: CacheState)
    ensures r.temp == map[]
    ensures r.manifest == (if fault then None else Some(current))
    ensures fault ==> r.content == map[]
    ensures !fault ==> forall u :: u in s.temp ==> u in r.content && r.content[u] == s.temp[u]
    ensures !fault ==> forall u :: u in r.content ==>
              || u in s.temp
              || (&& s.manifest.Some?
                  && u in s.content
                  && Unchanged(u, origin, s.manifest.value, current)
                  && r.content[u] == s.content[u])
  {
    if fault then CacheState(map[], map[], None)
    else match s.manifest
      case None => CacheState(s.temp, map[], Some(current))
      case Some(saved) => CacheState(Evict(s.content, origin, saved, current) + s.temp, map[], Some(current))
  }

  /**
   * With a saved manifest, an entry that install did not restage stays after
   * activation exactly when its key's fingerprint is the same in both
   * manifests, and then it stays byte for byte.
   */
  lemma RetainedIffFingerprintUnchanged(s: CacheState, origin: string, current: Manifest, url: string)
    requires s.manifest.Some? && url in s.content && url !in s.temp
    ensures var r := Activated(s, origin, current, false);
            var key := ActivationKey(url, origin);
            && (url in r.content <==> key in current && key in s.manifest.value && current[key] == s.manifest.value[key])
            && (url in r.content ==> r.content[url] == s.content[url])
  {
  }

  /** When the manifest did not change, the eviction pass removes just the entries whose key left it. */
  lemma SameManifestEvictsOnlyUnknownKeys(content: Store, origin: string, current: Manifest, url: string)
    requires url in content
    ensures url in Evict(content, origin, current, current) <==> ActivationKey(url, origin) in current
  {
  }

  /**
   * Activating a second time with the same manifest and nothing restaged
   * changes nothing, provided every staged entry's key is a manifest key.
   */
  lemma {:induction false} ReactivationIsStable(s: CacheState, origin: string, current: Manifest)
    requires forall u :: u in s.temp ==> ActivationKey(u, origin) in current
    ensures var once := Activated(s, origin, current, false);
            Activated(once, origin, current, false) == once
  {
    var once := Activated(s, origin, current, false);
    forall u | u in once.content ensures Unchanged(u, origin, current, current) {
    }
    assert Evict(once.content, origin, current, current) == once.content;
    assert once.content + map[] == once.content;
  }

  /**
   * After an activation that threw, the saved manifest is gone, so the next
   * activation rebuilds the content cache from whatever install staged.
   */
  lemma FaultForcesFullRebuild(s: CacheState, origin: string, current: Manifest, staged: Store)
    ensures var wiped := Activated(s, origin, current, true);
            && wiped == CacheState(map[], map[], None)
            && Activated(wiped.(temp := staged), origin, current, false) == CacheState(staged, map[], Some(current))
  {
  }

  /**
   * A cache-first response stored under a URL with a "?v=" suffix is evicted
   * at the next upgrade: its derived key keeps the suffix, and no manifest
   * key has one.
   */
  lemma VersionedEntryEvicted(content: Store, origin: string, saved: Manifest, current: Manifest, key: string, v: string)
    requires forall k :: k in current ==> !Contains(k, VersionQuery)
    requires PlainKey(key)
    ensures RequestUrl(origin, key) + VersionQuery + v !in Evict(content, origin, saved, current)
  {
    ActivationKeyOfVersionedUrl(origin, key, v);
  }

  /**
   * A first install followed by activation leaves the content cache holding
   * exactly the shell URLs with the responses install fetched, and saves
   * the current manifest.
   */
  lemma FirstInstallThenActivate(content: Store, origin: string, current: Manifest, core: seq<string>, net: Network)
    requires Installed(map[], origin, core, net).Some?
    ensures var r := Activated(CacheState(content, Installed(map[], origin, core, net).value, None), origin, current, false);
            && r.content.Keys == (set c | c in core :: RequestUrl(origin, c))
            && (forall c :: c in core ==> net(RequestUrl(origin, c)) == Fetched(r.content[RequestUrl(origin, c)]))
            && r.temp == map[]
            && r.manifest == Some(current)
  {
  }

  /**
   * An upgrade in which "a.js" keeps its fingerprint, and so its cached
   * bytes, while "shell.js" changes, is evicted and comes back from temp.
   */
  lemma UpgradeScenario(origin: string, a: Response, shellOld: Response, shellNew: Response)
    ensures var v1: Manifest := map["a.js" := "h1", "shell.js" := "h2"];
            var v2: Manifest := map["a.js" := "h1", "shell.js" := "h3"];
            var aUrl := RequestUrl(origin, "a.js");
            var shellUrl := RequestUrl(origin, "shell.js");
            var before := CacheState(map[aUrl := a, shellUrl := shellOld], map[shellUrl := shellNew], Some(v1));
            Activated(before, origin, v2, false) == CacheState(map[aUrl := a, shellUrl := shellNew], map[], Some(v2))
  {
    var v1: Manifest := map["a.js" := "h1", "shell.js" := "h2"];
    var v2: Manifest := map["a.js" := "h1", "shell.js" := "h3"];
    var aUrl := RequestUrl(origin, "a.js");
    var shellUrl := RequestUrl(origin, "shell.js");
    ActivationKeyOfRequestUrl(origin, "a.js");
    ActivationKeyOfRequestUrl(origin, "shell.js");
    var content := map[aUrl := a, shellUrl := shellOld];
    assert Evict(content, origin, v1, v2) == map[aUrl := a];
  }

  // ------------------------------------------------------- offline prefetch

  /** The keys activation would derive from every URL in the content cache. */
  function CachedKeys(content: Store, origin: string): (keys: set<string>)
    ensures forall u :: u in content ==> ActivationKey(u, origin) in keys
    ensures forall k :: k in keys ==> exists u :: u in content && ActivationKey(u, origin) == k
  {
    set u | u in content :: ActivationKey(u, origin)
  }

  /** The manifest keys, in manifest order, that no cached URL derives to. */
  function MissingKeys(order: seq<string>, cached: set<string>): (r: seq<string>)
    ensures |r| <= |order|
    ensures forall k :: k in r <==> k in order && k !in cached
  {
    if order == [] then []
    else
      var last := order[|order| - 1];
      assert order == order[..|order| - 1] + [last];
      MissingKeys(order[..|order| - 1], cached) + if last in cached then [] else [last]
  }

  /** No key appears twice in `s`. */
  predicate Distinct(s: seq<string>) {
    forall i, j :: 0 <= i < j < |s| ==> s[i] != s[j]
  }

  /** `a` stands before `b` in `s`. */
  ghost predicate Precedes(s: seq<string>, a: string, b: string) {
    exists p, q :: 0 <= p < q < |s| && s[p] == a && s[q] == b
  }

  /** Each missing key is requested once, provided the manifest lists each key once. */
  lemma {:induction false} MissingKeysDistinct(order: seq<string>, cached: set<string>)
    requires Distinct(order)
    ensures Distinct(MissingKeys(order, cached))
  {
    if order != [] {
      var init := order[..|order| - 1];
      assert Distinct(init);
      MissingKeysDistinct(init, cached);
      assert order[|order| - 1] !in init;
    }
  }

  /** The missing keys are requested in manifest order. */
  lemma {:induction false} MissingKeysInOrder(order: seq<string>, cached: set<string>)
    ensures forall i, j :: 0 <= i < j < |MissingKeys(order, cached)| ==>
              Precedes(order, MissingKeys(order, cached)[i], MissingKeys(order, cached)[j])
  {
    if order != [] {
      var init := order[..|order| - 1];
      var last := order[|order| - 1];
      MissingKeysInOrder(init, cached);
      var front := MissingKeys(init, cached);
      var r := MissingKeys(order, cached);
      forall i, j | 0 <= i < j < |r| ensures Precedes(order, r[i], r[j]) {
        if j < |front| {
          assert r[i] == front[i] && r[j] == front[j];
          assert Precedes(init, front[i], front[j]);
          var p, q :| 0 <= p < q < |init| && init[p] == front[i] && init[q] == front[j];
          assert order[p] == r[i] && order[q] == r[j];
        } else {
          assert r[i] in init;
          var p :| 0 <= p < |init| && init[p] == r[i];
          assert order[p] == r[i] && order[|order| - 1] == r[j];
        }
      }
    }
  }

  /**
   * The content cache after the offline prefetch: `addAll` of the URLs of
   * every manifest key no cached entry derives to, or None when one of those
   * fetches fails (nothing is stored then).
   */
  function Prefetched(content: Store, origin: string, order: seq<string>, net: Network): (r: Option<Store>)
    ensures var missing := MissingKeys(order, CachedKeys(content, origin));
            r.Some? <==> forall k :: k in missing ==> FetchedOk(net(RequestUrl(origin, k)))
    ensures var missing := MissingKeys(order, CachedKeys(content, origin));
            r.Some? ==> r.value.Keys == content.Keys + set k | k in missing :: RequestUrl(origin, k)
    ensures var missing := MissingKeys(order, CachedKeys(content, origin));
            r.Some? ==> forall k :: k in missing ==> net(RequestUrl(origin, k)) == Fetched(r.value[RequestUrl(origin, k)])
    ensures r.Some? && (forall k :: k in order ==> k != "") ==>
              forall u :: u in content ==> r.value[u] == content[u]
  {
    var missing := MissingKeys(order, CachedKeys(content, origin));
    var urls := RequestUrls(origin, missing);
    match FetchAll(urls, net)
    case None => None
    case Some(batch) =>
      assert (forall k :: k in order ==> k != "") ==> forall u :: u in content ==> u !in batch;
      Some(content + batch)
  }

  /**
   * The prefetch requests a key exactly when it is a manifest key that no URL
   * in the content cache derives to.
   */
  lemma MissingKeysOfContent(order: seq<string>, content: Store, origin: string, k: string)
    ensures k in MissingKeys(order, CachedKeys(content, origin))
        <==> k in order && forall u :: u in content ==> ActivationKey(u, origin) != k
  {
    if k in order && k in CachedKeys(content, origin) {
      var u :| u in content && ActivationKey(u, origin) == k;
    }
  }

  /**
   * A prefetch that succeeds leaves every manifest key available offline:
   * some cached URL derives to it. Every entry already cached is kept as it was.
   */
  lemma PrefetchCachesEveryKey(content: Store, origin: string, order: seq<string>, net: Network)
    requires forall k :: k in order ==> k != ""
    requires Prefetched(content, origin, order, net).Some?
    ensures var after := Prefetched(content, origin, order, net).value;
            && (forall k :: k in order ==> k in CachedKeys(after, origin))
            && (forall u :: u in content ==> u in after && after[u] == content[u])
  {
    var cached := CachedKeys(content, origin);
    var missing := MissingKeys(order, cached);
    var urls := RequestUrls(origin, missing);
    var after := Prefetched(content, origin, order, net).value;
    forall k | k in order ensures k in CachedKeys(after, origin) {
      if k in cached {
        var u :| u in content && ActivationKey(u, origin) == k;
        assert u in after;
      } else {
        var i :| 0 <= i < |missing| && missing[i] == k;
        assert urls[i] == RequestUrl(origin, k);
        assert RequestUrl(origin, k) in after;
        ActivationKeyOfRequestUrl(origin, k);
      }
    }
  }
}
