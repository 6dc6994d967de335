/**
 * The fetch handler's routing decision: leave the request to the browser,
 * serve it online-first (the entry document "/") or cache-first (every other
 * manifest key).
 */
module Router {
  import opened Urls
  import opened Caches

  datatype Route = PassThrough | OnlineFirst | CacheFirst

  /** The route the fetch handler takes for a request with this httpMethod and URL. */
  function Classify(httpMethod: string, url: string, origin: string, resources: Manifest): (r: Route)
    ensures r.PassThrough? <==> httpMethod != "GET" || FetchKey(url, origin) !in resources
    ensures r.OnlineFirst? <==> httpMethod == "GET" && FetchKey(url, origin) == "/" && "/" in resources
    ensures r.CacheFirst? <==> httpMethod == "GET" && FetchKey(url, origin) in resources - {"/"}
  {
    if httpMethod != "GET" then PassThrough
    else
      var key := FetchKey(url, origin);
      if key !in resources then PassThrough
      else if key == "/" then OnlineFirst
      else CacheFirst
  }

  /**
   * A GET for a manifest key, with or without a "?v=" suffix, is intercepted:
   * online-first for "/", cache-first for every other key.
   */
  lemma RouteOfManifestKey(origin: string, resources: Manifest, key: string, v: string)
    requires key in resources && PlainKey(key)
    ensures Classify("GET", RequestUrl(origin, key), origin, resources)
         == (if key == "/" then OnlineFirst else CacheFirst)
    ensures Classify("GET", RequestUrl(origin, key) + VersionQuery + v, origin, resources)
         == (if key == "/" then OnlineFirst else CacheFirst)
  {
    FetchKeyOfRequestUrl(origin, key, v);
  }

  /** A request for a key outside the manifest is never intercepted, with or without "?v=". */
  lemma UnknownKeyPassesThrough(httpMethod: string, origin: string, resources: Manifest, key: string, v: string)
    requires key !in resources && PlainKey(key)
    ensures Classify(httpMethod, RequestUrl(origin, key), origin, resources) == PassThrough
    ensures Classify(httpMethod, RequestUrl(origin, key) + VersionQuery + v, origin, resources) == PassThrough
  {
    FetchKeyOfRequestUrl(origin, key, v);
  }

  /**
   * The names every JavaScript object inherits from `Object.prototype`. Read
   * through `RESOURCES[key]`, each gives a function or an object, which is truthy.
   */
  const ObjectPrototypeMembers: set<string> := {
    "constructor", "hasOwnProperty", "isPrototypeOf", "propertyIsEnumerable",
    "toLocaleString", "toString", "valueOf", "__proto__",
    "__defineGetter__", "__defineSetter__", "__lookupGetter__", "__lookupSetter__"
  }

  /**
   * Whether `RESOURCES[key]` is truthy as JavaScript evaluates it: an own key
   * (whose fingerprint is never empty) or an inherited member.
   */
  predicate TruthyLookup(resources: Manifest, key: string)
  {
    key in resources || key in ObjectPrototypeMembers
  }

  /** The fetch handler's route as written, with its lookup going through the prototype chain. */
  function ClassifyAsWritten(httpMethod: string, url: string, origin: string, resources: Manifest): (r: Route)
    ensures r.PassThrough? <==> httpMethod != "GET" || !TruthyLookup(resources, FetchKey(url, origin))
  {
    if httpMethod != "GET" then PassThrough
    else
      var key := FetchKey(url, origin);
      if !TruthyLookup(resources, key) then PassThrough
      else if key == "/" then OnlineFirst
      else CacheFirst
  }

  /**
   * As written, a GET for `origin + "/constructor"` is served cache-first (and
   * its response cached when ok) although "constructor" is no manifest key;
   * the intended routing lets it through.
   */
  lemma PrototypeKeyInterceptedAsWritten(origin: string, resources: Manifest)
    requires "constructor" !in resources
    ensures ClassifyAsWritten("GET", origin + "/constructor", origin, resources) == CacheFirst
    ensures Classify("GET", origin + "/constructor", origin, resources) == PassThrough
  {
    var url := origin + "/constructor";
    assert url == RequestUrl(origin, "constructor");
    ConstructorIsPlainKey();
    FetchKeyOfRequestUrl(origin, "constructor", "");
    assert FetchKey(url, origin) == "constructor";
    assert TruthyLookup(resources, "constructor");
  }

  lemma ConstructorIsPlainKey()
    ensures PlainKey("constructor")
  {
    var key := "constructor";
    forall i | 0 <= i <= |key| ensures !OccursAt(key, VersionQuery, i) {
      if i + 3 <= |key| {
        assert key[i..i + 3][0] == key[i] != '?';
      }
    }
  }

  /** The two lookups route alike for every key that is not an inherited member. */
  lemma ClassifyAgreesOffPrototype(httpMethod: string, url: string, origin: string, resources: Manifest)
    requires FetchKey(url, origin) !in ObjectPrototypeMembers
    ensures ClassifyAsWritten(httpMethod, url, origin, resources) == Classify(httpMethod, url, origin, resources)
  {
  }
}
