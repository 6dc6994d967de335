/**
 * Turning request URLs into resource keys.
 *
 * The worker derives a resource key (a path such as "main.dart.js", or the
 * distinguished key "/" for the entry document) from a request URL in two
 * different ways: the fetch handler strips the origin, cuts a "?v=" cache-busting
 * suffix and maps the site root and hash-only URLs to "/"; the activation and
 * offline-prefetch paths only strip the origin and map the empty key to "/".
 */
module Urls {

  /** The cache-busting query marker the fetch handler cuts at. */
  const VersionQuery: string := "?v="

  /** `s` begins with `p` (JavaScript `startsWith`). */
  predicate StartsWith(s: string, p: string) {
    |p| <= |s| && s[..|p|] == p
  }

  /** `pat` occurs in `s` starting at index `i`. */
  predicate OccursAt(s: string, pat: string, i: int) {
    0 <= i && i + |pat| <= |s| && s[i..i + |pat|] == pat
  }

  /** `pat` occurs somewhere in `s`. */
  predicate Contains(s: string, pat: string) {
    exists i :: 0 <= i <= |s| && OccursAt(s, pat, i)
  }

  /**
   * JavaScript `s.indexOf(pat, from)` for a non-empty pattern: the first
   * index at or after `from` where `pat` occurs, or -1 when there is none.
   */
  function IndexOfFrom(s: string, pat: string, from: nat): (r: int)
    requires pat != ""
    ensures r == -1 || (from <= r && OccursAt(s, pat, r))
    ensures forall j :: from <= j && (r == -1 || j < r) ==> !OccursAt(s, pat, j)
    decreases |s| - from
  {
    if from + |pat| > |s| then -1
    else if s[from..from + |pat|] == pat then from
    else IndexOfFrom(s, pat, from + 1)
  }

  /** JavaScript `s.indexOf(pat)` for a non-empty pattern. */
  function IndexOf(s: string, pat: string): (r: int)
    requires pat != ""
    ensures r == -1 <==> !Contains(s, pat)
    ensures r != -1 ==> OccursAt(s, pat, r) && forall j :: 0 <= j < r ==> !OccursAt(s, pat, j)
  {
    IndexOfFrom(s, pat, 0)
  }

  /** An occurrence in a prefix of `s` is an occurrence in `s` that ends inside the prefix. */
  lemma PrefixOccurrences(s: string, pat: string, n: nat)
    requires n <= |s|
    ensures forall i :: OccursAt(s[..n], pat, i) ==> OccursAt(s, pat, i) && i + |pat| <= n
  {
    forall i | OccursAt(s[..n], pat, i) ensures OccursAt(s, pat, i) && i + |pat| <= n {
      assert s[..n][i..i + |pat|] == s[i..i + |pat|];
    }
  }

  /**
   * JavaScript `url.substring(origin.length + 1)`: the URL without its first
   * `|origin| + 1` characters, or "" when it is not that long. The characters
   * dropped are not compared with the origin.
   */
  function StripOrigin(url: string, origin: string): (r: string)
    ensures StartsWith(url, origin + "/") ==> url == origin + "/" + r
  {
    if |origin| + 1 <= |url| then url[|origin| + 1..] else ""
  }

  /** JavaScript `key.split("?v=")[0]`: everything before the first "?v=". */
  function CutVersionQuery(key: string): (r: string)
    ensures StartsWith(key, r)
    ensures !Contains(r, VersionQuery)
    ensures !Contains(key, VersionQuery) ==> r == key
  {
    var i := IndexOf(key, VersionQuery);
    if i == -1 then key else PrefixOccurrences(key, VersionQuery, i); key[..i]
  }

  /** The resource key the fetch handler looks up for a request URL. */
  function FetchKey(url: string, origin: string): (r: string)
    ensures r != "" && !Contains(r, VersionQuery)
    ensures r == "/" || StartsWith(StripOrigin(url, origin), r)
  {
    var key := CutVersionQuery(StripOrigin(url, origin));
    if url == origin || StartsWith(url, origin + "/#") || key == "" then "/" else key
  }

  /** The resource key activation and offline prefetch derive from a cached request URL. */
  function ActivationKey(url: string, origin: string): (r: string)
    ensures r != ""
    ensures StartsWith(url, origin + "/") && url != origin + "//" ==> RequestUrl(origin, r) == url
  {
    var key := StripOrigin(url, origin);
    if key == "" then "/" else key
  }

  /**
   * The absolute URL a request for resource key `key` resolves to, for a
   * worker served from the root of `origin`: "/" is the root itself, any
   * other key is a path under it.
   */
  function RequestUrl(origin: string, key: string): (url: string)
    ensures StartsWith(url, origin + "/")
  {
    if key == "/" then origin + "/" else origin + "/" + key
  }

  /** A key as the build tool writes it into the manifest: non-empty, no "?v=", not a fragment. */
  predicate PlainKey(key: string) {
    key != "" && key[0] != '#' && !Contains(key, VersionQuery)
  }

  /** Cutting at the first "?v=" of `key + "?v=" + v` gives back a key that has no "?v=" of its own. */
  lemma CutAppendedVersionQuery(key: string, v: string)
    requires !Contains(key, VersionQuery)
    ensures CutVersionQuery(key + VersionQuery + v) == key
  {
    var s := key + VersionQuery + v;
    assert OccursAt(s, VersionQuery, |key|) by {
      assert s[|key|..|key| + 3] == VersionQuery;
    }
    forall j | 0 <= j < |key| ensures !OccursAt(s, VersionQuery, j) {
      if j + 3 <= |key| {
        assert s[j..j + 3] == key[j..j + 3];
        assert !OccursAt(key, VersionQuery, j);
      } else {
        assert s[|key|] == '?' && VersionQuery[|key| - j] != '?';
        assert j + 3 <= |s| ==> s[j..j + 3][|key| - j] == s[|key|];
      }
    }
    assert IndexOf(s, VersionQuery) == |key|;
    assert s[..|key|] == key;
  }

  /**
   * A request for a manifest key, with or without a "?v=" suffix, is looked up
   * by the fetch handler under that very key.
   */
  lemma FetchKeyOfRequestUrl(origin: string, key: string, v: string)
    requires PlainKey(key)
    ensures FetchKey(RequestUrl(origin, key), origin) == key
    ensures FetchKey(RequestUrl(origin, key) + VersionQuery + v, origin) == key
  {
    var url := RequestUrl(origin, key);
    var versioned := url + VersionQuery + v;
    if key == "/" {
      assert StripOrigin(url, origin) == "";
      assert StripOrigin(versioned, origin) == "" + VersionQuery + v;
      CutAppendedVersionQuery("", v);
    } else {
      assert StripOrigin(url, origin) == key;
      assert StripOrigin(versioned, origin) == key + VersionQuery + v;
      CutAppendedVersionQuery(key, v);
      assert url[|origin| + 1] == key[0] == versioned[|origin| + 1];
      assert (origin + "/#")[|origin| + 1] == '#';
    }
  }

  /** The activation key of the request URL of a key is that key. */
  lemma ActivationKeyOfRequestUrl(origin: string, key: string)
    requires key != ""
    ensures ActivationKey(RequestUrl(origin, key), origin) == key
  {
    if key != "/" {
      assert StripOrigin(RequestUrl(origin, key), origin) == key;
    }
  }

  /**
   * The activation key of a request URL carrying a "?v=" suffix keeps the
   * suffix, so it differs from the key the fetch handler used for that URL.
   */
  lemma ActivationKeyOfVersionedUrl(origin: string, key: string, v: string)
    requires PlainKey(key)
    ensures ActivationKey(RequestUrl(origin, key) + VersionQuery + v, origin)
         == (if key == "/" then "" else key) + VersionQuery + v
    ensures Contains(ActivationKey(RequestUrl(origin, key) + VersionQuery + v, origin), VersionQuery)
    ensures ActivationKey(RequestUrl(origin, key) + VersionQuery + v, origin)
         != FetchKey(RequestUrl(origin, key) + VersionQuery + v, origin)
  {
    var prefix := if key == "/" then "" else key;
    var url := RequestUrl(origin, key) + VersionQuery + v;
    assert StripOrigin(url, origin) == prefix + VersionQuery + v;
    assert OccursAt(prefix + VersionQuery + v, VersionQuery, |prefix|) by {
      assert (prefix + VersionQuery + v)[|prefix|..|prefix| + 3] == VersionQuery;
    }
    FetchKeyOfRequestUrl(origin, key, v);
  }

  /** The site root, the root with a trailing slash, and hash-only URLs all map to "/". */
  lemma RootUrlsMapToEntryDocument(origin: string, fragment: string, v: string)
    ensures FetchKey(origin, origin) == "/"
    ensures FetchKey(origin + "/", origin) == "/"
    ensures FetchKey(origin + "/#" + fragment, origin) == "/"
    ensures FetchKey(origin + "/" + VersionQuery + v, origin) == "/"
  {
    assert StripOrigin(origin + "/", origin) == "";
    assert StartsWith(origin + "/#" + fragment, origin + "/#") by {
      assert (origin + "/#" + fragment)[..|origin| + 2] == origin + "/#";
    }
    assert StripOrigin(origin + "/" + VersionQuery + v, origin) == "" + VersionQuery + v;
    CutAppendedVersionQuery("", v);
  }
}
