/**
 * The browser state the worker talks to: responses, the outcome of a network
 * fetch, and the named caches, each seen as a finite map.
 */
module Caches {
  import opened Wrappers

  /** A response as far as the worker looks at it: its `ok` flag and its content. */
  datatype Response = Response(ok: bool, body: string)

  /** What a `fetch` settles to: a response (of any status) or a rejection. */
  datatype FetchOutcome = Fetched(response: Response) | NetworkError(reason: string)

  /** The network during one event: what fetching each absolute URL gives. */
  type Network = string -> FetchOutcome

  /** A content hash from the manifest: 32 lower-case hex digits, so never empty. */
  type Fingerprint = s: string | s != "" witness "0"

  /** Resource key to content hash; both the embedded and the saved manifest. */
  type Manifest = map<string, Fingerprint>

  /** A cache: request URL to the stored response. A deleted cache reads as empty. */
  type Store = map<string, Response>

  /** The outcome `cache.addAll` accepts: a response with an ok status. */
  predicate FetchedOk(o: FetchOutcome) {
    o.Fetched? && o.response.ok
  }

  /**
   * The batch `cache.addAll(urls)` writes: every URL fetched, and all of them
   * stored together only when every fetch gave an ok response; otherwise
   * nothing is stored (None). This all-or-nothing behaviour is that of the
   * Cache API, taken here as given.
   */
  function FetchAll(urls: seq<string>, net: Network): (r: Option<Store>)
    ensures r.Some? <==> forall i :: 0 <= i < |urls| ==> FetchedOk(net(urls[i]))
    ensures r.Some? ==> r.value.Keys == set u | u in urls
    ensures r.Some? ==> forall u :: u in r.value ==> net(u) == Fetched(r.value[u])
  {
    if urls == [] then Some(map[])
    else if !FetchedOk(net(urls[0])) then None
    else match FetchAll(urls[1..], net)
      case None => None
      case Some(rest) => Some(rest[urls[0] := net(urls[0]).response])
  }
}
