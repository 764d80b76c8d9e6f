/** The host platform's cache storage as the service worker sees it: named
    cache generations, each mapping a request URL to a stored response.
    The pure functions give the meaning of each operation on a value of the
    whole store; the class CacheStorage holds that value and updates it in
    place, as the platform's `caches` object does. */
module CacheStore {

  /** A JavaScript value that may be `undefined`. */
  datatype Option<T> = None | Some(value: T)

  type Url = string

  /** A response, opaque apart from its HTTP status code. */
  datatype Response = Response(status: int, body: string)

  /** One cache generation: request URL to stored response. */
  type Generation = map<Url, Response>

  /** Every generation of the origin, by name. */
  type Store = map<string, Generation>

  /** What `cache.match(url)` resolves to on the generation `name`. */
  function Lookup(s: Store, name: string, url: Url): Option<Response>
  {
    if name in s && url in s[name] then Some(s[name][url]) else None
  }

  /** Every generation other than `name` is present in `t` exactly when it
      is in `s`, with the same entries. */
  ghost predicate OthersUnchanged(s: Store, t: Store, name: string)
  {
    forall n :: n != name ==> (n in s <==> n in t) && (n in s ==> s[n] == t[n])
  }

  /** `caches.open(name)`: the store after opening `name`, which creates an
      empty generation when there is none. */
  function Opened(s: Store, name: string): (t: Store)
    ensures t.Keys == s.Keys + {name}
    ensures forall n :: n in s ==> t[n] == s[n]
    ensures name !in s ==> t[name] == map[]
  {
    if name in s then s else s[name := map[]]
  }

  /** `cache.put(url, resp)` on the generation `name`: that one entry now
      holds `resp`; no other lookup changes. */
  function Stored(s: Store, name: string, url: Url, resp: Response): (t: Store)
    requires name in s
    ensures t.Keys == s.Keys
    ensures Lookup(t, name, url) == Some(resp)
    ensures forall n, u :: (n != name || u != url) ==> Lookup(t, n, u) == Lookup(s, n, u)
  {
    s[name := s[name][url := resp]]
  }

  /** The batch put at the end of `cache.addAll`: every entry of `batch`
      replaces the stored one, every other entry stays. */
  function StoredAll(s: Store, name: string, batch: Generation): (t: Store)
    requires name in s
    ensures t.Keys == s.Keys
    ensures forall u :: u in batch ==> Lookup(t, name, u) == Some(batch[u])
    ensures forall u :: u !in batch ==> Lookup(t, name, u) == Lookup(s, name, u)
    ensures OthersUnchanged(s, t, name)
  {
    s[name := s[name] + batch]
  }

  /** `caches.delete(name)`: the generation is gone, the others stay. */
  function Deleted(s: Store, name: string): (t: Store)
    ensures t.Keys == s.Keys - {name}
    ensures forall n :: n in t ==> t[n] == s[n]
  {
    s - {name}
  }

  /** A response `cache.addAll` accepts: an ok status (200 to 299) other
      than 206 Partial Content. */
  predicate AddAllAccepts(resp: Response)
  {
    200 <= resp.status <= 299 && resp.status != 206
  }

  /** Every URL of `urls` was fetched (it has a response in `network`) and
      the response is one `cache.addAll` accepts. */
  predicate AllFetched(urls: seq<Url>, network: map<Url, Response>)
  {
    forall i :: 0 <= i < |urls| ==> urls[i] in network && AddAllAccepts(network[urls[i]])
  }

  /** The fetch phase of `cache.addAll(urls)`: the batch of responses to
      store, or None when any one fetch fails. `network` holds the response
      the network gives for each URL; a URL missing from it is a network
      error. */
  function FetchAll(urls: seq<Url>, network: map<Url, Response>): (r: Option<Generation>)
    ensures r.Some? <==> AllFetched(urls, network)
    ensures r.Some? ==> forall u :: u in r.value <==> u in urls
    ensures r.Some? ==> forall u :: u in r.value ==> u in network && r.value[u] == network[u]
  {
    if urls == [] then Some(map[])
    else if urls[0] !in network || !AddAllAccepts(network[urls[0]]) then None
    else
      match FetchAll(urls[1..], network)
      case None => None
      case Some(rest) => Some(rest[urls[0] := network[urls[0]]])
  }

  /** The store after `cache.addAll(urls)` on the opened generation `name`,
      or None when it fails; then nothing is stored. */
  function AddedAll(s: Store, name: string, urls: seq<Url>, network: map<Url, Response>): (r: Option<Store>)
    requires name in s
    ensures r.Some? <==> AllFetched(urls, network)
    ensures r.Some? ==> r.value.Keys == s.Keys && OthersUnchanged(s, r.value, name)
    ensures r.Some? ==> forall i :: 0 <= i < |urls| ==>
      Lookup(r.value, name, urls[i]) == Some(network[urls[i]])
    ensures r.Some? ==> forall u :: u !in urls ==> Lookup(r.value, name, u) == Lookup(s, name, u)
  {
    match FetchAll(urls, network)
    case None => None
    case Some(batch) => Some(StoredAll(s, name, batch))
  }

  /** The platform's `caches` object. */
  class CacheStorage {
    var generations: Store

    constructor ()
      ensures generations == map[]
    {
      generations := map[];
    }

    /** `caches.open(name)`. */
    method Open(name: string)
      modifies this
      ensures generations == Opened(old(generations), name)
    {
      if name !in generations {
        generations := generations[name := map[]];
      }
    }

    /** `cache.match(url)` on the opened generation `name`. */
    method Match(name: string, url: Url) returns (r: Option<Response>)
      requires name in generations
      ensures r.Some? <==> url in generations[name]
      ensures r.Some? ==> r.value == generations[name][url]
    {
      if url in generations[name] {
        r := Some(generations[name][url]);
      } else {
        r := None;
      }
    }

    /** `cache.put(url, resp)` on the opened generation `name`. */
    method Put(name: string, url: Url, resp: Response)
      requires name in generations
      modifies this
      ensures generations == Stored(old(generations), name, url, resp)
    {
      generations := generations[name := generations[name][url := resp]];
    }

    /** `cache.addAll(urls)` on the opened generation `name`: all or
        nothing. When every fetch succeeds, all responses are stored and the
        call succeeds; otherwise nothing is stored and it fails. */
    method AddAll(name: string, urls: seq<Url>, network: map<Url, Response>) returns (ok: bool)
      requires name in generations
      modifies this
      ensures ok <==> AllFetched(urls, network)
      ensures ok ==> generations == AddedAll(old(generations), name, urls, network).value
      ensures !ok ==> generations == old(generations)
    {
      var batch := FetchAll(urls, network);
      if batch.Some? {
        generations := generations[name := generations[name] + batch.value];
        ok := true;
      } else {
        ok := false;
      }
    }

    /** `caches.keys()`. */
    method Keys() returns (names: set<string>)
      ensures names == generations.Keys
    {
      names := generations.Keys;
    }

    /** `caches.delete(name)`: resolves to whether there was such a
        generation. */
    method Delete(name: string) returns (found: bool)
      modifies this
      ensures found <==> name in old(generations)
      ensures generations == Deleted(old(generations), name)
    {
      found := name in generations;
      generations := generations - {name};
    }
  }
}
