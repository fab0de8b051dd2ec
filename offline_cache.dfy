/**
 * The service worker (public/sw.js): the versioned name of the offline
 * cache, the install-time precache, the cache-first fetch handler with its
 * rule for which network replies are stored, and the activate-time removal
 * of caches left behind by earlier versions.
 *
 * The browser's `caches` object is a `CacheStorage`: cache names in
 * creation order (the order `caches.keys()` reports and `caches.match`
 * searches) and, per cache, a map from request URL to stored response.
 */
module OfflineCache {
  import opened Util
  import opened Text

  const CacheVersion: nat := 2
  const OfflinePrefix := "offline-"

  /** `CURRENT_CACHES.offline`: "offline-v" followed by the version number. */
  function CurrentCacheName(): (name: string)
    ensures name == "offline-v2"
    ensures StartsWith(name, OfflinePrefix)
  {
    "offline-v" + Decimal(CacheVersion)
  }

  /** `OFFLINE_URLS` */
  const OfflineUrls: seq<string> := [
    "/index.html",
    "/client.js",
    "https://use.fontawesome.com/releases/v5.15.4/js/all.js",
    "https://cdnjs.cloudflare.com/ajax/libs/bulma/0.9.3/css/bulma.min.css",
    "images/icon-192.png",
    "images/icon-512.png"
  ]

  datatype Request = Request(verb: string, url: string)

  /** A response as far as the worker inspects it: `status` and `type`. */
  datatype Response = Response(status: int, kind: string)

  /** What `fetch` settles to: a rejection or a response. */
  datatype NetResult = NetworkError | Received(response: Response)

  function Get(url: string): Request
  {
    Request("GET", url)
  }

  /** The GET requests for `urls`, in order. */
  function Gets(urls: seq<string>): (r: seq<Request>)
    ensures |r| == |urls| && forall i :: 0 <= i < |urls| ==> r[i] == Get(urls[i])
  {
    seq(|urls|, i requires 0 <= i < |urls| => Get(urls[i]))
  }

  /**
   * `cache.addAll` only accepts responses whose `ok` is true (status
   * 200-299) and rejects a partial response (status 206).
   */
  predicate Accepted(r: NetResult)
  {
    r.Received? && 200 <= r.response.status <= 299 && r.response.status != 206
  }

  /** The fetch handler's test for a response worth keeping offline. */
  predicate WorthCaching(r: NetResult)
  {
    r.Received? && r.response.status == 200 && r.response.kind == "basic"
  }

  /** The activate filter: an offline cache of some other version. */
  predicate IsStale(name: string)
  {
    StartsWith(name, OfflinePrefix) && name != CurrentCacheName()
  }

  /**
   * `cache.addAll(urls)`: every URL is fetched with GET; if any fetch fails
   * or answers with a status outside 200-299 or with 206 nothing is stored, otherwise
   * every URL is stored with its response.
   */
  function AddAll(net: Request -> NetResult, urls: seq<string>): (r: Option<map<string, Response>>)
    ensures r.Some? <==> forall i :: 0 <= i < |urls| ==> Accepted(net(Get(urls[i])))
    ensures r.Some? ==> r.value.Keys == set i | 0 <= i < |urls| :: urls[i]
    ensures r.Some? ==> forall i :: 0 <= i < |urls| ==> r.value[urls[i]] == net(Get(urls[i])).response
  {
    if urls == [] then Some(map[])
    else
      var first := net(Get(urls[0]));
      var rest := AddAll(net, urls[1..]);
      if !Accepted(first) || rest.None? then None
      else
        assert forall i :: 1 <= i < |urls| ==> urls[i] == urls[1..][i - 1];
        Some(rest.value[urls[0] := first.response])
  }

  /** The names of `names` that are not in `gone`, in their order. */
  function Without(names: seq<string>, gone: set<string>): (r: seq<string>)
    ensures forall n :: n in r <==> n in names && n !in gone
    ensures NoDuplicates(names) ==> NoDuplicates(r)
    ensures IsSubsequence(r, names)
  {
    if names == [] then []
    else if names[0] in gone then
      var rest := Without(names[1..], gone);
      SubsequenceOfTail(rest, names);
      rest
    else
      var r := [names[0]] + Without(names[1..], gone);
      assert r[1..] == Without(names[1..], gone);
      r
  }

  /** `cacheNames.filter(...)` in the activate handler. */
  function StaleCaches(names: seq<string>): (r: seq<string>)
    ensures forall n :: n in r <==> n in names && IsStale(n)
    ensures NoDuplicates(names) ==> NoDuplicates(r)
  {
    if names == [] then []
    else if IsStale(names[0]) then [names[0]] + StaleCaches(names[1..])
    else StaleCaches(names[1..])
  }

  /** The cache names an activation keeps, in their order. */
  function Survivors(names: seq<string>): (r: seq<string>)
    ensures forall n :: n in r <==> n in names && !IsStale(n)
    ensures IsSubsequence(r, names)
  {
    Without(names, set n | n in names && IsStale(n))
  }

  /**
   * An activation leaves nothing stale behind, so activating twice deletes
   * nothing the second time; and the current cache, like every cache whose
   * name lacks the prefix, survives.
   */
  lemma ActivateIdempotent(names: seq<string>)
    ensures StaleCaches(Survivors(names)) == []
    ensures Survivors(Survivors(names)) == Survivors(names)
    ensures forall n :: n in names && (!StartsWith(n, OfflinePrefix) || n == CurrentCacheName()) ==> n in Survivors(names)
  {
    var s := Survivors(names);
    if StaleCaches(s) != [] {
      assert StaleCaches(s)[0] in StaleCaches(s);
      assert false;
    }
    WithoutNothing(s, set n | n in s && IsStale(n));
  }

  /** Removing names that do not occur changes nothing. */
  lemma {:induction false} WithoutNothing(names: seq<string>, gone: set<string>)
    requires forall n :: n in names ==> n !in gone
    ensures Without(names, gone) == names
  {
    if names != [] {
      WithoutNothing(names[1..], gone);
    }
  }

  /** Removing one set of names and then another is removing their union. */
  lemma {:induction false} WithoutTwice(names: seq<string>, a: set<string>, b: set<string>)
    ensures Without(Without(names, a), b) == Without(names, a + b)
  {
    if names != [] {
      WithoutTwice(names[1..], a, b);
    }
  }

  /** Removing a set of names depends only on which of the present names it holds. */
  lemma {:induction false} WithoutSame(names: seq<string>, a: set<string>, b: set<string>)
    requires forall n :: n in names ==> (n in a <==> n in b)
    ensures Without(names, a) == Without(names, b)
  {
    if names != [] {
      WithoutSame(names[1..], a, b);
    }
  }

  /** The names `names` holds, built up from its last element back. */
  function Elements(names: seq<string>): (r: set<string>)
    ensures forall n :: n in r <==> n in names
  {
    if names == [] then {} else Elements(names[..|names| - 1]) + {names[|names| - 1]}
  }

  /** Deleting the names the activate filter picks leaves the survivors. */
  lemma StaleDeleted(names: seq<string>, keys: set<string>, deleted: set<string>)
    requires keys == set n | n in names
    requires deleted == Elements(StaleCaches(names))
    ensures Without(names, deleted) == Survivors(names)
    ensures forall n :: n in keys - deleted <==> n in keys && !IsStale(n)
  {
    WithoutSame(names, deleted, set n | n in names && IsStale(n));
  }

  /**
   * `caches.match(request)`: the response stored for the URL in the first
   * cache, in creation order, that holds it; a request other than GET
   * matches nothing.
   */
  function FirstMatch(names: seq<string>, caches: map<string, map<string, Response>>, url: string): (r: Option<Response>)
    ensures r.None? <==> forall i :: 0 <= i < |names| && names[i] in caches ==> url !in caches[names[i]]
    ensures r.Some? ==> exists i ::
      && 0 <= i < |names| && names[i] in caches && url in caches[names[i]] && r.value == caches[names[i]][url]
      && forall j :: 0 <= j < i && names[j] in caches ==> url !in caches[names[j]]
  {
    if names == [] then None
    else if names[0] in caches && url in caches[names[0]] then Some(caches[names[0]][url])
    else
      var r := FirstMatch(names[1..], caches, url);
      assert forall i :: 1 <= i < |names| ==> names[i] == names[1..][i - 1];
      r
  }

  /** `names` with `name` appended unless it is already there. */
  function Opened(names: seq<string>, name: string): (r: seq<string>)
    ensures name in r && forall n :: n in names ==> n in r
  {
    if name in names then names else names + [name]
  }

  class CacheStorage {
    var names: seq<string>
    var caches: map<string, map<string, Response>>
    /** Every request the worker sent to the network, in order. */
    ghost var fetched: seq<Request>

    ghost predicate Valid()
      reads this
    {
      IsKeyOrder(names, caches)
    }

    constructor ()
      ensures Valid() && names == [] && caches == map[] && fetched == []
    {
      names, caches, fetched := [], map[], [];
    }

    /** What cache `name` holds; nothing when there is no such cache. */
    function Contents(name: string): (m: map<string, Response>)
      reads this
      ensures name in caches ==> m == caches[name]
      ensures name !in caches ==> m == map[]
    {
      if name in caches then caches[name] else map[]
    }

    function Match(req: Request): (r: Option<Response>)
      requires Valid()
      reads this
      ensures req.verb != "GET" ==> r.None?
      ensures r.Some? ==> exists i :: 0 <= i < |names| && names[i] in caches && req.url in caches[names[i]] && r.value == caches[names[i]][req.url]
      ensures req.verb == "GET" && r.None? ==> forall n :: n in caches ==> req.url !in caches[n]
    {
      if req.verb != "GET" then None
      else
        var r := FirstMatch(names, caches, req.url);
        r
    }

    /** `caches.open(name)`: creates an empty cache under a new name. */
    method Open(name: string)
      requires Valid()
      modifies this`names, this`caches
      ensures Valid()
      ensures names == Opened(old(names), name)
      ensures caches == old(caches)[name := old(Contents(name))]
    {
      if name !in caches {
        assert name !in names;
        names := names + [name];
        caches := caches[name := map[]];
      }
    }

    /** Replaces what an existing cache holds (`cache.put`, `cache.addAll`). */
    method Store(name: string, entries: map<string, Response>)
      requires Valid() && name in caches
      modifies this`caches
      ensures Valid()
      ensures caches == old(caches)[name := entries]
    {
      caches := caches[name := entries];
      assert caches.Keys == old(caches).Keys;
    }

    /**
     * `caches.open(name).then(cache => cache.addAll(urls))`: the cache is
     * opened (and so exists from then on) and every URL is fetched; only
     * when every fetch is accepted does the cache gain all of them.
     */
    method Precache(name: string, urls: seq<string>, net: Request -> NetResult) returns (ok: bool)
      requires Valid()
      modifies this
      ensures Valid()
      ensures fetched == old(fetched) + Gets(urls)
      ensures names == Opened(old(names), name)
      ensures ok <==> forall i :: 0 <= i < |urls| ==> Accepted(net(Get(urls[i])))
      ensures ok ==> caches == old(caches)[name := old(Contents(name)) + AddAll(net, urls).value]
      ensures !ok ==> caches == old(caches)[name := old(Contents(name))]
    {
      Open(name);
      fetched := fetched + Gets(urls);
      var added := AddAll(net, urls);
      ok := added.Some?;
      if ok {
        Store(name, caches[name] + added.value);
      }
    }

    /** The install handler: precaches the offline URLs in the current cache. */
    method Install(net: Request -> NetResult) returns (ok: bool)
      requires Valid()
      modifies this
      ensures Valid()
      ensures fetched == old(fetched) + Gets(OfflineUrls)
      ensures names == Opened(old(names), CurrentCacheName())
      ensures ok <==> forall i :: 0 <= i < |OfflineUrls| ==> Accepted(net(Get(OfflineUrls[i])))
      ensures ok ==> caches == old(caches)[CurrentCacheName() := old(Contents(CurrentCacheName())) + AddAll(net, OfflineUrls).value]
      ensures !ok ==> caches == old(caches)[CurrentCacheName() := old(Contents(CurrentCacheName()))]
    {
      ok := Precache(CurrentCacheName(), OfflineUrls, net);
    }

    /**
     * `caches.open(name).then(cache => cache.put(req, response))`: the cache
     * is opened, and the response is stored under the request's URL, which
     * the Cache API refuses for any request other than GET. A GET request
     * no cache answered before is answered by this response afterwards.
     */
    method Put(name: string, req: Request, response: Response)
      requires Valid()
      modifies this`names, this`caches
      ensures Valid()
      ensures names == Opened(old(names), name)
      ensures caches == old(caches)[name :=
        if req.verb == "GET" then old(Contents(name))[req.url := response] else old(Contents(name))]
      ensures old(Match(req)).None? && req.verb == "GET" ==> Match(req) == Some(response)
    {
      Open(name);
      if req.verb == "GET" {
        Store(name, caches[name][req.url := response]);
      }
    }

    /**
     * The fetch handler. A request some cache answers is served from it
     * without touching the network or any cache. Otherwise the network's
     * answer is what the page gets, and a 200 `basic` answer is also put in
     * the current cache.
     */
    method HandleFetch(req: Request, net: Request -> NetResult) returns (result: NetResult)
      requires Valid()
      modifies this
      ensures Valid()
      ensures old(Match(req)).Some? ==>
        && result == Received(old(Match(req)).value)
        && fetched == old(fetched) && names == old(names) && caches == old(caches)
      ensures old(Match(req)).None? ==> result == net(req) && fetched == old(fetched) + [req]
      ensures old(Match(req)).None? && !WorthCaching(net(req)) ==>
        names == old(names) && caches == old(caches)
      ensures old(Match(req)).None? && WorthCaching(net(req)) ==>
        && names == Opened(old(names), CurrentCacheName())
        && caches == old(caches)[CurrentCacheName() :=
             if req.verb == "GET" then old(Contents(CurrentCacheName()))[req.url := net(req).response]
             else old(Contents(CurrentCacheName()))]
      ensures old(Match(req)).None? && WorthCaching(net(req)) && req.verb == "GET" ==>
        Match(req) == Some(net(req).response)
    {
      var hit := Match(req);
      if hit.Some? {
        return Received(hit.value);
      }
      result := net(req);
      fetched := fetched + [req];
      if WorthCaching(result) {
        Put(CurrentCacheName(), req, result.response);
      }
    }

    /** `caches.delete(name)`: drops the cache and its name. */
    method Delete(name: string) returns (found: bool)
      requires Valid()
      modifies this`names, this`caches
      ensures Valid()
      ensures found <==> name in old(caches)
      ensures names == Without(old(names), {name})
      ensures caches == old(caches) - {name}
    {
      found := name in caches;
      names := Without(names, {name});
      caches := caches - {name};
    }

    /**
     * The activate handler: every stale cache is deleted. Afterwards exactly
     * the caches without the prefix, or with the current name, remain, with
     * their contents and in their order.
     */
    method Activate()
      requires Valid()
      modifies this`names, this`caches
      ensures Valid()
      ensures names == Survivors(old(names))
      ensures forall n :: n in caches <==> n in old(caches) && !IsStale(n)
      ensures forall n :: n in caches ==> caches[n] == old(caches)[n]
    {
      var stale := StaleCaches(names);
      ghost var deleted: set<string> := {};
      WithoutNothing(names, deleted);
      for k := 0 to |stale|
        invariant Valid()
        invariant deleted == Elements(stale[..k])
        invariant names == Without(old(names), deleted)
        invariant forall n :: n in caches ==> caches[n] == old(caches)[n]
      {
        WithoutTwice(old(names), deleted, {stale[k]});
        var _ := Delete(stale[k]);
        deleted := deleted + {stale[k]};
        assert names == Without(old(names), deleted);
        assert stale[..k + 1][..k] == stale[..k];
      }
      assert stale[..|stale|] == stale;
      StaleDeleted(old(names), old(caches).Keys, deleted);
    }
  }
}
