/** The service worker: it pre-caches the app shell on install, answers every fetch from
    the network first and writes good responses back to its cache, falls back to the
    caches when the network fails, and on activation deletes every cache but its own. */
module ServiceWorker {
  import opened Wrappers

  const CacheName: string := "tryon-app-v1-network-first"
  const UrlsToCache: seq<string> := ["/", "/index.html", "/manifest.json", "/logo192.png", "/logo512.png"]

  /** A request: its URL and its HTTP method. */
  datatype Request = Request(url: string, verb: string)

  /** A response: its status and its `type` ("basic", "cors", "opaque", ...). */
  datatype Response = Response(status: int, kind: string, body: string)

  /** What `fetch(event.request)` does: it rejects (offline), or it resolves to a response,
      which the handler also allows to be missing. */
  datatype NetworkResult = NetworkFailed | Delivered(response: Option<Response>)

  /** Only a status-200, same-origin ("basic") response is written back to the cache. */
  predicate Cacheable(r: Option<Response>) {
    r.Some? && r.value.status == 200 && r.value.kind == "basic"
  }

  /** What `cache.addAll` demands of every response it stores: `response.ok` (a status
      in 200..299), and not a partial-content 206 answer, which the Cache API refuses. */
  predicate Ok(r: Response) {
    200 <= r.status <= 299 && r.status != 206
  }

  predicate Distinct(names: seq<string>) {
    forall i, j :: 0 <= i < j < |names| ==> names[i] != names[j]
  }

  /** The cache names that survive activation, in their order. */
  function Kept(names: seq<string>): (r: seq<string>)
    ensures |r| <= |names|
  {
    if |names| == 0 then []
    else (if names[0] == CacheName then [names[0]] else []) + Kept(names[1..])
  }

  /** Activation keeps exactly the occurrences of CacheName. */
  lemma {:induction false} KeptMembers(names: seq<string>)
    ensures forall n :: n in Kept(names) <==> n in names && n == CacheName
  {
    if |names| > 0 {
      KeptMembers(names[1..]);
    }
  }

  lemma {:induction false} KeptExcludes(names: seq<string>, x: string)
    requires x != CacheName
    ensures x !in Kept(names)
  {
    if |names| > 0 {
      KeptExcludes(names[1..], x);
    }
  }

  lemma {:induction false} KeptIdempotent(names: seq<string>)
    ensures Kept(Kept(names)) == Kept(names)
  {
    if |names| > 0 {
      KeptIdempotent(names[1..]);
      KeptAppend(if names[0] == CacheName then [names[0]] else [], Kept(names[1..]));
    }
  }

  lemma {:induction false} KeptAppend(xs: seq<string>, ys: seq<string>)
    ensures Kept(xs + ys) == Kept(xs) + Kept(ys)
  {
    if |xs| > 0 {
      assert (xs + ys)[1..] == xs[1..] + ys;
      KeptAppend(xs[1..], ys);
    } else {
      assert xs + ys == ys;
    }
  }

  /** The name list after `caches.delete(n)`. */
  function Without(names: seq<string>, n: string): (r: seq<string>)
    ensures |r| <= |names|
  {
    if |names| == 0 then []
    else if names[0] == n then Without(names[1..], n)
    else [names[0]] + Without(names[1..], n)
  }

  lemma DistinctCons(x: string, s: seq<string>)
    requires x !in s && Distinct(s)
    ensures Distinct([x] + s)
  {
    var t := [x] + s;
    forall i, j | 0 <= i < j < |t| ensures t[i] != t[j] {
      assert t[j] == s[j - 1];
      if i > 0 {
        assert t[i] == s[i - 1];
      }
    }
  }

  /** In a list without repetitions, an element does not occur after its own position. */
  lemma DistinctAfter(s: seq<string>, i: int)
    requires Distinct(s) && 0 <= i < |s|
    ensures s[i] !in s[i + 1..]
  {
    var rest := s[i + 1..];
    forall k | 0 <= k < |rest| ensures rest[k] != s[i] {
      assert rest[k] == s[i + 1 + k];
    }
  }

  lemma DistinctTail(s: seq<string>)
    requires Distinct(s) && |s| > 0
    ensures Distinct(s[1..])
  {
    forall i, j | 0 <= i < j < |s[1..]| ensures s[1..][i] != s[1..][j] {
      assert s[1..][i] == s[i + 1] && s[1..][j] == s[j + 1];
    }
  }

  lemma {:induction false} WithoutDistinct(names: seq<string>, n: string)
    requires Distinct(names)
    ensures Distinct(Without(names, n))
  {
    if |names| > 0 {
      DistinctTail(names);
      WithoutDistinct(names[1..], n);
      if names[0] != n {
        DistinctAfter(names, 0);
        WithoutMembers(names[1..], n);
        DistinctCons(names[0], Without(names[1..], n));
      }
    }
  }

  /** One round of the activation loop on a name other than CacheName. */
  lemma DeleteStep(cacheNames: seq<string>, i: int)
    requires Distinct(cacheNames) && 0 <= i < |cacheNames| && cacheNames[i] != CacheName
    ensures Without(Kept(cacheNames[..i]) + cacheNames[i..], cacheNames[i]) == Kept(cacheNames[..i + 1]) + cacheNames[i + 1..]
  {
    var name, done, rest := cacheNames[i], cacheNames[..i], cacheNames[i + 1..];
    var kept := Kept(done);
    assert cacheNames[..i + 1] == done + [name];
    assert cacheNames[i..] == [name] + rest;
    KeptAppend(done, [name]);
    assert Kept([name]) == [];
    assert Kept(done + [name]) == kept;
    DistinctAfter(cacheNames, i);
    KeptExcludes(done, name);
    WithoutAppend(kept, [name] + rest, name);
    WithoutAbsent(kept, name);
    WithoutAppend([name], rest, name);
    WithoutAbsent(rest, name);
    assert Without([name], name) == [];
    assert Without([name] + rest, name) == rest;
    assert Without(kept + ([name] + rest), name) == kept + rest;
  }

  /** One round of the activation loop on CacheName itself. */
  lemma KeepStep(cacheNames: seq<string>, i: int)
    requires 0 <= i < |cacheNames| && cacheNames[i] == CacheName
    ensures Kept(cacheNames[..i]) + cacheNames[i..] == Kept(cacheNames[..i + 1]) + cacheNames[i + 1..]
  {
    var name := cacheNames[i];
    assert cacheNames[..i + 1] == cacheNames[..i] + [name];
    KeptAppend(cacheNames[..i], [name]);
    assert Kept([name]) == [name];
    assert cacheNames[i..] == [name] + cacheNames[i + 1..];
  }

  lemma {:induction false} WithoutMembers(names: seq<string>, n: string)
    ensures forall m :: m in Without(names, n) <==> m in names && m != n
  {
    if |names| > 0 {
      WithoutMembers(names[1..], n);
    }
  }

  lemma {:induction false} WithoutAppend(xs: seq<string>, ys: seq<string>, n: string)
    ensures Without(xs + ys, n) == Without(xs, n) + Without(ys, n)
  {
    if |xs| > 0 {
      assert (xs + ys)[1..] == xs[1..] + ys;
      WithoutAppend(xs[1..], ys, n);
    } else {
      assert xs + ys == ys;
    }
  }

  lemma {:induction false} WithoutAbsent(xs: seq<string>, n: string)
    requires n !in xs
    ensures Without(xs, n) == xs
  {
    if |xs| > 0 {
      WithoutAbsent(xs[1..], n);
    }
  }

  /** Where the activation loop stands after looking at the first i names: those it kept,
      then the names still to look at; every remaining cache is one it started with,
      contents unchanged. */
  ghost predicate Progress(cacheNames: seq<string>, i: int, names: seq<string>,
                           stores: map<string, map<string, Response>>, initial: map<string, map<string, Response>>)
    requires 0 <= i <= |cacheNames|
  {
    names == Kept(cacheNames[..i]) + cacheNames[i..] &&
    forall n :: n in stores ==> n in initial && stores[n] == initial[n]
  }

  lemma ProgressDelete(cacheNames: seq<string>, i: int, names: seq<string>,
                       stores: map<string, map<string, Response>>, initial: map<string, map<string, Response>>)
    requires Distinct(cacheNames) && 0 <= i < |cacheNames| && cacheNames[i] != CacheName
    requires Progress(cacheNames, i, names, stores, initial)
    ensures Progress(cacheNames, i + 1, Without(names, cacheNames[i]), stores - {cacheNames[i]}, initial)
  {
    DeleteStep(cacheNames, i);
  }

  lemma ProgressKeep(cacheNames: seq<string>, i: int, names: seq<string>,
                     stores: map<string, map<string, Response>>, initial: map<string, map<string, Response>>)
    requires 0 <= i < |cacheNames| && cacheNames[i] == CacheName
    requires Progress(cacheNames, i, names, stores, initial)
    ensures Progress(cacheNames, i + 1, names, stores, initial)
  {
    KeepStep(cacheNames, i);
  }

  /** When the loop has looked at every name, only CacheName is left. */
  lemma ProgressDone(cacheNames: seq<string>, names: seq<string>,
                     stores: map<string, map<string, Response>>, initial: map<string, map<string, Response>>)
    requires Progress(cacheNames, |cacheNames|, names, stores, initial)
    requires forall n :: n in initial <==> n in cacheNames
    requires forall n :: n in stores <==> n in names
    ensures names == Kept(cacheNames)
    ensures stores == Purged(initial)
  {
    assert cacheNames[..|cacheNames|] == cacheNames;
    KeptMembers(cacheNames);
    assert stores.Keys == Purged(initial).Keys;
  }

  /** The caches that survive activation: only CacheName, with its contents as they were. */
  function Purged(stores: map<string, map<string, Response>>): (r: map<string, map<string, Response>>)
    ensures r.Keys <= {CacheName}
    ensures CacheName in stores ==> CacheName in r && r[CacheName] == stores[CacheName]
  {
    map n | n in stores && n == CacheName :: stores[n]
  }

  /** Activating twice leaves the same caches as activating once. */
  lemma ActivateIdempotent(names: seq<string>, stores: map<string, map<string, Response>>)
    ensures Kept(Kept(names)) == Kept(names)
    ensures Purged(Purged(stores)) == Purged(stores)
  {
    KeptIdempotent(names);
  }

  /** Cache k, in creation order, is the first one that holds an entry for url. */
  predicate FirstHolder(names: seq<string>, stores: map<string, map<string, Response>>, url: string, k: int)
    requires forall n :: n in names ==> n in stores
  {
    0 <= k < |names| && url in stores[names[k]] &&
    forall j :: 0 <= j < k ==> url !in stores[names[j]]
  }

  /** The entry of the first cache, in creation order, that holds url. */
  function MatchIn(names: seq<string>, stores: map<string, map<string, Response>>, url: string): (r: Option<Response>)
    requires forall n :: n in names ==> n in stores
    ensures r.None? <==> forall n :: n in names ==> url !in stores[n]
    ensures r.Some? ==> exists k :: FirstHolder(names, stores, url, k) && r.value == stores[names[k]][url]
  {
    if |names| == 0 then None
    else if url in stores[names[0]] then Some(stores[names[0]][url])
    else
      var r := MatchIn(names[1..], stores, url);
      if r.Some? then
        var k :| FirstHolder(names[1..], stores, url, k) && r.value == stores[names[1..][k]][url];
        assert FirstHolder(names, stores, url, k + 1);
        r
      else r
  }

  /** The browser's CacheStorage as the worker sees it: the cache names in creation order
      and, for each cache, its entries keyed by request URL. */
  class CacheStorage {
    var names: seq<string>
    var stores: map<string, map<string, Response>>

    ghost predicate Valid()
      reads this
    {
      Distinct(names) && forall n :: n in stores <==> n in names
    }

    constructor ()
      ensures Valid() && names == [] && stores == map[]
    {
      names := [];
      stores := map[];
    }

    /** The contents CacheName had before, or none if it did not exist. */
    function OwnCache(): (c: map<string, Response>)
      reads this
      ensures CacheName in stores ==> c == stores[CacheName]
      ensures CacheName !in stores ==> c == map[]
    {
      if CacheName in stores then stores[CacheName] else map[]
    }

    /** `caches.open(name)`: creates an empty cache of that name when there is none. */
    method Open(name: string)
      requires Valid()
      modifies this
      ensures Valid()
      ensures name in old(stores) ==> names == old(names) && stores == old(stores)
      ensures name !in old(stores) ==> names == old(names) + [name] && stores == old(stores)[name := map[]]
    {
      if name !in stores {
        names := names + [name];
        stores := stores[name := map[]];
      }
    }

    /** `caches.delete(name)`. */
    method Delete(name: string)
      requires Valid()
      modifies this
      ensures Valid()
      ensures names == Without(old(names), name)
      ensures stores == old(stores) - {name}
    {
      WithoutDistinct(names, name);
      WithoutMembers(names, name);
      names := Without(names, name);
      stores := stores - {name};
    }

    /** The install handler: open CacheName, then `addAll` the five shell URLs, which
        stores all of them or, when any fetch fails or is not ok, none. `installed` is
        whether the promise given to `waitUntil` fulfils; when it rejects the install
        fails and this worker never activates. */
    method Install(network: map<string, Response>) returns (installed: bool)
      requires Valid()
      modifies this
      ensures Valid()
      ensures installed <==> forall u :: u in UrlsToCache ==> u in network && Ok(network[u])
      ensures CacheName in old(stores) ==> names == old(names)
      ensures CacheName !in old(stores) ==> names == old(names) + [CacheName]
      ensures CacheName in stores
      ensures forall n :: n in old(stores) && n != CacheName ==> n in stores && stores[n] == old(stores)[n]
      ensures forall n :: n in stores && n != CacheName ==> n in old(stores)
      ensures (forall u :: u in UrlsToCache ==> u in network && Ok(network[u])) ==>
        stores[CacheName] == old(OwnCache()) + map u | u in UrlsToCache :: network[u]
      ensures !(forall u :: u in UrlsToCache ==> u in network && Ok(network[u])) ==>
        stores[CacheName] == old(OwnCache())
    {
      Open(CacheName);
      installed := forall u :: u in UrlsToCache ==> u in network && Ok(network[u]);
      if installed {
        var fetched := map u | u in UrlsToCache :: network[u];
        stores := stores[CacheName := stores[CacheName] + fetched];
      }
    }

    /** `caches.match(request)`: the first cache holding the URL; a non-GET request
        matches nothing. */
    function Match(request: Request): (r: Option<Response>)
      requires Valid()
      reads this
      ensures request.verb != "GET" ==> r.None?
      ensures r.None? && request.verb == "GET" ==> forall n :: n in stores ==> request.url !in stores[n]
      ensures r.Some? ==>
        exists k :: FirstHolder(names, stores, request.url, k) && r.value == stores[names[k]][request.url]
    {
      if request.verb != "GET" then None else MatchIn(names, stores, request.url)
    }

    /** The fetch handler, network first. A cacheable response is also put under its
        request in CacheName (which `cache.put` refuses for a non-GET request); any other
        response goes back as it came and the caches are untouched; when the network
        fails the caches answer. */
    method Fetch(request: Request, network: NetworkResult) returns (r: Option<Response>)
      requires Valid()
      modifies this
      ensures Valid()
      ensures network.NetworkFailed? ==> r == old(Match(request)) && names == old(names) && stores == old(stores)
      ensures network.Delivered? ==> r == network.response
      ensures network.Delivered? && !Cacheable(network.response) ==> names == old(names) && stores == old(stores)
      ensures network.Delivered? && Cacheable(network.response) ==>
        && (CacheName in old(stores) ==> names == old(names))
        && (CacheName !in old(stores) ==> names == old(names) + [CacheName])
        && CacheName in stores
        && (forall n :: n in old(stores) && n != CacheName ==> n in stores && stores[n] == old(stores)[n])
        && (forall n :: n in stores && n != CacheName ==> n in old(stores))
        && stores[CacheName] ==
             if request.verb == "GET" then old(OwnCache())[request.url := network.response.value]
             else old(OwnCache())
    {
      match network {
        case NetworkFailed =>
          r := Match(request);
        case Delivered(response) =>
          if !Cacheable(response) {
            return response;
          }
          Open(CacheName);
          if request.verb == "GET" {
            stores := stores[CacheName := stores[CacheName][request.url := response.value]];
          }
          r := response;
      }
    }

    /** One round of the activate handler's loop: delete the i-th name unless it is
        CacheName. */
    method PurgeAt(cacheNames: seq<string>, i: int, ghost initial: map<string, map<string, Response>>)
      requires Valid() && Distinct(cacheNames) && 0 <= i < |cacheNames|
      requires Progress(cacheNames, i, names, stores, initial)
      modifies this
      ensures Valid()
      ensures Progress(cacheNames, i + 1, names, stores, initial)
    {
      var name := cacheNames[i];
      if name != CacheName {
        ProgressDelete(cacheNames, i, names, stores, initial);
        Delete(name);
      } else {
        ProgressKeep(cacheNames, i, names, stores, initial);
      }
    }

    /** The activate handler: every cache whose name is not CacheName is deleted, one
        name after the other; CacheName keeps its contents. */
    method Activate()
      requires Valid()
      modifies this
      ensures Valid()
      ensures names == Kept(old(names))
      ensures stores == Purged(old(stores))
    {
      var cacheNames := names;
      var i := 0;
      while i < |cacheNames|
        invariant 0 <= i <= |cacheNames| && Distinct(cacheNames) && cacheNames == old(names)
        invariant Valid()
        invariant Progress(cacheNames, i, names, stores, old(stores))
      {
        PurgeAt(cacheNames, i, old(stores));
        i := i + 1;
      }
      ProgressDone(cacheNames, names, stores, old(stores));
    }
  }
}
