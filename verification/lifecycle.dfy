/** Namespace management across the worker's lifecycle: priming the shell
    namespace at install and evicting stale namespaces at activation. */
module Lifecycle {
  import opened Config
  import opened Store
  import opened Strategies
  import opened Router

  // ---------------------------------------------------------------- install

  /** No request is listed twice. */
  predicate Distinct(requests: seq<string>) {
    forall i, j :: 0 <= i < j < |requests| ==> requests[i] != requests[j]
  }

  /** The manifest entries, in order, resolved against the worker script's
      URL (the base the `Request` constructor parses them against);
      `resolve` stands for that URL resolution. */
  function Requests(assets: seq<string>, resolve: string -> string): (r: seq<string>)
    ensures forall a :: a in assets ==> resolve(a) in r
  {
    var r := seq(|assets|, i requires 0 <= i < |assets| => resolve(assets[i]));
    assert forall a :: a in assets ==> resolve(a) in r by {
      forall a | a in assets ensures resolve(a) in r {
        var i :| 0 <= i < |assets| && assets[i] == a;
        assert r[i] == resolve(a);
      }
    }
    r
  }

  /** The storing half of `addAll`: every fetch must be cacheable (ok and
      not partial), else the whole batch fails and nothing is written;
      otherwise every response is put. */
  function StoreAll(cache: Cache, requests: seq<string>, net: string -> NetOutcome): (r: Option<Cache>)
    ensures r.Some? <==> forall k :: k in requests ==> net(k).Cacheable()
    ensures r.Some? ==> r.value.Keys == cache.Keys + (set k | k in requests)
    ensures r.Some? ==> forall k :: k in r.value ==> r.value[k] == if k in requests then net(k).response else cache[k]
    decreases |requests|
  {
    if |requests| == 0 then Some(cache)
    else if !net(requests[0]).Cacheable() then None
    else StoreAll(cache[requests[0] := net(requests[0]).response], requests[1..], net)
  }

  /** `cache.addAll(requests)`: it succeeds exactly when no request is
      listed twice and every fetch is cacheable; then each request holds its
      response and every other entry is kept. */
  function AddAll(cache: Cache, requests: seq<string>, net: string -> NetOutcome): (r: Option<Cache>)
    ensures r.Some? <==> Distinct(requests) && forall k :: k in requests ==> net(k).Cacheable()
    ensures r.Some? ==> r.value.Keys == cache.Keys + (set k | k in requests)
    ensures r.Some? ==> forall k :: k in r.value ==> r.value[k] == if k in requests then net(k).response else cache[k]
  {
    if !Distinct(requests) then None else StoreAll(cache, requests, net)
  }

  /** Every resolved request is cacheable exactly when every asset's
      fetch is. */
  lemma RequestsAllCacheable(assets: seq<string>, resolve: string -> string, net: string -> NetOutcome)
    ensures (forall k :: k in Requests(assets, resolve) ==> net(k).Cacheable())
        <==> (forall a :: a in assets ==> net(resolve(a)).Cacheable())
  {
    var requests := Requests(assets, resolve);
    if forall a :: a in assets ==> net(resolve(a)).Cacheable() {
      forall k | k in requests ensures net(k).Cacheable() {
        var i :| 0 <= i < |requests| && requests[i] == k;
        assert assets[i] in assets;
      }
    }
  }

  datatype Installation = Installation(installed: bool, store: Storage)

  /** Opening the shell namespace and adding the resolved `assets` to it:
      success exactly when they are distinct and every fetch is cacheable,
      and then every asset is stored under its resolved URL and nothing else
      changed; on failure the only trace is the (possibly newly created)
      shell namespace. The network `net` is indexed by resolved URL. */
  function InstallAssets(store: Storage, assets: seq<string>, resolve: string -> string,
                         net: string -> NetOutcome): (r: Installation)
    ensures r.installed <==>
      Distinct(Requests(assets, resolve)) && forall a :: a in assets ==> net(resolve(a)).Cacheable()
    ensures r.installed ==> forall a :: a in assets ==>
      Match(r.store, AppCache, resolve(a)) == Some(net(resolve(a)).response)
    ensures r.installed ==> forall n, k :: (n != AppCache || k !in Requests(assets, resolve)) ==>
      Match(r.store, n, k) == Match(store, n, k)
    ensures r.installed ==> Confined(store, r.store, AppCache)
    ensures !r.installed ==> r.store == Open(store, AppCache)
    ensures AllOk(store) ==> AllOk(r.store)
  {
    var ready := Open(store, AppCache);
    var requests := Requests(assets, resolve);
    RequestsAllCacheable(assets, resolve, net);
    match AddAll(ready[AppCache], requests, net)
    case None => Installation(false, ready)
    case Some(cache) =>
      ShellWritten(store, cache, requests, net);
      Installation(true, ready[AppCache := cache])
  }

  /** Replacing the opened shell namespace by the result of a successful
      `addAll` changes exactly the requested entries of that namespace. */
  lemma ShellWritten(store: Storage, cache: Cache, requests: seq<string>, net: string -> NetOutcome)
    requires forall k :: k in requests ==> net(k).Cacheable()
    requires cache.Keys == Open(store, AppCache)[AppCache].Keys + (set k | k in requests)
    requires forall k :: k in requests ==> net(k).Received? && cache[k] == net(k).response
    requires forall k :: k in cache && k !in requests ==> cache[k] == Open(store, AppCache)[AppCache][k]
    ensures var written := Open(store, AppCache)[AppCache := cache];
      && (forall k :: k in requests ==> net(k).Received? && Match(written, AppCache, k) == Some(net(k).response))
      && (forall n, k :: (n != AppCache || k !in requests) ==> Match(written, n, k) == Match(store, n, k))
      && (AllOk(store) ==> AllOk(written))
  {
  }

  /** The install step: the shell manifest, all or nothing. */
  function Install(store: Storage, resolve: string -> string, net: string -> NetOutcome): (r: Installation)
    ensures r.installed <==>
      Distinct(Requests(UiAssets, resolve)) && forall a :: a in UiAssets ==> net(resolve(a)).Cacheable()
    ensures r.installed ==> forall a :: a in UiAssets ==>
      Match(r.store, AppCache, resolve(a)) == Some(net(resolve(a)).response)
    ensures r.installed ==> forall n, k :: (n != AppCache || k !in Requests(UiAssets, resolve)) ==>
      Match(r.store, n, k) == Match(store, n, k)
    ensures r.installed ==> Confined(store, r.store, AppCache)
    ensures !r.installed ==> r.store == Open(store, AppCache)
    ensures AllOk(store) ==> AllOk(r.store)
  {
    InstallAssets(store, UiAssets, resolve, net)
  }

  /** With URL resolution keeping the manifest entries apart and the whole
      network up, install succeeds and the five shell assets are all
      present. */
  lemma InstallOnlineStoresShell(store: Storage, resolve: string -> string, net: string -> NetOutcome)
    requires Distinct(Requests(UiAssets, resolve))
    requires forall k :: net(k).Cacheable()
    ensures Install(store, resolve, net).installed
    ensures forall a :: a in ["./", "./index.html", "./style.css", "./app.js", "./manifest.json"] ==>
      Match(Install(store, resolve, net).store, AppCache, resolve(a)).Some?
  {
  }

  /** One failing asset makes the whole install fail without writing any
      shell entry. */
  lemma InstallAllOrNothing(store: Storage, resolve: string -> string, net: string -> NetOutcome, bad: string)
    requires bad in UiAssets && !net(resolve(bad)).Cacheable()
    ensures !Install(store, resolve, net).installed
    ensures forall n, k :: Match(Install(store, resolve, net).store, n, k) == Match(store, n, k)
  {
    assert !(forall a :: a in UiAssets ==> net(resolve(a)).Cacheable());
    var r := Install(store, resolve, net);
    assert !r.installed;
    assert r.store == Open(store, AppCache);
  }

  /** Any two entries of a manifest that resolve to one URL make install
      fail, whatever the network does. For the five-entry shell manifest,
      URL resolution always keeps the entries apart, so this failure is
      reachable only with a manifest that repeats a resource. */
  lemma InstallRejectsDuplicates(store: Storage, assets: seq<string>, resolve: string -> string,
                                 net: string -> NetOutcome, i: nat, j: nat)
    requires i < j < |assets| && resolve(assets[i]) == resolve(assets[j])
    ensures !InstallAssets(store, assets, resolve, net).installed
  {
    var requests := Requests(assets, resolve);
    assert requests[i] == requests[j];
  }

  // --------------------------------------------------------------- activate

  /** The listed names that are neither current namespace, in order. */
  function StaleNames(names: seq<string>): (r: seq<string>)
    ensures forall n :: n in r <==> n in names && !IsLive(n)
    ensures |r| <= |names|
  {
    if |names| == 0 then []
    else (if IsLive(names[0]) then [] else [names[0]]) + StaleNames(names[1..])
  }

  /** Deleting each listed namespace; the deletions are independent, so their
      order does not matter. */
  function DeleteAll(store: Storage, names: seq<string>): (r: Storage)
    ensures forall n :: n in r <==> n in store && n !in names
    ensures forall n :: n in r ==> r[n] == store[n]
    decreases |names|
  {
    if |names| == 0 then store else DeleteAll(Delete(store, names[0]), names[1..])
  }

  /** Reclamation over an enumeration `names` of the store: the live
      namespaces are untouched, the listed stale ones are gone. */
  function Reclaim(store: Storage, names: seq<string>): (r: Storage)
    ensures forall n :: n in r <==> n in store && (IsLive(n) || n !in names)
    ensures forall n :: n in r ==> r[n] == store[n]
  {
    DeleteAll(store, StaleNames(names))
  }

  /** `caches.keys()`: every namespace name exactly once. */
  method CacheNames(store: Storage) returns (names: seq<string>)
    ensures forall n :: n in names <==> n in store
    ensures forall i, j :: 0 <= i < j < |names| ==> names[i] != names[j]
  {
    names := [];
    var remaining := store.Keys;
    while remaining != {}
      invariant remaining <= store.Keys
      invariant forall n :: n in names <==> n in store && n !in remaining
      invariant forall i, j :: 0 <= i < j < |names| ==> names[i] != names[j]
      decreases remaining
    {
      var n :| n in remaining;
      names := names + [n];
      remaining := remaining - {n};
    }
  }

  /** Reference result of activation: the store restricted to the
      current-version namespaces. */
  ghost function Evicted(store: Storage): map<string, Cache> {
    map n | n in store && IsLive(n) :: store[n]
  }

  /** Reclaiming over any complete enumeration of the store yields the
      reference result, whatever the enumeration's order or repetitions. */
  lemma ReclaimIsEviction(store: Storage, names: seq<string>)
    requires forall n :: n in names <==> n in store
    ensures Reclaim(store, names) == Evicted(store)
  {
  }

  /** The activate step: afterwards only current-version namespaces exist,
      each exactly as before; every entry of a stale namespace is gone. */
  method Activate(store: Storage) returns (store': Storage)
    ensures store' == Evicted(store)
    ensures forall n :: n in store' <==> n in store && IsLive(n)
    ensures forall n :: n in store' ==> store'[n] == store[n]
    ensures forall n, k :: !IsLive(n) ==> Match(store', n, k) == None
    ensures AllOk(store) ==> AllOk(store')
  {
    var names := CacheNames(store);
    store' := Reclaim(store, names);
    ReclaimIsEviction(store, names);
  }

  /** Activating an already activated store changes nothing. */
  lemma EvictionIdempotent(store: Storage)
    ensures Evicted(Evicted(store)) == Evicted(store)
  {
  }

  /** After an install with the network up, every shell asset is served by
      the fetch handler with the network down, to a same-origin GET for its
      resolved URL that is a navigation or a style/script/document fetch. */
  lemma InstalledShellServedOffline(store: Storage, resolve: string -> string, net: string -> NetOutcome,
                                    asset: string, req: Request, selfOrigin: string)
    requires Distinct(Requests(UiAssets, resolve))
    requires forall k :: net(k).Cacheable()
    requires asset in UiAssets && req.url.href == resolve(asset)
    requires req.verb == "GET" && req.url.origin == selfOrigin
    requires IsUiRequest(req) && !IsAudioPath(req.url.pathname)
    ensures HandleFetch(Install(store, resolve, net).store, req, selfOrigin, Failed).dispatch
      == Responded(Served(net(resolve(asset)).response))
  {
  }
}
