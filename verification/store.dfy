/** The abstract storage substrate: named namespaces, each a map from a
    request identity (an absolute URL) to a captured response, plus the
    outcome of a network fetch. */
module Store {

  datatype Option<+T> = None | Some(value: T)

  /** A captured response; the policy looks only at whether it is ok. */
  datatype Response = Response(status: int, body: string) {
    /** The Fetch standard's `ok`: a status in the range 200 to 299. */
    predicate Ok() {
      200 <= status <= 299
    }

    /** Cache Storage refuses to store a partial (206) response: `put`
        rejects it and `addAll` fails on it. */
    predicate Storable() {
      status != 206
    }
  }

  /** What a fetch settles to: a response of any status, or a rejection
      (a transport error). */
  datatype NetOutcome = Received(response: Response) | Failed {
    /** The worker's test before it writes: a response that is ok. */
    predicate Succeeded() {
      Received? && response.Ok()
    }

    /** The case in which a write actually lands: ok and storable. */
    predicate Cacheable() {
      Succeeded() && response.Storable()
    }
  }

  type Cache = map<string, Response>

  /** The whole cache store: namespace name to namespace. */
  type Storage = map<string, Cache>

  /** `caches.open(name)`: the namespace, created empty when absent. */
  function Open(store: Storage, name: string): (r: Storage)
    ensures r.Keys == store.Keys + {name}
    ensures forall n :: n in store ==> r[n] == store[n]
    ensures name !in store ==> r[name] == map[]
  {
    if name in store then store else store[name := map[]]
  }

  /** `cache.match(key)` on namespace `name`: the stored entry, and nothing
      for an absent namespace or key. */
  function Match(store: Storage, name: string, key: string): Option<Response> {
    if name in store && key in store[name] then Some(store[name][key]) else None
  }

  /** `cache.put(key, response)` on namespace `name`: a storable response
      (over)writes that entry and no other entry of any namespace changes;
      a partial response is rejected and nothing changes. */
  function Put(store: Storage, name: string, key: string, response: Response): (r: Storage)
    ensures response.Storable() ==> r.Keys == store.Keys + {name}
    ensures response.Storable() ==> Match(r, name, key) == Some(response)
    ensures forall n, k :: n != name || k != key ==> Match(r, n, k) == Match(store, n, k)
    ensures !response.Storable() ==> r == store
  {
    if !response.Storable() then store
    else
      var cache := if name in store then store[name] else map[];
      store[name := cache[key := response]]
  }

  /** `caches.delete(name)`: the namespace and all its entries disappear,
      every other namespace stays as it was. */
  function Delete(store: Storage, name: string): (r: Storage)
    ensures r.Keys == store.Keys - {name}
    ensures forall n :: n in r ==> r[n] == store[n]
  {
    store - {name}
  }

  /** Every stored entry is an ok response. */
  ghost predicate AllOk(store: Storage) {
    forall n, k :: n in store && k in store[n] ==> store[n][k].Ok()
  }

  /** Every entry other than (name, key) reads the same in both stores. */
  ghost predicate SameEntriesExcept(store: Storage, store': Storage, name: string, key: string) {
    forall n, k :: n != name || k != key ==> Match(store', n, k) == Match(store, n, k)
  }

  /** Only namespace `name` may have been created or changed. */
  ghost predicate Confined(store: Storage, store': Storage, name: string) {
    && store'.Keys == store.Keys + {name}
    && forall n :: n in store && n != name ==> store'[n] == store[n]
  }
}
