/** The two read-through policies: cache-first for audio and
    stale-while-revalidate for the application shell. Each is a pure
    transition from (store, request identity, network outcome) to the reply
    handed to the page and the store after the detached write has landed. */
module Strategies {
  import opened Config
  import opened Store

  /** What the page receives: a response, a rejected promise (a network
      error), or a promise resolved with `undefined` (also a network error
      for the page, but reached without a rejection). */
  datatype Reply = Served(response: Response) | Rejected | Undefined

  datatype Outcome = Outcome(reply: Reply, store: Storage)

  /** Cache-first: a stored entry is returned without touching the network;
      on a miss the network reply is returned, and stored when it is ok (a
      partial response is refused by the store). */
  function CacheFirstAudio(store: Storage, key: string, net: NetOutcome): (r: Outcome)
    ensures Confined(store, r.store, AudioCache)
    ensures Match(store, AudioCache, key).Some? ==>
      r == Outcome(Served(Match(store, AudioCache, key).value), store)
    ensures Match(store, AudioCache, key).None? && net.Received? ==> r.reply == Served(net.response)
    ensures Match(store, AudioCache, key).None? && net.Failed? ==> r.reply == Rejected
    ensures Match(store, AudioCache, key).None? && net.Cacheable() ==>
      && Match(r.store, AudioCache, key) == Some(net.response)
      && SameEntriesExcept(store, r.store, AudioCache, key)
    ensures Match(store, AudioCache, key).None? && !net.Cacheable() ==> r.store == Open(store, AudioCache)
    ensures AllOk(store) ==> AllOk(r.store)
  {
    var ready := Open(store, AudioCache);
    match Match(ready, AudioCache, key)
    case Some(cached) => Outcome(Served(cached), ready)
    case None =>
      match net
      case Failed => Outcome(Rejected, ready)
      case Received(response) =>
        if response.Ok() then Outcome(Served(response), Put(ready, AudioCache, key, response))
        else Outcome(Served(response), ready)
  }

  /** The revalidation branch of stale-while-revalidate, on the opened
      store: it settles to the network reply, or on a rejection to whatever
      was cached (`undefined` when nothing was); a cacheable reply is what
      the shell namespace then reads under `key`, and no other entry moves. */
  function Revalidate(ready: Storage, key: string, cached: Option<Response>, net: NetOutcome): (r: Outcome)
    requires AppCache in ready
    ensures net.Received? ==> r.reply == Served(net.response)
    ensures net.Failed? && cached.Some? ==> r.reply == Served(cached.value)
    ensures net.Failed? && cached.None? ==> r.reply == Undefined
    ensures r.store.Keys == ready.Keys
    ensures net.Cacheable() ==> Match(r.store, AppCache, key) == Some(net.response)
    ensures !net.Cacheable() ==> Match(r.store, AppCache, key) == Match(ready, AppCache, key)
    ensures SameEntriesExcept(ready, r.store, AppCache, key)
  {
    match net
    case Failed => Outcome(if cached.Some? then Served(cached.value) else Undefined, ready)
    case Received(response) =>
      Outcome(Served(response), if response.Ok() then Put(ready, AppCache, key, response) else ready)
  }

  /** Stale-while-revalidate: a cached entry is served whatever the network
      does, and a cacheable network reply refreshes the entry in every case. */
  function StaleWhileRevalidate(store: Storage, key: string, net: NetOutcome): (r: Outcome)
    ensures Confined(store, r.store, AppCache)
    ensures Match(store, AppCache, key).Some? ==> r.reply == Served(Match(store, AppCache, key).value)
    ensures Match(store, AppCache, key).None? && net.Received? ==> r.reply == Served(net.response)
    ensures Match(store, AppCache, key).None? && net.Failed? ==> r.reply == Undefined
    ensures net.Cacheable() ==>
      && Match(r.store, AppCache, key) == Some(net.response)
      && SameEntriesExcept(store, r.store, AppCache, key)
    ensures !net.Cacheable() ==> r.store == Open(store, AppCache)
    ensures AllOk(store) ==> AllOk(r.store)
  {
    var ready := Open(store, AppCache);
    var cached := Match(ready, AppCache, key);
    var network := Revalidate(ready, key, cached, net);
    Outcome(if cached.Some? then Served(cached.value) else network.reply, network.store)
  }

  /** On a hit, cache-first gives the same reply and store whatever the
      network would have done: the network is never consulted. */
  lemma CacheFirstHitIgnoresNetwork(store: Storage, key: string, net1: NetOutcome, net2: NetOutcome)
    requires Match(store, AudioCache, key).Some?
    ensures CacheFirstAudio(store, key, net1) == CacheFirstAudio(store, key, net2)
  {
  }

  /** A cacheable response fetched on a miss persists: the next request for
      the same identity is a hit on that response, even with the network
      down, and changes nothing. */
  lemma CacheFirstMissThenHit(store: Storage, key: string, net: NetOutcome, later: NetOutcome)
    requires Match(store, AudioCache, key).None?
    requires net.Cacheable()
    ensures var first := CacheFirstAudio(store, key, net);
      CacheFirstAudio(first.store, key, later) == Outcome(Served(net.response), first.store)
  {
  }

  /** A partial (206) response on a miss reaches the page but is not kept:
      the next request misses again. */
  lemma PartialAudioNotKept(store: Storage, key: string, response: Response)
    requires Match(store, AudioCache, key).None?
    requires response.status == 206
    ensures var first := CacheFirstAudio(store, key, Received(response));
      && first.reply == Served(response)
      && Match(first.store, AudioCache, key).None?
  {
  }

  /** With a cached entry, the reply of stale-while-revalidate does not
      depend on the network; only the refreshed store does. */
  lemma RevalidateReplyIgnoresNetwork(store: Storage, key: string, net1: NetOutcome, net2: NetOutcome)
    requires Match(store, AppCache, key).Some?
    ensures StaleWhileRevalidate(store, key, net1).reply == StaleWhileRevalidate(store, key, net2).reply
  {
  }

  /** A miss while offline resolves to `undefined` even when the shell
      document (stored under `shell`, the resolved "./index.html") is
      cached: there is no navigation fallback. */
  lemma NoNavigationFallback(store: Storage, key: string, shell: string)
    requires Match(store, AppCache, key).None?
    requires Match(store, AppCache, shell).Some?
    ensures StaleWhileRevalidate(store, key, Failed).reply == Undefined
  {
  }

  /** A cacheable refresh is what the next request for that shell asset is
      served, with or without the network. */
  lemma RevalidatedEntryServedNext(store: Storage, key: string, net: NetOutcome, later: NetOutcome)
    requires net.Cacheable()
    ensures var first := StaleWhileRevalidate(store, key, net);
      StaleWhileRevalidate(first.store, key, later).reply == Served(net.response)
  {
  }
}
