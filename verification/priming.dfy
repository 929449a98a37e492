/** The priming channel: a message from the controlling page asking the
    worker to fetch one audio file into the audio namespace ahead of use. */
module Priming {
  import opened Config
  import opened Store
  import opened Strategies
  import opened Router

  /** The fields of a message payload the worker reads; an absent field is
      `None`. A payload that is missing or not an object is modelled as a
      `None` payload. */
  datatype MessageData = MessageData(kind: Option<string>, url: Option<string>)

  datatype Primed = Primed(fetched: bool, store: Storage)

  /** A priming instruction: the type is "CACHE_AUDIO" and the url is a
      non-empty string. */
  predicate IsInstruction(data: Option<MessageData>) {
    && data.Some?
    && data.value.kind == Some("CACHE_AUDIO")
    && data.value.url.Some?
    && data.value.url.value != ""
  }

  /** The message handler. `resolve` is URL parsing against the worker's
      scope (`None` when it throws); `net` is the outcome of the forced
      reload fetch, consulted only when `fetched` is true. An ok response is
      put; a partial one is refused by the store. */
  function HandleMessage(store: Storage, data: Option<MessageData>, selfOrigin: string,
                         resolve: string -> Option<Url>, net: NetOutcome): (r: Primed)
    ensures !IsInstruction(data) ==> r == Primed(false, store)
    ensures IsInstruction(data) && resolve(data.value.url.value).None? ==> r == Primed(false, store)
    ensures IsInstruction(data) && resolve(data.value.url.value).Some? ==>
      var target := resolve(data.value.url.value).value;
      && (target.origin != selfOrigin ==> r == Primed(false, store))
      && (target.origin == selfOrigin && Match(store, AudioCache, target.href).Some? ==>
            r == Primed(false, store))
      && (target.origin == selfOrigin && Match(store, AudioCache, target.href).None? ==>
            && r.fetched
            && Confined(store, r.store, AudioCache)
            && (net.Cacheable() ==>
                  Match(r.store, AudioCache, target.href) == Some(net.response)
                  && SameEntriesExcept(store, r.store, AudioCache, target.href))
            && (!net.Cacheable() ==> r.store == Open(store, AudioCache)))
    ensures AllOk(store) ==> AllOk(r.store)
  {
    if !IsInstruction(data) then Primed(false, store)
    else match resolve(data.value.url.value)
      case None => Primed(false, store)
      case Some(target) =>
        if target.origin != selfOrigin then Primed(false, store)
        else
          var ready := Open(store, AudioCache);
          if Match(ready, AudioCache, target.href).Some? then Primed(false, ready)
          else if net.Succeeded() then Primed(true, Put(ready, AudioCache, target.href, net.response))
          else Primed(true, ready)
  }

  /** Priming the same URL twice: once the first has stored an entry, the
      second issues no fetch and changes nothing, so exactly the first
      response sits under that identity. */
  lemma PrimeTwiceIdempotent(store: Storage, data: Option<MessageData>, selfOrigin: string,
                             resolve: string -> Option<Url>, net1: NetOutcome, net2: NetOutcome)
    requires IsInstruction(data) && resolve(data.value.url.value).Some?
    requires resolve(data.value.url.value).value.origin == selfOrigin
    requires net1.Cacheable()
    ensures var first := HandleMessage(store, data, selfOrigin, resolve, net1);
      var second := HandleMessage(first.store, data, selfOrigin, resolve, net2);
      && second == Primed(false, first.store)
      && Match(second.store, AudioCache, resolve(data.value.url.value).value.href).Some?
  {
  }

  /** A primed audio file is then served by the fetch handler with the
      network down: priming and cache-first share one identity, the href. */
  lemma PrimedAudioPlaysOffline(store: Storage, data: Option<MessageData>, selfOrigin: string,
                                resolve: string -> Option<Url>, net: NetOutcome, req: Request)
    requires IsInstruction(data) && resolve(data.value.url.value) == Some(req.url)
    requires req.url.origin == selfOrigin && req.verb == "GET" && IsAudioPath(req.url.pathname)
    requires Match(store, AudioCache, req.url.href).None? && net.Cacheable()
    ensures var primed := HandleMessage(store, data, selfOrigin, resolve, net);
      HandleFetch(primed.store, req, selfOrigin, Failed).dispatch == Responded(Served(net.response))
  {
  }
}
