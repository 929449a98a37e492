# Offline caching policy of the Athkar service worker, in Dafny

The worker in `sw.js` intercepts the page's requests and serves them from
two versioned cache namespaces: `athkar-ui-v1` for the application shell
(stale-while-revalidate) and `athkar-audio-v1` for audio recordings
(cache-first). On install it stores the shell manifest, all or nothing. On
activate it deletes every namespace of another version. It also accepts
`CACHE_AUDIO` messages that fetch one audio file into the audio namespace
before it is played.

This project models that policy as pure transitions over an abstract cache
store. The store is `map<string, map<string, Response>>`, from namespace name
to request identity (the absolute URL) to a captured response. The network
is an input, not an effect: `Received(response)` for a response of any
status, or `Failed` for a rejected fetch. A response counts as ok when its
status is in 200..299, which is the worker's test before it writes. Cache
Storage itself refuses a partial (206) response, so an ok response is
*cacheable* only when its status is not 206. Each transition returns the
reply the page gets and the store after the worker's write has landed.

Modules, one per component:

- `config.dfy` (`Config`): the version token, the two namespace names and the shell manifest.
- `store.dfy` (`Store`): the store, the `open`/`match`/`put`/`delete` operations, responses and network outcomes.
- `strategies.dfy` (`Strategies`): cache-first and stale-while-revalidate.
- `lifecycle.dfy` (`Lifecycle`): install (`addAll`) and activate (eviction of stale namespaces).
- `router.dfy` (`Router`): request classification and the fetch handler.
- `priming.dfy` (`Priming`): the `CACHE_AUDIO` message handler.

Two behaviours of the worker are modelled as written:

- The worker has no navigation fallback. An offline UI miss resolves to `undefined` even when './index.html' is cached (sw.js:85-87; `Strategies.NoNavigationFallback`).
- Priming does not refetch an already cached URL (sw.js:41-42).

A namespace that the worker opens is created empty if it is absent, as
`caches.open` does. So a request that writes nothing can still leave a new,
empty namespace behind, and the contracts say so (`Open(store, name)`). The
invariant "every stored entry is ok" (`AllOk`) is preserved by every
transition.

## Model

| member | source | states |
|---|---|---|
| Store.Open | sw.js:15 | opening a namespace adds exactly that name, creating it empty when absent, and leaves every existing namespace as it was |
| Store.Match | sw.js:92 | definition of a lookup: the stored entry when the namespace exists and holds the key, nothing otherwise (the read-back law is stated on `Store.Put`) |
| Store.Put | sw.js:97 | a storable response reads back under the key afterwards; a partial (206) response is refused and nothing changes; in both cases every other entry of every namespace reads as before |
| Store.Delete | sw.js:26 | deleting a namespace removes exactly that name and keeps every other namespace intact |
| Lifecycle.Requests | sw.js:5-15 | the manifest entries resolved against the worker script's URL, in order; every entry's resolved URL is among the requests |
| Lifecycle.StoreAll | sw.js:15 | the batch is written exactly when every fetch is cacheable; then the cache holds each request's response and otherwise its old entries |
| Lifecycle.AddAll | sw.js:15 | the batch succeeds exactly when no request is listed twice and every fetch is cacheable; then each request holds its response and every other entry is kept |
| Lifecycle.InstallAssets | sw.js:13-16 | install succeeds iff the resolved requests are distinct and every fetch is cacheable; on success every asset is in the shell namespace under its resolved URL, no other entry changed and no namespace other than the shell one was created or changed; on failure only the opened shell namespace remains as a trace; entries stay ok |
| Lifecycle.Install | sw.js:5-16 | the same all-or-nothing contract, including the namespace-level frame, for the fixed five-asset manifest |
| Lifecycle.InstallOnlineStoresShell | sw.js:5-15 | with distinct resolved URLs and every fetch cacheable, install succeeds and the resolved URLs of all five of './', './index.html', './style.css', './app.js', './manifest.json' are present |
| Lifecycle.InstallAllOrNothing | sw.js:15 | one failing asset fails the install and no entry of any namespace changes |
| Lifecycle.InstallRejectsDuplicates | sw.js:15 | any two manifest entries resolving to one URL fail the install, whatever the network does |
| Lifecycle.InstalledShellServedOffline | sw.js:15 | after an install with every fetch cacheable, the fetch handler serves each shell asset from the shell namespace while offline, to a same-origin UI request for its resolved URL |
| Lifecycle.StaleNames | sw.js:24-25 | a name is kept by the filter exactly when it was listed and is neither current namespace |
| Lifecycle.DeleteAll | sw.js:23-26 | after deleting the listed namespaces, exactly the unlisted ones survive, unchanged |
| Lifecycle.Reclaim | sw.js:22-28 | after reclamation a namespace survives iff it existed and is current or unlisted; survivors are unchanged |
| Lifecycle.CacheNames | sw.js:22 | the enumeration lists every namespace name exactly once |
| Lifecycle.ReclaimIsEviction | sw.js:22-28 | reclaiming over any complete enumeration equals the store restricted to the two current namespaces |
| Lifecycle.Activate | sw.js:20-29 | after activation only the current namespaces exist, each untouched; every entry of a stale namespace is unreachable; entries stay ok |
| Lifecycle.EvictionIdempotent | sw.js:25 | activating twice is the same as activating once |
| Strategies.CacheFirstAudio | sw.js:90-100 | a hit returns the stored entry with the store unchanged; a miss returns the network reply, stores it only when cacheable, propagates a failure as a rejection; only the audio namespace is touched |
| Strategies.CacheFirstHitIgnoresNetwork | sw.js:91-93 | on a hit reply and store are the same whatever the network outcome |
| Strategies.CacheFirstMissThenHit | sw.js:95-99 | a cacheable response fetched on a miss is served by the next request, even offline, with no change to the store |
| Strategies.PartialAudioNotKept | sw.js:95-99 | a partial (206) response on a miss reaches the page but is not stored, so the next request misses again |
| Strategies.Revalidate | sw.js:78-85 | the network branch settles to the network reply, or on a rejection to the cached entry or `undefined`; afterwards the shell namespace reads the reply under the key when it is cacheable and the old entry otherwise, and no other entry or namespace changes |
| Strategies.StaleWhileRevalidate | sw.js:74-88 | a cached entry is served whatever the network does; on a miss the network reply, or `undefined` when it fails; a cacheable reply overwrites the shell entry, anything else leaves the store as opened; only the shell namespace is touched |
| Strategies.RevalidateReplyIgnoresNetwork | sw.js:87 | with a cached entry the reply does not depend on the network outcome |
| Strategies.NoNavigationFallback | sw.js:85-87 | an offline miss resolves to `undefined` even when the shell document is cached under another key |
| Strategies.RevalidatedEntryServedNext | sw.js:80-81 | a cacheable refresh is served to the next request for that asset, online or not |
| Router.Includes | sw.js:60 | the substring scan answers true exactly when the marker occurs at some position of the path |
| Router.IsUiRequest | sw.js:61 | definition of a UI-shaped request: a navigation, or a destination of 'style', 'script' or 'document'; its consequences are stated on `Router.Classify` |
| Router.Classify | sw.js:53-72 | a request is audio iff it is a same-origin GET whose path holds '/audios/' or '/audios2/'; UI iff a same-origin GET, not audio, that is a navigation or a style/script/document fetch; pass-through otherwise |
| Router.HandleFetch | sw.js:53-72 | a request is left alone iff it classifies as pass-through, and then the store is unchanged; an audio request gets exactly the reply and store of cache-first, a UI request those of stale-while-revalidate, each touching only its own namespace |
| Router.ForeignRequestsPassThrough | sw.js:55-58 | a non-GET or cross-origin request is not intercepted, whatever the store and the network, and no namespace changes |
| Router.AudioWinsOverUi | sw.js:60-66 | a same-origin GET whose path holds either audio marker is handled by cache-first even when it is also a navigation or a style/script/document fetch |
| Router.AudioMarkerAnywhere | sw.js:60 | example: the markers may sit anywhere in the path, so '/app/audios/x.mp3' and '/app/audios2/x.mp3' are audio paths |
| Priming.IsInstruction | sw.js:34-35 | definition of a priming instruction: a present payload of type 'CACHE_AUDIO' whose url is a non-empty string; its consequences are stated on `Priming.HandleMessage` |
| Priming.HandleMessage | sw.js:33-51 | only a 'CACHE_AUDIO' message with a non-empty, parsable, same-origin URL acts; an already cached URL is not fetched and nothing changes; on a miss a cacheable response is stored under the href and nothing else changes |
| Priming.PrimeTwiceIdempotent | sw.js:41-47 | priming a URL a second time after a stored first priming fetches nothing and changes nothing |
| Priming.PrimedAudioPlaysOffline | sw.js:36-46 | a primed audio URL is served cache-first by the fetch handler with the network down |
| Config.NamespacesDistinct | sw.js:2-3 | the shell and audio namespace names differ |

## Left out

- Host runtime calls: `event.waitUntil`, `respondWith`, `skipWaiting` and `clients.claim` are not modelled. Each handler's result is taken to be fully settled before the next step.
- Real Cache Storage and `fetch`: the store is a map, and each network fetch is an input outcome. For install, the input is a function from resolved URL to outcome.
- Detached writes: the `cache.put` calls in both strategies (sw.js:81, sw.js:97) are not awaited. They are modelled as landing right after the network settles. Interleavings of overlapping requests, and last-write-wins races between them, are not modelled.
- URL parsing: `new URL(...)` follows the WHATWG URL Standard and is abstracted. A request carries an already-parsed `{origin, pathname, href}`. Priming takes the parser as a parameter, where `None` means it threw. Install takes as a parameter the resolution of manifest entries, which `addAll` parses against the worker script's URL when it builds each request.
- Fragments: Cache Storage drops the URL fragment before matching or storing, so `a.mp3#t=5` and `a.mp3` share one entry. The model compares whole hrefs, fragment included.
- Cache keys: apart from fragments, the keys are compared as whole URL strings. Query and Vary matching rules are not modelled, and neither is the refusal of a response carrying `Vary: *`.
- Responses: a response is a status and an opaque body. `clone()`, body streams and the `{ cache: 'reload' }` request option carry no policy and are not modelled.
- Message payloads: a payload that is absent or not an object is `None`. `type` and `url` are modelled as optional strings. A url counts as truthy exactly when it is a non-empty string, so non-string `url` values are not modelled.
