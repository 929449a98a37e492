/** The fetch interception point: classifies a request by method, origin,
    path and declared purpose, and dispatches it to a strategy or lets it
    pass through to the network untouched. */
module Router {
  import opened Config
  import opened Store
  import opened Strategies

  /** A parsed URL, reduced to the parts the worker reads. */
  datatype Url = Url(origin: string, pathname: string, href: string)

  datatype Request = Request(verb: string, url: Url, mode: string, destination: string)

  datatype Route = Passthrough | Audio | UI

  /** Reference meaning of substring containment: `needle` starts at some
      position of `haystack`. */
  ghost predicate Occurs(needle: string, haystack: string) {
    exists i :: 0 <= i <= |haystack| && needle <= haystack[i..]
  }

  /** When `needle` does not start `haystack`, it occurs in `haystack`
      exactly when it occurs in the tail. */
  lemma OccursInTail(needle: string, haystack: string)
    requires |haystack| > 0 && !(needle <= haystack)
    ensures Occurs(needle, haystack) <==> Occurs(needle, haystack[1..])
  {
    if Occurs(needle, haystack[1..]) {
      var i :| 0 <= i <= |haystack[1..]| && needle <= haystack[1..][i..];
      assert haystack[1..][i..] == haystack[i + 1..];
    }
    if Occurs(needle, haystack) {
      var i :| 0 <= i <= |haystack| && needle <= haystack[i..];
      assert i != 0 by { assert haystack[0..] == haystack; }
      assert haystack[1..][i - 1..] == haystack[i..];
    }
  }

  /** `haystack.includes(needle)`, as a left-to-right scan: true exactly
      when `needle` occurs somewhere in `haystack`. */
  function Includes(haystack: string, needle: string): (r: bool)
    ensures r <==> Occurs(needle, haystack)
    decreases |haystack|
  {
    if needle <= haystack then
      assert haystack[0..] == haystack;
      true
    else if |haystack| == 0 then
      assert haystack[0..] == haystack;
      false
    else
      OccursInTail(needle, haystack);
      Includes(haystack[1..], needle)
  }

  /** Reference meaning of an audio path: one of the two audio directory
      markers occurs in it. */
  ghost predicate IsAudioPath(path: string) {
    Occurs("/audios/", path) || Occurs("/audios2/", path)
  }

  /** A request for the application shell: a navigation, or a fetch of a
      style sheet, script or document. */
  predicate IsUiRequest(req: Request) {
    req.mode == "navigate" || req.destination in ["style", "script", "document"]
  }

  /** The classifier. Non-GET and cross-origin requests pass through; an
      audio path wins over the shell test; a request that is neither passes
      through as well. */
  function Classify(req: Request, selfOrigin: string): (r: Route)
    ensures r == Audio <==>
      req.verb == "GET" && req.url.origin == selfOrigin && IsAudioPath(req.url.pathname)
    ensures r == UI <==>
      req.verb == "GET" && req.url.origin == selfOrigin && !IsAudioPath(req.url.pathname) && IsUiRequest(req)
    ensures r == Passthrough <==>
      req.verb != "GET" || req.url.origin != selfOrigin || (!IsAudioPath(req.url.pathname) && !IsUiRequest(req))
  {
    if req.verb != "GET" then Passthrough
    else if req.url.origin != selfOrigin then Passthrough
    else if Includes(req.url.pathname, "/audios/") || Includes(req.url.pathname, "/audios2/") then Audio
    else if IsUiRequest(req) then UI
    else Passthrough
  }

  /** Whether the worker answered the request, and with what. */
  datatype Dispatch = NotIntercepted | Responded(reply: Reply)

  datatype Handled = Handled(dispatch: Dispatch, store: Storage)

  /** The fetch handler. A request it does not intercept reads and writes
      no namespace; an audio request touches only the audio namespace and
      a shell request only the shell namespace. */
  function HandleFetch(store: Storage, req: Request, selfOrigin: string, net: NetOutcome): (r: Handled)
    ensures r.dispatch.NotIntercepted? <==> Classify(req, selfOrigin) == Passthrough
    ensures r.dispatch.NotIntercepted? ==> r.store == store
    ensures Classify(req, selfOrigin) == Audio ==>
      && Confined(store, r.store, AudioCache)
      && (Match(store, AudioCache, req.url.href).Some? ==>
            r == Handled(Responded(Served(Match(store, AudioCache, req.url.href).value)), store))
    ensures Classify(req, selfOrigin) == UI ==>
      && Confined(store, r.store, AppCache)
      && (Match(store, AppCache, req.url.href).Some? ==>
            r.dispatch == Responded(Served(Match(store, AppCache, req.url.href).value)))
    ensures Classify(req, selfOrigin) == Audio ==>
      var out := CacheFirstAudio(store, req.url.href, net);
      r == Handled(Responded(out.reply), out.store)
    ensures Classify(req, selfOrigin) == UI ==>
      var out := StaleWhileRevalidate(store, req.url.href, net);
      r == Handled(Responded(out.reply), out.store)
    ensures AllOk(store) ==> AllOk(r.store)
  {
    match Classify(req, selfOrigin)
    case Passthrough => Handled(NotIntercepted, store)
    case Audio =>
      var out := CacheFirstAudio(store, req.url.href, net);
      Handled(Responded(out.reply), out.store)
    case UI =>
      var out := StaleWhileRevalidate(store, req.url.href, net);
      Handled(Responded(out.reply), out.store)
  }

  /** A non-GET or cross-origin request is not intercepted, whatever the
      store holds and whatever the network would do: no namespace is read. */
  lemma ForeignRequestsPassThrough(store1: Storage, store2: Storage, req: Request, selfOrigin: string, net1: NetOutcome, net2: NetOutcome)
    requires req.verb != "GET" || req.url.origin != selfOrigin
    ensures HandleFetch(store1, req, selfOrigin, net1) == Handled(NotIntercepted, store1)
    ensures HandleFetch(store2, req, selfOrigin, net2) == Handled(NotIntercepted, store2)
  {
  }

  /** A same-origin GET for an audio path is handed to cache-first even
      when it is also a navigation or a style/script/document fetch. */
  lemma AudioWinsOverUi(store: Storage, req: Request, selfOrigin: string, net: NetOutcome)
    requires req.verb == "GET" && req.url.origin == selfOrigin
    requires IsUiRequest(req)
    requires IsAudioPath(req.url.pathname)
    ensures var out := CacheFirstAudio(store, req.url.href, net);
      HandleFetch(store, req, selfOrigin, net) == Handled(Responded(out.reply), out.store)
  {
  }

  /** Example: the audio markers may sit anywhere in the path, not only at
      its start, so "/app/audios/x.mp3" and "/app/audios2/x.mp3" are audio
      paths. */
  lemma AudioMarkerAnywhere()
    ensures IsAudioPath("/app/audios/x.mp3")
    ensures IsAudioPath("/app/audios2/x.mp3")
  {
    assert "/audios/" <= "/app/audios/x.mp3"[4..];
    assert "/audios2/" <= "/app/audios2/x.mp3"[4..];
  }
}
