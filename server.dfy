/**
 * The HTTP/RTMP front of the relay: the key check in front of /api, request
 * routing with the warm-up page, the stream map of /api/nms/streams, and the
 * RTMP publish/unpublish callbacks that drive the orchestrator and push
 * state to the dashboards.
 */
module Server {
  import opened Text
  import opened Db
  import opened Source
  import opened Manager
  import opened Ws

  // ---------------------------------------------------------------------------
  // The /api key check

  /** The key a request presents: the `x-stream-key` header, or the `streamKey` cookie when the header is absent or empty. */
  function PresentedKey(header: Option<string>, cookie: Option<string>): (k: Option<string>)
    ensures Present(header) ==> k == header
    ensures !Present(header) ==> k == cookie
  {
    if Present(header) then header else cookie
  }

  /**
   * The /api middleware lets a request through exactly when a non-empty key
   * is stored and the presented key equals it.
   */
  function ApiAuthorized(header: Option<string>, cookie: Option<string>, stored: Option<string>): (ok: bool)
    ensures ok ==> Present(stored)
    ensures Present(stored) && Present(header) ==> (ok <==> header == stored)
    ensures Present(stored) && !Present(header) ==> (ok <==> cookie == stored)
  {
    Present(stored) && PresentedKey(header, cookie) == stored
  }

  /** A non-empty header that is wrong shadows a correct cookie: the request is refused. */
  lemma HeaderShadowsCookie(header: string, stored: string)
    requires header != "" && header != stored
    ensures !ApiAuthorized(Some(header), Some(stored), Some(stored))
  {
  }

  // ---------------------------------------------------------------------------
  // Routing

  /** Where a request ends up. */
  datatype Route =
    | SetupApi      // the /api/setup router, no key needed
    | ApiRejected   // 401 from the key check
    | Api           // one of the protected routers
    | WarmUp        // the "starting up" page
    | NextJs        // the Next.js request handler

  /** Express mounting: the path is the mount point itself or lies below it. */
  predicate Mounted(path: string, mount: string)
  {
    path == mount || StartsWith(path, mount + "/")
  }

  /**
   * The middleware chain for a request path. `setupAnswers` and
   * `apiAnswers` say whether the setup router, respectively one of the
   * protected routers, has a handler for the path; a request no router
   * answers falls through to the last handler.
   */
  function RouteRequest(path: string, setupAnswers: bool, apiAnswers: bool, authorized: bool, nextReady: bool)
    : (r: Route)
    ensures Mounted(path, "/api/setup") && setupAnswers ==> r == SetupApi
    ensures r == SetupApi ==> Mounted(path, "/api/setup")
    ensures r == Api ==> authorized && Mounted(path, "/api")
    ensures Mounted(path, "/api") && !authorized && !(Mounted(path, "/api/setup") && setupAnswers) ==> r == ApiRejected
    ensures r == WarmUp ==> !nextReady && !StartsWith(path, "/api/") && !StartsWith(path, "/_next/")
    ensures !Mounted(path, "/api") ==>
              (r == WarmUp <==> !nextReady && !StartsWith(path, "/_next/")) &&
              (r == NextJs <==> nextReady || StartsWith(path, "/_next/"))
  {
    if Mounted(path, "/api/setup") && setupAnswers then SetupApi
    else if Mounted(path, "/api") && !authorized then ApiRejected
    else if Mounted(path, "/api") && apiAnswers then Api
    else if !nextReady && !StartsWith(path, "/api/") && !StartsWith(path, "/_next/") then WarmUp
    else NextJs
  }

  /** A path under /api/ is never the warm-up page, ready or not. */
  lemma ApiNeverWarmUp(path: string, setupAnswers: bool, apiAnswers: bool, authorized: bool, nextReady: bool)
    requires StartsWith(path, "/api/")
    ensures RouteRequest(path, setupAnswers, apiAnswers, authorized, nextReady) != WarmUp
  {
  }

  // ---------------------------------------------------------------------------
  // /api/nms/streams

  /** `sp.replace(/^\/live\//, '')`: the prefix is removed only at the start. */
  function StripLive(p: string): (k: string)
    ensures StartsWith(p, "/live/") ==> "/live/" + k == p
    ensures !StartsWith(p, "/live/") ==> k == p
  {
    if StartsWith(p, "/live/") then p[6..] else p
  }

  /** The keys of the `live` object: one per active stream path, with its prefix stripped. */
  function LiveKeys(streams: set<string>): (keys: set<string>)
    ensures forall p :: p in streams ==> StripLive(p) in keys
    ensures forall k :: k in keys ==> exists p :: p in streams && StripLive(p) == k
  {
    set p | p in streams :: StripLive(p)
  }

  /** The stream OBS publishes under `/live/<key>` is listed under its key. */
  lemma PublishedKeyListed(streams: set<string>, key: string)
    requires "/live/" + key in streams
    ensures key in LiveKeys(streams)
  {
    var p := "/live/" + key;
    assert StartsWith(p, "/live/");
    assert p[6..] == key;
  }

  /** `/live/${key}` with the stored key; a missing key prints as "null". */
  function IngestPath(stored: Option<string>): (p: string)
    ensures StartsWith(p, "/live/") && StripLive(p) == (if stored.Some? then stored.value else "null")
  {
    "/live/" + (if stored.Some? then stored.value else "null")
  }

  // ---------------------------------------------------------------------------
  // The server process

  class Relay {
    /** Set once Next.js has prepared. */
    var nextReady: bool
    const obs: ObsFlag
    const manager: Orchestrator
    const hub: Hub
    /** STREAM_KEY of the process configuration, which the WebSocket gate compares with. */
    const configuredKey: string

    ghost predicate Valid()
      reads this, manager, manager.source, manager.master
    {
      hub.manager == manager && hub.obs == obs && manager.Valid()
    }

    constructor (store: Store, videosDir: string, configuredKey: string)
      ensures Valid() && !nextReady && !obs.value && hub.clients == [] && hub.reconnects == 0
      ensures manager.store == store && !manager.broadcastActive && this.configuredKey == configuredKey
      ensures fresh(obs) && fresh(manager) && fresh(hub) && fresh(manager.source) && fresh(manager.master)
    {
      nextReady := false;
      this.configuredKey := configuredKey;
      var flag := new ObsFlag(false);
      var orchestrator := new Orchestrator(store, videosDir);
      obs := flag;
      manager := orchestrator;
      hub := new Hub(orchestrator, flag);
    }

    /** The route of a request, with the key check made against the stored key. */
    function Route(path: string, setupAnswers: bool, apiAnswers: bool, header: Option<string>, cookie: Option<string>)
      : (r: Route)
      reads this, manager.store
      ensures r == Api ==> Present(manager.store.GetStreamKeyDb())
      ensures r == WarmUp ==> !nextReady
    {
      RouteRequest(path, setupAnswers, apiAnswers, ApiAuthorized(header, cookie, manager.store.GetStreamKeyDb()), nextReady)
    }

    /** Next.js has finished preparing: from now on no request gets the warm-up page. */
    method MarkNextReady()
      modifies this
      ensures nextReady
      ensures forall path, s, a, h, c :: Route(path, s, a, h, c) != WarmUp
    {
      nextReady := true;
    }

    /** An upgrade request: accepted sockets join the hub and get the current state. */
    method Upgrade(url: Option<string>, cookieHeader: Option<string>, queryKey: Option<string>)
      returns (r: Ws.Upgrade, id: Option<nat>)
      requires Valid()
      modifies hub
      ensures r == UpgradeDecision(url, cookieHeader, queryKey, configuredKey)
      ensures r == Accepted ==> id == Some(|old(hub.clients)|) && hub.clients == old(hub.clients) + [Client(Open, [hub.State()])]
      ensures r != Accepted ==> id.None? && hub.clients == old(hub.clients)
      ensures hub.reconnects == old(hub.reconnects)
    {
      r := UpgradeDecision(url, cookieHeader, queryKey, configuredKey);
      id := None;
      if r == Accepted {
        var i := hub.Connect();
        id := Some(i);
      }
    }

    /**
     * RTMP publish: only for exactly `/live/<stored key>` is OBS marked
     * connected, handleObsConnect run and the state pushed; any other path
     * changes nothing.
     */
    method OnPublish(streamPath: string)
      requires Valid()
      modifies obs, manager, hub
      ensures Valid()
      ensures streamPath == IngestPath(manager.store.GetStreamKeyDb()) ==>
                obs.value && manager.currentSource == Obs &&
                manager.broadcastActive == old(manager.broadcastActive) &&
                manager.pending == old(manager.pending) +
                  (if manager.broadcastActive then [StartObsSource(manager.StreamKey())] else []) &&
                SentToOpen(old(hub.clients), hub.clients, hub.State())
      ensures streamPath != IngestPath(manager.store.GetStreamKeyDb()) ==> unchanged(obs, manager, hub)
    {
      if streamPath == IngestPath(manager.store.GetStreamKeyDb()) {
        obs.value := true;
        manager.HandleObsConnect();
        hub.BroadcastState();
      }
    }

    /** OBS has stopped publishing: the flag is cleared and handleObsDisconnect runs. */
    method ObsGone()
      requires Valid()
      modifies obs, manager, manager.source
      ensures Valid() && !obs.value && manager.broadcastActive == old(manager.broadcastActive)
      ensures old(manager.broadcastActive) && old(manager.currentSource) == Obs ==>
                manager.currentSource == Fallback && manager.source.source.Some?
      ensures !(old(manager.broadcastActive) && old(manager.currentSource) == Obs) ==>
                manager.currentSource == old(manager.currentSource)
    {
      obs.value := false;
      manager.HandleObsDisconnect();
    }

    /**
     * RTMP unpublish: only for the same exact path is OBS marked
     * disconnected, handleObsDisconnect run and the state pushed.
     */
    method OnUnpublish(streamPath: string)
      requires Valid()
      modifies obs, manager, manager.source, hub
      ensures Valid()
      ensures streamPath == IngestPath(manager.store.GetStreamKeyDb()) ==>
                !obs.value && manager.broadcastActive == old(manager.broadcastActive) &&
                (old(manager.broadcastActive) && old(manager.currentSource) == Obs ==>
                   manager.currentSource == Fallback && manager.source.source.Some?) &&
                (!(old(manager.broadcastActive) && old(manager.currentSource) == Obs) ==>
                   manager.currentSource == old(manager.currentSource)) &&
                SentToOpen(old(hub.clients), hub.clients, hub.State())
      ensures streamPath != IngestPath(manager.store.GetStreamKeyDb()) ==> unchanged(obs, manager, manager.source, hub)
    {
      if streamPath == IngestPath(manager.store.GetStreamKeyDb()) {
        ObsGone();
        hub.BroadcastState();
      }
    }

    /** The manager's 'started' and 'stopped' events: broadcastFullState. */
    method OnManagerEvent()
      requires Valid()
      modifies hub
      ensures Valid()
      ensures SentToOpen(old(hub.clients), hub.clients, hub.State())
    {
      hub.BroadcastState();
    }
  }

  /** Before setup has stored a key, a publish to "/live/null" is taken for OBS. */
  lemma NullKeyIngest()
    ensures IngestPath(None) == "/live/null"
    ensures forall key :: IngestPath(Some(key)) == IngestPath(None) <==> key == "null"
  {
    forall key | IngestPath(Some(key)) == IngestPath(None) ensures key == "null" {
      assert StripLive(IngestPath(Some(key))) == key;
    }
  }
}
