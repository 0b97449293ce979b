/**
 * The WebSocket side of the relay: the Cookie header parser, the upgrade
 * gate, and the connection handler that pushes STATE messages and hands the
 * dashboard's commands to the orchestrator.
 */
module Ws {
  import opened Text
  import opened Db
  import opened Source
  import opened Manager

  // ---------------------------------------------------------------------------
  // The Cookie header

  /** One ';'-separated piece, trimmed: the name before the first '=', the rest rejoined with '='. */
  function CookieEntry(piece: string): (string, string)
  {
    var parts := Split(Trim(piece), '=');
    (parts[0], Join(parts[1..], '='))
  }

  /** The name ends at the first '=' of the trimmed piece and the value is all that follows it ("" when there is none). */
  lemma CookieEntryAtFirstEquals(piece: string)
    ensures var t := Trim(piece);
            var i := IndexOf(t, '=');
            CookieEntry(piece) == (t[..i], if i < |t| then t[i + 1..] else "")
  {
    SplitHeadTail(Trim(piece), '=');
  }

  /** Object.fromEntries: the entries applied in order, a later name replacing an earlier one. */
  function FromEntries(entries: seq<(string, string)>): (m: map<string, string>)
    ensures forall k :: k in m <==> exists i :: 0 <= i < |entries| && entries[i].0 == k
  {
    if entries == [] then map[]
    else
      var n := |entries| - 1;
      var m := FromEntries(entries[..n]);
      assert forall i :: 0 <= i < n ==> entries[..n][i] == entries[i];
      m[entries[n].0 := entries[n].1]
  }

  /** A name maps to the value of its last entry. */
  lemma {:induction false} FromEntriesLast(entries: seq<(string, string)>, i: nat)
    requires i < |entries|
    requires forall j :: i < j < |entries| ==> entries[j].0 != entries[i].0
    ensures entries[i].0 in FromEntries(entries) && FromEntries(entries)[entries[i].0] == entries[i].1
  {
    var n := |entries| - 1;
    if i < n {
      assert entries[..n][i] == entries[i];
      FromEntriesLast(entries[..n], i);
    }
  }

  /** The entries of a header, one per ';'-separated piece. */
  function CookieEntries(raw: string): (r: seq<(string, string)>)
    ensures |r| == |Split(raw, ';')|
  {
    var pieces := Split(raw, ';');
    seq(|pieces|, i requires 0 <= i < |pieces| => CookieEntry(pieces[i]))
  }

  /**
   * parseCookies: an absent or empty header is the empty record; otherwise
   * every name found in a piece is a key.
   */
  function ParseCookies(raw: Option<string>): (m: map<string, string>)
    ensures !Present(raw) ==> m == map[]
    ensures Present(raw) ==>
              forall k :: k in m <==> exists i :: 0 <= i < |CookieEntries(raw.value)| && CookieEntries(raw.value)[i].0 == k
  {
    if !Present(raw) then map[] else FromEntries(CookieEntries(raw.value))
  }

  /** A later piece with the same name overrides an earlier one: a name reads as the value of its last piece. */
  lemma ParseCookiesLastWins(raw: string, i: nat)
    requires raw != ""
    requires i < |CookieEntries(raw)|
    requires forall j :: i < j < |CookieEntries(raw)| ==> CookieEntries(raw)[j].0 != CookieEntries(raw)[i].0
    ensures var e := CookieEntries(raw)[i];
            e.0 in ParseCookies(Some(raw)) && ParseCookies(Some(raw))[e.0] == e.1
  {
    FromEntriesLast(CookieEntries(raw), i);
  }

  /**
   * A pair that survives being written as "name=value": no ';' anywhere, no
   * '=' in the name, no leading whitespace in the name and no trailing
   * whitespace in the value (trim would eat it).
   */
  predicate Serializable(p: (string, string))
  {
    && ';' !in p.0 && '=' !in p.0 && ';' !in p.1
    && (p.0 == [] || !IsWhiteSpace(p.0[0]))
    && (p.1 == [] || !IsWhiteSpace(p.1[|p.1| - 1]))
  }

  /** The pieces of "n1=v1; n2=v2; …". */
  function CookiePieces(pairs: seq<(string, string)>): seq<string>
  {
    seq(|pairs|, i requires 0 <= i < |pairs| => (if i == 0 then "" else " ") + pairs[i].0 + "=" + pairs[i].1)
  }

  /** A Cookie header as browsers send it: the pairs joined by "; ". */
  function CookieHeader(pairs: seq<(string, string)>): string
  {
    Join(CookiePieces(pairs), ';')
  }

  /** The text of a piece has no outer whitespace, so trim keeps it. */
  lemma PieceTrim(pad: string, p: (string, string))
    requires pad == "" || pad == " "
    requires Serializable(p)
    ensures Trim(pad + p.0 + "=" + p.1) == p.0 + "=" + p.1
  {
    var body := p.0 + "=" + p.1;
    assert pad + p.0 + "=" + p.1 == pad + body;
    assert body[0] == if p.0 == [] then '=' else p.0[0];
    assert body[|body| - 1] == if p.1 == [] then '=' else p.1[|p.1| - 1];
    TrimPadded(pad, body);
  }

  /** "name=value" splits into the name and the pieces of the value. */
  lemma BodySplit(p: (string, string))
    requires '=' !in p.0
    ensures Split(p.0 + "=" + p.1, '=') == [p.0] + Split(p.1, '=')
  {
    assert p.0 + "=" + p.1 == p.0 + ['='] + p.1;
    SplitAtFirst(p.0, '=', p.1);
  }

  lemma PieceEntry(pad: string, p: (string, string))
    requires pad == "" || pad == " "
    requires Serializable(p)
    ensures ';' !in pad + p.0 + "=" + p.1
    ensures CookieEntry(pad + p.0 + "=" + p.1) == p
  {
    PieceTrim(pad, p);
    BodySplit(p);
    JoinSplit(p.1, '=');
    var parts := Split(p.0 + "=" + p.1, '=');
    assert parts[1..] == Split(p.1, '=');
  }

  /** Each piece of a header written from serializable pairs parses back to its pair. */
  lemma HeaderEntries(pairs: seq<(string, string)>)
    requires pairs != []
    requires forall i :: 0 <= i < |pairs| ==> Serializable(pairs[i])
    ensures CookieHeader(pairs) != "" && CookieEntries(CookieHeader(pairs)) == pairs
  {
    var pieces := CookiePieces(pairs);
    forall i | 0 <= i < |pieces|
      ensures ';' !in pieces[i] && CookieEntry(pieces[i]) == pairs[i]
    {
      PieceEntry(if i == 0 then "" else " ", pairs[i]);
    }
    SplitJoin(pieces, ';');
    var header := Join(pieces, ';');
    assert |pieces[0]| > 0 && Split("", ';') == [""];
    var entries := CookieEntries(header);
    assert |entries| == |pairs|;
    forall i | 0 <= i < |pairs| ensures entries[i] == pairs[i] {
      assert entries[i] == CookieEntry(Split(header, ';')[i]);
    }
  }

  /**
   * Round trip: parsing a header written from serializable pairs gives back
   * their record, and with distinct names every pair reads back as written.
   */
  lemma CookieRoundTrip(pairs: seq<(string, string)>)
    requires forall i :: 0 <= i < |pairs| ==> Serializable(pairs[i])
    ensures ParseCookies(Some(CookieHeader(pairs))) == FromEntries(pairs)
    ensures (forall i, j :: 0 <= i < j < |pairs| ==> pairs[i].0 != pairs[j].0) ==>
              forall i :: 0 <= i < |pairs| ==>
                pairs[i].0 in ParseCookies(Some(CookieHeader(pairs))) &&
                ParseCookies(Some(CookieHeader(pairs)))[pairs[i].0] == pairs[i].1
  {
    if pairs == [] {
      assert CookieHeader(pairs) == "";
    } else {
      HeaderEntries(pairs);
      forall i | 0 <= i < |pairs| && (forall j, k :: 0 <= j < k < |pairs| ==> pairs[j].0 != pairs[k].0)
        ensures pairs[i].0 in FromEntries(pairs) && FromEntries(pairs)[pairs[i].0] == pairs[i].1
      {
        FromEntriesLast(pairs, i);
      }
    }
  }

  /** `cookies[name]` of the parsed header, if there is one. */
  function CookieValue(header: Option<string>, name: string): Option<string>
  {
    var m := ParseCookies(header);
    if name in m then Some(m[name]) else None
  }

  /** A header holding one serializable pair "name=value" yields that value for that name. */
  lemma SingleCookie(name: string, value: string)
    requires Serializable((name, value))
    ensures CookieValue(Some(name + "=" + value), name) == Some(value)
  {
    var pairs := [(name, value)];
    assert CookiePieces(pairs) == ["" + name + "=" + value];
    assert CookieHeader(pairs) == name + "=" + value;
    CookieRoundTrip(pairs);
  }

  // ---------------------------------------------------------------------------
  // The upgrade gate

  /** What the `upgrade` handler does with a request. */
  datatype Upgrade =
    | PassedOn   // a '/_next/' request, left to Next.js
    | Refused    // 401 written, socket destroyed
    | Accepted   // handed to the WebSocket server

  /** The cookie the dashboard keeps its key in. */
  const KeyCookie := "streamKey"

  predicate IsNextAsset(url: Option<string>)
  {
    url.Some? && StartsWith(url.value, "/_next/")
  }

  /**
   * The upgrade gate as written: the `streamKey` cookie or the `key` query
   * parameter must equal `configuredKey`, the STREAM_KEY of the process
   * configuration.
   */
  function UpgradeDecision(url: Option<string>, cookieHeader: Option<string>, queryKey: Option<string>,
                           configuredKey: string): (r: Upgrade)
    ensures r == PassedOn <==> IsNextAsset(url)
    ensures r == Accepted <==>
              !IsNextAsset(url) &&
              (CookieValue(cookieHeader, KeyCookie) == Some(configuredKey) || queryKey == Some(configuredKey))
    ensures cookieHeader.None? && queryKey.None? ==> r != Accepted
  {
    if IsNextAsset(url) then PassedOn
    else if CookieValue(cookieHeader, KeyCookie) == Some(configuredKey) || queryKey == Some(configuredKey) then Accepted
    else Refused
  }

  /** A browser header carrying `streamKey=<key>` as its last streamKey pair opens the socket, whatever else it holds. */
  lemma UpgradeByCookie(url: Option<string>, pairs: seq<(string, string)>, i: nat, key: string)
    requires !IsNextAsset(url)
    requires forall j :: 0 <= j < |pairs| ==> Serializable(pairs[j])
    requires i < |pairs| && pairs[i] == (KeyCookie, key)
    requires forall j :: i < j < |pairs| ==> pairs[j].0 != KeyCookie
    ensures UpgradeDecision(url, Some(CookieHeader(pairs)), None, key) == Accepted
  {
    CookieRoundTrip(pairs);
    FromEntriesLast(pairs, i);
  }

  /**
   * The dashboard signs in with the stored key (the one the setup wizard
   * generated) and sends it both as its cookie and as `?key=`; a gate that
   * compares with a different configured key refuses it.
   */
  lemma DashboardRefusedAsWritten(stored: string, configuredKey: string)
    requires stored != configuredKey
    requires ';' !in stored && (stored == [] || !IsWhiteSpace(stored[|stored| - 1]))
    ensures UpgradeDecision(Some("/"), Some(KeyCookie + "=" + stored), Some(stored), configuredKey) == Refused
  {
    StreamKeyCookie(stored);
  }

  /** The dashboard's cookie header `streamKey=<key>` carries the key. */
  lemma StreamKeyCookie(key: string)
    requires ';' !in key && (key == [] || !IsWhiteSpace(key[|key| - 1]))
    ensures CookieValue(Some(KeyCookie + "=" + key), KeyCookie) == Some(key)
  {
    assert ';' !in KeyCookie && '=' !in KeyCookie && !IsWhiteSpace(KeyCookie[0]);
    SingleCookie(KeyCookie, key);
  }

  /**
   * The gate as evidently intended: the same stored key that guards the
   * HTTP API must be present and be sent as the cookie or as `?key=`.
   */
  function UpgradeDecisionStored(url: Option<string>, cookieHeader: Option<string>, queryKey: Option<string>,
                                 stored: Option<string>): (r: Upgrade)
    ensures r == PassedOn <==> IsNextAsset(url)
    ensures r == Accepted ==> Present(stored)
    ensures r == Accepted <==>
              !IsNextAsset(url) && Present(stored) &&
              (CookieValue(cookieHeader, KeyCookie) == stored || queryKey == stored)
  {
    if IsNextAsset(url) then PassedOn
    else if Present(stored) && (CookieValue(cookieHeader, KeyCookie) == stored || queryKey == stored) then Accepted
    else Refused
  }

  /** With the corrected gate, the dashboard's connection with the stored key is accepted. */
  lemma DashboardAcceptedStored(stored: string)
    requires stored != ""
    requires ';' !in stored && !IsWhiteSpace(stored[|stored| - 1])
    ensures UpgradeDecisionStored(Some("/"), Some(KeyCookie + "=" + stored), Some(stored), Some(stored)) == Accepted
  {
    StreamKeyCookie(stored);
  }

  // ---------------------------------------------------------------------------
  // Connections and commands

  /** WebSocket.OPEN. */
  const Open := 1

  /** The STATE payload: obsConnected and getState() (publicIp is not modelled). */
  datatype StateMessage = StateMessage(obsConnected: bool, broadcastActive: bool, currentSource: SourceType)

  /** A connected socket: its readyState and the STATE messages sent to it so far. */
  datatype Client = Client(readyState: int, inbox: seq<StateMessage>)

  /** The `{ value }` object through which the server shares whether OBS is publishing. */
  class ObsFlag {
    var value: bool

    constructor (value: bool)
      ensures this.value == value
    {
      this.value := value;
    }
  }

  /** msg went to every open client and to no other; nothing else about the clients changed. */
  predicate SentToOpen(before: seq<Client>, after: seq<Client>, msg: StateMessage)
  {
    && |after| == |before|
    && forall i :: 0 <= i < |before| ==>
         && after[i].readyState == before[i].readyState
         && after[i].inbox == before[i].inbox + (if before[i].readyState == Open then [msg] else [])
  }

  /** The WebSocket server attached to the HTTP server, with its clients and pending reconnects. */
  class Hub {
    var clients: seq<Client>
    /** RECONNECT_BROADCAST restarts scheduled and not yet fired. */
    var reconnects: nat
    const manager: Orchestrator
    const obs: ObsFlag

    constructor (manager: Orchestrator, obs: ObsFlag)
      ensures clients == [] && reconnects == 0 && this.manager == manager && this.obs == obs
    {
      clients := [];
      reconnects := 0;
      this.manager := manager;
      this.obs := obs;
    }

    /** The state every STATE message carries at this moment. */
    function State(): StateMessage
      reads obs, manager
    {
      StateMessage(obs.value, manager.broadcastActive, manager.currentSource)
    }

    /** A new connection is open and has been sent the current state. */
    method Connect() returns (id: nat)
      modifies this
      ensures id == |old(clients)| && clients == old(clients) + [Client(Open, [State()])]
      ensures reconnects == old(reconnects)
    {
      id := |clients|;
      clients := clients + [Client(Open, [State()])];
    }

    /** A socket moves to another readyState (closing, closed). */
    method SetReadyState(id: nat, readyState: int)
      requires id < |clients|
      modifies this
      ensures clients == old(clients)[id := old(clients)[id].(readyState := readyState)]
      ensures reconnects == old(reconnects)
    {
      clients := clients[id := clients[id].(readyState := readyState)];
    }

    /** broadcastState: the current state goes to every open client, and only to those. */
    method BroadcastState()
      modifies this
      ensures SentToOpen(old(clients), clients, State())
      ensures reconnects == old(reconnects)
    {
      var msg := State();
      var i := 0;
      while i < |clients|
        invariant 0 <= i <= |clients| == |old(clients)|
        invariant forall j :: 0 <= j < i ==>
                    && clients[j].readyState == old(clients)[j].readyState
                    && clients[j].inbox == old(clients)[j].inbox + (if old(clients)[j].readyState == Open then [msg] else [])
        invariant forall j :: i <= j < |clients| ==> clients[j] == old(clients)[j]
        invariant reconnects == old(reconnects)
      {
        if clients[i].readyState == Open {
          clients := clients[i := clients[i].(inbox := clients[i].inbox + [msg])];
        }
        i := i + 1;
      }
    }

    /** startBroadcast with the enabled rows and the OBS flag, then a state push. */
    method Start(files: set<string>, listing: seq<string>, profile: SourceSettings)
      requires manager.Valid()
      modifies this, manager, manager.source, manager.master
      ensures manager.Valid() && manager.broadcastActive
      ensures !old(manager.broadcastActive) ==>
                manager.currentTargets == manager.store.GetEnabledTargets() &&
                (manager.currentSource == Obs <==> obs.value) &&
                manager.master.handle.Some? && manager.source.source.Some?
      ensures old(manager.broadcastActive) ==>
                manager.currentSource == old(manager.currentSource) &&
                manager.currentTargets == old(manager.currentTargets) && manager.calls == old(manager.calls)
      ensures SentToOpen(old(clients), clients, State())
      ensures reconnects == old(reconnects)
    {
      var targets := manager.store.GetEnabledTargets();
      manager.StartBroadcast(targets, obs.value, files, listing, profile);
      BroadcastState();
    }

    /** stopBroadcast, then a state push. */
    method Stop()
      requires manager.Valid()
      modifies this, manager, manager.source, manager.master
      ensures manager.Valid()
      ensures !manager.broadcastActive && manager.source.source.None? && manager.master.handle.None?
      ensures manager.currentSource == old(manager.currentSource)
      ensures SentToOpen(old(clients), clients, State())
      ensures reconnects == old(reconnects)
    {
      manager.StopBroadcast();
      BroadcastState();
    }

    /**
     * A message from a client, reduced to its `type` (None when JSON.parse
     * threw): START_BROADCAST starts, STOP_BROADCAST stops,
     * RECONNECT_BROADCAST stops and schedules a start; each of them then
     * pushes the state. Anything else is ignored.
     */
    method OnMessage(msgType: Option<string>, files: set<string>, listing: seq<string>, profile: SourceSettings)
      requires manager.Valid()
      modifies this, manager, manager.source, manager.master
      ensures manager.Valid()
      ensures msgType == Some("START_BROADCAST") ==>
                manager.broadcastActive && reconnects == old(reconnects) &&
                (!old(manager.broadcastActive) ==>
                   manager.currentTargets == manager.store.GetEnabledTargets() &&
                   (manager.currentSource == Obs <==> obs.value)) &&
                SentToOpen(old(clients), clients, State())
      ensures msgType == Some("STOP_BROADCAST") ==>
                !manager.broadcastActive && manager.source.source.None? && manager.master.handle.None? &&
                reconnects == old(reconnects) && SentToOpen(old(clients), clients, State())
      ensures msgType == Some("RECONNECT_BROADCAST") ==>
                !manager.broadcastActive && manager.source.source.None? && manager.master.handle.None? &&
                reconnects == old(reconnects) + 1 && SentToOpen(old(clients), clients, State())
      ensures msgType !in {Some("START_BROADCAST"), Some("STOP_BROADCAST"), Some("RECONNECT_BROADCAST")} ==>
                unchanged(this, manager, manager.source, manager.master)
    {
      if msgType == Some("START_BROADCAST") {
        Start(files, listing, profile);
      } else if msgType == Some("STOP_BROADCAST") {
        Stop();
      } else if msgType == Some("RECONNECT_BROADCAST") {
        Stop();
        reconnects := reconnects + 1;
      }
    }

    /** A scheduled reconnect fires: a start with the rows enabled at that moment, then a state push. */
    method FireReconnect(files: set<string>, listing: seq<string>, profile: SourceSettings)
      requires manager.Valid() && reconnects > 0
      modifies this, manager, manager.source, manager.master
      ensures manager.Valid() && manager.broadcastActive
      ensures reconnects == old(reconnects) - 1
      ensures !old(manager.broadcastActive) ==>
                manager.currentTargets == manager.store.GetEnabledTargets() &&
                (manager.currentSource == Obs <==> obs.value)
      ensures SentToOpen(old(clients), clients, State())
    {
      reconnects := reconnects - 1;
      Start(files, listing, profile);
    }
  }
}
