/**
 * The broadcast orchestrator: whether the broadcast is on, which source
 * feeds the canvas, the targets, the fallback video and the last OBS probe.
 * It drives one SourceController and one MasterController and reads the
 * settings Store. The calls it makes into the supervisors are logged in
 * order; the 2 s restart of updateTargets and the 1 s OBS start of
 * handleObsConnect are pending timers fired by FireTimer. The file system is
 * the set of existing paths plus the listing of the videos directory, passed
 * in by the caller.
 */
module Manager {
  import opened Text
  import opened Db
  import opened Probe
  import opened Source
  import opened Master

  // ---------------------------------------------------------------------------
  // The fallback profile of handleObsDisconnect

  /** The profile handed to the fallback source: the `manualMeta` record. */
  datatype FallbackMeta = FallbackMeta(width: int, height: int, fps: int, bitrate: int, sampleRate: int, channels: int)

  const DefaultFallbackFps := 60
  const DefaultFallbackBitrate := 6000

  /** `v || d` for a number that may be undefined: d when v is undefined, NaN or 0. */
  function NumberOr(v: Option<JsNum>, d: int): (r: int)
    ensures d != 0 ==> r != 0
  {
    if v.Some? && v.value.Truthy() then v.value.value else d
  }

  /**
   * The resolution text: the `fallback_resolution` setting when non-empty,
   * else the last probe's width and height joined by 'x', which without a
   * probe is the text "undefinedxundefined" (never empty, so the '1920x1080'
   * alternative is never reached).
   */
  function ResolutionText(resSetting: Option<string>, last: Option<ProbeResult>): string
  {
    if Present(resSetting) then resSetting.value
    else if last.Some? then FormatResolution(last.value.width, last.value.height)
    else "undefinedxundefined"
  }

  /** The fps text: the `fallback_fps` setting when non-empty, else String(last?.fps || 60). */
  function FpsText(fpsSetting: Option<string>, last: Option<ProbeResult>): string
  {
    if Present(fpsSetting) then fpsSetting.value
    else IntToString(NumberOr(if last.Some? then Some(last.value.fps) else None, DefaultFallbackFps))
  }

  /** `w || 1920` and `h || 1080` for the two numbers of the resolution text. */
  function ProfileSize(resSetting: Option<string>, last: Option<ProbeResult>): (r: (int, int))
    ensures r.0 != 0 && r.1 != 0
  {
    var (w, h) := ParseResolution(ResolutionText(resSetting, last));
    (NumberOr(w, 1920), NumberOr(h, 1080))
  }

  /** `parseInt(fps) || 60`. */
  function ProfileFps(fpsSetting: Option<string>, last: Option<ProbeResult>): (r: int)
    ensures r != 0
  {
    NumberOr(Some(ParseInt(FpsText(fpsSetting, last), true)), DefaultFallbackFps)
  }

  /** `parseInt(bitrate) || 6000`, the text being the `fallback_bitrate` setting or '6000'. */
  function ProfileBitrate(bitrateSetting: Option<string>): (r: int)
    ensures r != 0
  {
    NumberOr(Some(ParseInt(if Present(bitrateSetting) then bitrateSetting.value else "6000", true)),
             DefaultFallbackBitrate)
  }

  /**
   * The profile derived from the three fallback settings and the last OBS
   * probe. Every field falls back to a non-zero default.
   */
  function FallbackProfile(resSetting: Option<string>, fpsSetting: Option<string>, bitrateSetting: Option<string>,
                           last: Option<ProbeResult>): (r: FallbackMeta)
    ensures r.width != 0 && r.height != 0 && r.fps != 0 && r.bitrate != 0
    ensures r.sampleRate != 0 && r.channels != 0
  {
    var size := ProfileSize(resSetting, last);
    FallbackMeta(
      size.0,
      size.1,
      ProfileFps(fpsSetting, last),
      ProfileBitrate(bitrateSetting),
      NumberOr(if last.Some? then Some(last.value.sampleRate) else None, 48000),
      if last.Some? && last.value.channels != 0 then last.value.channels else 2)
  }

  /** A "WxH" resolution setting with non-zero W and H is used as it is, whatever the probe says. */
  lemma ProfileResolutionFromSetting(w: int, h: int, fpsSetting: Option<string>, bitrateSetting: Option<string>,
                                     last: Option<ProbeResult>)
    requires w != 0 && h != 0
    ensures var r := FallbackProfile(Some(FormatResolution(w, h)), fpsSetting, bitrateSetting, last);
            r.width == w && r.height == h
  {
    ResolutionRoundTrip(w, h);
  }

  /** Without a resolution setting the last probe's width and height are used, 1920/1080 standing in for 0. */
  lemma ProfileResolutionFromProbe(resSetting: Option<string>, fpsSetting: Option<string>, bitrateSetting: Option<string>,
                                   m: ProbeResult)
    requires !Present(resSetting)
    ensures var r := FallbackProfile(resSetting, fpsSetting, bitrateSetting, Some(m));
            r.width == (if m.width != 0 then m.width else 1920) &&
            r.height == (if m.height != 0 then m.height else 1080)
  {
    ResolutionRoundTrip(m.width, m.height);
  }

  /** An fps setting holding a non-zero integer is used as it is. */
  lemma ProfileFpsFromSetting(fps: int, last: Option<ProbeResult>)
    requires fps != 0
    ensures ProfileFps(Some(IntToString(fps)), last) == fps
  {
    ParseIntOfIntToString(fps, true);
  }

  /** A bitrate setting holding a non-zero integer is used as it is. */
  lemma ProfileBitrateFromSetting(bitrate: int)
    requires bitrate != 0
    ensures ProfileBitrate(Some(IntToString(bitrate))) == bitrate
  {
    ParseIntOfIntToString(bitrate, true);
  }

  /** Without an fps setting the probe's fps is used when it is a non-zero number, else 60. */
  lemma ProfileFpsFromProbe(fpsSetting: Option<string>, last: Option<ProbeResult>)
    requires !Present(fpsSetting)
    ensures last.Some? && last.value.fps.Truthy() ==> ProfileFps(fpsSetting, last) == last.value.fps.value
    ensures !(last.Some? && last.value.fps.Truthy()) ==> ProfileFps(fpsSetting, last) == 60
  {
    var n := if last.Some? && last.value.fps.Truthy() then last.value.fps.value else DefaultFallbackFps;
    assert FpsText(fpsSetting, last) == IntToString(n);
    ParseIntOfIntToString(n, true);
    assert ProfileFps(fpsSetting, last) == NumberOr(Some(Num(n)), DefaultFallbackFps);
  }

  /** Audio comes from the last probe; without one, 48000 Hz and 2 channels. */
  lemma ProfileAudio(resSetting: Option<string>, fpsSetting: Option<string>, bitrateSetting: Option<string>,
                     last: Option<ProbeResult>)
    ensures var r := FallbackProfile(resSetting, fpsSetting, bitrateSetting, last);
            (last.None? ==> r.sampleRate == 48000 && r.channels == 2) &&
            (last.Some? && last.value.sampleRate.Truthy() ==> r.sampleRate == last.value.sampleRate.value) &&
            (last.Some? && last.value.channels != 0 ==> r.channels == last.value.channels)
  {
  }

  /** A word Number() rejects, written twice around an 'x', reads as two NaNs. */
  lemma WordPairResolution(u: string)
    requires u != [] && 'x' !in u && !IsWhiteSpace(u[0]) && !IsWhiteSpace(u[|u| - 1])
    requires !IsDigit(u[0]) && u[0] != '-' && u[0] != '+'
    ensures ParseResolution(u + "x" + u) == (Some(NaN), Some(NaN))
  {
    assert u + "x" + u == u + ['x'] + u;
    SplitAtFirst(u, 'x', u);
    SplitNoSeparator(u, 'x');
    ToNumberOfWord(u);
  }

  /** Both halves of "undefinedxundefined" are NaN to Number(). */
  lemma UndefinedResolution()
    ensures ParseResolution("undefinedxundefined") == (Some(NaN), Some(NaN))
  {
    var u := "undefined";
    assert 'x' !in u;
    assert u + "x" + u == "undefinedxundefined";
    WordPairResolution(u);
  }

  /** Without a resolution setting or a probe both numbers are NaN, hence 1920x1080. */
  lemma ProfileSizeDefault()
    ensures ProfileSize(None, None) == (1920, 1080)
  {
    UndefinedResolution();
  }

  /** Without a bitrate setting the text '6000' gives 6000. */
  lemma ProfileBitrateDefault()
    ensures ProfileBitrate(None) == 6000
  {
    DefaultBitrateText();
    ParseIntOfIntToString(6000, true);
  }

  lemma DefaultBitrateText()
    ensures IntToString(6000) == "6000"
  {
    assert NatToString(6) == "6";
    assert NatToString(60) == "60";
    assert NatToString(600) == "600";
  }

  /** With no settings and no probe the profile is 1920x1080 at 60 fps and 6000 kbit/s, 48000 Hz stereo. */
  lemma ProfileDefaults()
    ensures FallbackProfile(None, None, None, None) == FallbackMeta(1920, 1080, 60, 6000, 48000, 2)
  {
    ProfileSizeDefault();
    ProfileFpsFromProbe(None, None);
    ProfileBitrateDefault();
  }

  /** The `{resolution, fps, bitrate}` settings the fallback source is started with. */
  function ToSourceSettings(meta: FallbackMeta): (s: SourceSettings)
    ensures ParseResolution(s.resolution) == (Some(Num(meta.width)), Some(Num(meta.height)))
  {
    ResolutionRoundTrip(meta.width, meta.height);
    SourceSettings(FormatResolution(meta.width, meta.height), meta.fps, meta.bitrate)
  }

  // ---------------------------------------------------------------------------
  // Files

  /** path.join of the videos directory and a file name. */
  function JoinPath(dir: string, name: string): string
  {
    dir + "/" + name
  }

  /** The first name in the listing that ends in ".mp4", if any. */
  function FirstMp4(listing: seq<string>): (r: Option<string>)
    ensures r.None? <==> forall i :: 0 <= i < |listing| ==> !EndsWith(listing[i], ".mp4")
    ensures r.Some? ==> exists i :: 0 <= i < |listing| && listing[i] == r.value && EndsWith(r.value, ".mp4") &&
                                    forall j :: 0 <= j < i ==> !EndsWith(listing[j], ".mp4")
  {
    if listing == [] then None
    else if EndsWith(listing[0], ".mp4") then Some(listing[0])
    else
      var r := FirstMp4(listing[1..]);
      if r.Some? then
        var i :| 0 <= i < |listing| - 1 && listing[1..][i] == r.value && EndsWith(r.value, ".mp4") &&
                 forall j :: 0 <= j < i ==> !EndsWith(listing[1..][j], ".mp4");
        assert listing[i + 1] == r.value;
        assert forall j :: 0 < j < i + 1 ==> !EndsWith(listing[j], ".mp4") by {
          forall j | 0 < j < i + 1 ensures !EndsWith(listing[j], ".mp4") {
            assert listing[j] == listing[1..][j - 1];
          }
        }
        r
      else
        assert forall i :: 0 <= i < |listing| ==> !EndsWith(listing[i], ".mp4") by {
          forall i | 0 < i < |listing| ensures !EndsWith(listing[i], ".mp4") {
            assert listing[i] == listing[1..][i - 1];
          }
        }
        r
  }

  /**
   * The video startBroadcast plays: in fallback mode a missing or empty
   * active video is replaced by the first ".mp4" of the directory, if there
   * is one; otherwise the active video stays.
   */
  function ChooseVideo(active: string, mode: SourceType, files: set<string>, dir: string, listing: seq<string>): (r: string)
    ensures mode == Obs || (active != "" && active in files) ==> r == active
    ensures r != active ==> exists i :: 0 <= i < |listing| && EndsWith(listing[i], ".mp4") && r == JoinPath(dir, listing[i])
    ensures mode == Fallback && (active == "" || active !in files) && FirstMp4(listing).Some? ==>
              r == JoinPath(dir, FirstMp4(listing).value)
    ensures mode == Fallback && (active == "" || active !in files) && FirstMp4(listing).None? ==> r == active
  {
    if mode == Fallback && (active == "" || active !in files) then
      match FirstMp4(listing)
      case Some(f) => JoinPath(dir, f)
      case None => active
    else active
  }

  // ---------------------------------------------------------------------------
  // The orchestrator

  /** A call the orchestrator makes into the supervisors, or a probe it requests. */
  datatype Call =
    | StartMasterCall(targets: seq<Target>)
    | StartSourceCall(mode: SourceType, path: string, streamKey: string, settings: SourceSettings)
    | StartSourceWithoutResolution(mode: SourceType, path: string, streamKey: string)
    | KillSourceCall
    | KillMasterCall
    | ProbeCall(streamKey: string)

  /** An action scheduled with setTimeout. */
  datatype Timer =
    | RestartBroadcast              // updateTargets: startBroadcast(currentTargets, currentSource === 'obs')
    | StartObsSource(streamKey: string)  // handleObsConnect: startSource('obs', activeVideo, streamKey)

  class Orchestrator {
    var broadcastActive: bool
    var currentSource: SourceType
    var currentTargets: seq<Target>
    var activeVideo: string
    var lastObsMetadata: Option<ProbeResult>
    /** Timers scheduled and not yet fired. */
    var pending: seq<Timer>
    /** Calls into the supervisors and probe requests, in order. */
    var calls: seq<Call>

    const store: Store
    const source: SourceController
    const master: MasterController
    const videosDir: string

    /**
     * The source supervisor leaks no producer and the master's handle names
     * a live process. The master is driven as master.ts writes it, so its
     * no-orphan invariant is not part of this.
     */
    ghost predicate Wf()
      reads this, source, master
    {
      source.Valid() && master.Wf()
    }

    /** While no broadcast is on, no source producer runs. */
    ghost predicate Valid()
      reads this, source, master
    {
      && Wf()
      && (!broadcastActive ==> source.source.None?)
    }

    /**
     * Valid, and the master is quiet as well: it keeps its no-orphan
     * invariant, and while no broadcast is on no master is held and no
     * restart is pending, so nothing will respawn on its own.
     */
    ghost predicate Quiet()
      reads this, source, master
    {
      && Valid()
      && master.Valid()
      && (!broadcastActive ==> master.handle.None? && master.pendingRestarts == 0)
    }

    constructor (store: Store, videosDir: string)
      ensures Quiet() && fresh(source) && fresh(master) && this.store == store && this.videosDir == videosDir
      ensures !broadcastActive && currentSource == Fallback && currentTargets == [] && lastObsMetadata.None?
      ensures activeVideo == JoinPath(videosDir, "fallback.mp4") && pending == [] && calls == []
    {
      this.store := store;
      this.videosDir := videosDir;
      source := new SourceController();
      master := new MasterController();
      broadcastActive := false;
      currentSource := Fallback;
      currentTargets := [];
      activeVideo := JoinPath(videosDir, "fallback.mp4");
      lastObsMetadata := None;
      pending := [];
      calls := [];
    }

    /** `await getStreamKeyDb() || 'preview'`. */
    function StreamKey(): (k: string)
      reads this, store
      ensures k != ""
      ensures Present(store.GetStreamKeyDb()) ==> k == store.GetStreamKeyDb().value
    {
      var key := store.GetStreamKeyDb();
      if Present(key) then key.value else "preview"
    }

    /** getState: a broadcast it reports off has no source producer running, and, quiet, no master either. */
    function GetState(): (r: (bool, SourceType))
      reads this, source, master
      ensures Valid() && !r.0 ==> source.source.None?
      ensures Quiet() && !r.0 ==> master.handle.None? && master.pendingRestarts == 0
    {
      (broadcastActive, currentSource)
    }

    /** The boot step: a persisted `active_video` file name is adopted when that file exists. */
    method LoadPersistedVideo(files: set<string>)
      modifies this
      ensures var name := store.GetSetting("active_video");
              activeVideo == (if Present(name) && JoinPath(videosDir, name.value) in files
                              then JoinPath(videosDir, name.value) else old(activeVideo))
      ensures broadcastActive == old(broadcastActive) && currentSource == old(currentSource)
      ensures currentTargets == old(currentTargets) && lastObsMetadata == old(lastObsMetadata)
      ensures pending == old(pending) && calls == old(calls)
    {
      var name := store.GetSetting("active_video");
      if Present(name) {
        var fp := JoinPath(videosDir, name.value);
        if fp in files {
          activeVideo := fp;
        }
      }
    }

    /**
     * startBroadcast: a no-op while on. From idle it turns the broadcast on
     * with these targets, picks OBS iff OBS is connected, makes sure a
     * fallback video exists, then starts the master and after it the source.
     */
    method StartBroadcast(targets: seq<Target>, isObsConnected: bool, files: set<string>, listing: seq<string>,
                          profile: SourceSettings)
      requires Valid()
      modifies this, source, master
      ensures Valid()
      ensures old(broadcastActive) ==>
                broadcastActive && currentSource == old(currentSource) && currentTargets == old(currentTargets) &&
                activeVideo == old(activeVideo) && calls == old(calls) &&
                unchanged(source) && unchanged(master)
      ensures !old(broadcastActive) ==>
                broadcastActive && currentTargets == targets &&
                (currentSource == Obs <==> isObsConnected) &&
                activeVideo == ChooseVideo(old(activeVideo), currentSource, files, videosDir, listing) &&
                calls == old(calls) + [StartMasterCall(targets),
                                       StartSourceCall(currentSource, activeVideo, old(StreamKey()), profile)] &&
                master.handle.Some? && source.source.Some? &&
                (old(master.handle).None? ==> master.targets == targets && master.active)
      ensures master.pendingRestarts == old(master.pendingRestarts)
      ensures old(Quiet()) ==> Quiet()
      ensures lastObsMetadata == old(lastObsMetadata) && pending == old(pending)
    {
      if broadcastActive {
        return;
      }
      TurnOn(targets, isObsConnected, files, listing, profile);
    }

    /** startBroadcast past its guard: from idle, the broadcast is turned on. */
    method TurnOn(targets: seq<Target>, isObsConnected: bool, files: set<string>, listing: seq<string>,
                  profile: SourceSettings)
      requires Valid() && !broadcastActive
      modifies this, source, master
      ensures Valid()
      ensures broadcastActive && currentTargets == targets && (currentSource == Obs <==> isObsConnected)
      ensures activeVideo == ChooseVideo(old(activeVideo), currentSource, files, videosDir, listing)
      ensures calls == old(calls) + [StartMasterCall(targets),
                                     StartSourceCall(currentSource, activeVideo, old(StreamKey()), profile)]
      ensures master.handle.Some? && source.source.Some?
      ensures old(master.handle).None? ==> master.targets == targets && master.active
      ensures master.pendingRestarts == old(master.pendingRestarts)
      ensures old(master.Valid()) ==> master.Valid()
      ensures lastObsMetadata == old(lastObsMetadata) && pending == old(pending)
    {
      var mode := if isObsConnected then Obs else Fallback;
      var streamKey := StreamKey();
      broadcastActive := true;
      currentTargets := targets;
      activeVideo := ChooseVideo(activeVideo, mode, files, videosDir, listing);
      master.Start(targets);
      calls := calls + [StartMasterCall(targets)];
      StartSource(mode, streamKey, profile);
    }

    /**
     * stopBroadcast: whatever the state, the broadcast is off, the source is
     * killed and killMaster runs. A master restart already scheduled stays
     * scheduled, and when no master was held its flag stays as it was.
     */
    method StopBroadcast()
      requires Valid()
      modifies this, source, master
      ensures Valid()
      ensures !broadcastActive && source.source.None? && master.handle.None?
      ensures master.pendingRestarts == old(master.pendingRestarts)
      ensures old(master.handle).Some? ==> !master.active
      ensures old(master.handle).None? ==> master.active == old(master.active)
      ensures calls == old(calls) + [KillSourceCall, KillMasterCall]
      ensures currentSource == old(currentSource) && currentTargets == old(currentTargets)
      ensures activeVideo == old(activeVideo) && lastObsMetadata == old(lastObsMetadata) && pending == old(pending)
    {
      broadcastActive := false;
      source.Kill();
      master.KillAsWritten();
      calls := calls + [KillSourceCall, KillMasterCall];
    }

    /** stopBroadcast with a killMaster that cancels pending restarts: the orchestrator is left quiet. */
    method StopBroadcastFixed()
      requires Quiet()
      modifies this, source, master
      ensures Quiet()
      ensures !broadcastActive && source.source.None? && master.handle.None? && master.pendingRestarts == 0
      ensures calls == old(calls) + [KillSourceCall, KillMasterCall]
      ensures currentSource == old(currentSource) && currentTargets == old(currentTargets)
      ensures activeVideo == old(activeVideo) && lastObsMetadata == old(lastObsMetadata) && pending == old(pending)
    {
      broadcastActive := false;
      source.Kill();
      master.Kill();
      calls := calls + [KillSourceCall, KillMasterCall];
    }

    /**
     * updateTargets: nothing when idle or when the list is the same rows in
     * the same order; otherwise the list is stored, the broadcast stopped and
     * a full restart scheduled.
     */
    method UpdateTargets(targets: seq<Target>)
      requires Valid()
      modifies this, source, master
      ensures Valid()
      ensures !old(broadcastActive) || targets == old(currentTargets) ==>
                broadcastActive == old(broadcastActive) && currentTargets == old(currentTargets) &&
                pending == old(pending) && calls == old(calls) && unchanged(source) && unchanged(master)
      ensures old(broadcastActive) && targets != old(currentTargets) ==>
                !broadcastActive && currentTargets == targets &&
                source.source.None? && master.handle.None? &&
                calls == old(calls) + [KillSourceCall, KillMasterCall] &&
                pending == old(pending) + [RestartBroadcast]
      ensures currentSource == old(currentSource) && activeVideo == old(activeVideo)
      ensures lastObsMetadata == old(lastObsMetadata)
    {
      if !broadcastActive {
        return;
      }
      if currentTargets != targets {
        currentTargets := targets;
        StopBroadcast();
        pending := pending + [RestartBroadcast];
      }
    }

    /** The targets router after a change to the table: updateTargets with the enabled rows. */
    method SyncTargets()
      requires Valid()
      modifies this, source, master
      ensures Valid()
      ensures old(broadcastActive) && store.GetEnabledTargets() != old(currentTargets) ==>
                !broadcastActive && currentTargets == store.GetEnabledTargets() &&
                pending == old(pending) + [RestartBroadcast]
      ensures !old(broadcastActive) || store.GetEnabledTargets() == old(currentTargets) ==>
                currentTargets == old(currentTargets) && pending == old(pending)
    {
      UpdateTargets(store.GetEnabledTargets());
    }

    /**
     * handleObsConnect: the source becomes OBS even when idle and the stream
     * is probed; only while on is an OBS source start scheduled.
     */
    method HandleObsConnect()
      requires Valid()
      modifies this
      ensures Valid()
      ensures currentSource == Obs
      ensures calls == old(calls) + [ProbeCall(StreamKey())]
      ensures pending == old(pending) + (if broadcastActive then [StartObsSource(StreamKey())] else [])
      ensures broadcastActive == old(broadcastActive) && currentTargets == old(currentTargets)
      ensures activeVideo == old(activeVideo) && lastObsMetadata == old(lastObsMetadata)
    {
      currentSource := Obs;
      var streamKey := StreamKey();
      calls := calls + [ProbeCall(streamKey)];
      if !broadcastActive {
        return;
      }
      pending := pending + [StartObsSource(streamKey)];
    }

    /** A probe requested by handleObsConnect has finished; a result replaces the stored one, null keeps it. */
    method OnProbeResult(meta: Option<ProbeResult>)
      modifies this
      ensures lastObsMetadata == if meta.Some? then meta else old(lastObsMetadata)
      ensures broadcastActive == old(broadcastActive) && currentSource == old(currentSource)
      ensures currentTargets == old(currentTargets) && activeVideo == old(activeVideo)
      ensures pending == old(pending) && calls == old(calls)
    {
      if meta.Some? {
        lastObsMetadata := meta;
      }
    }

    /** Makes `mode` the current source and calls startSource on the active video, logged. */
    method StartSource(mode: SourceType, streamKey: string, settings: SourceSettings)
      requires Valid() && broadcastActive
      modifies this, source
      ensures Valid() && source.source.Some?
      ensures calls == old(calls) + [StartSourceCall(mode, activeVideo, streamKey, settings)]
      ensures broadcastActive == old(broadcastActive) && currentSource == mode
      ensures currentTargets == old(currentTargets) && activeVideo == old(activeVideo)
      ensures lastObsMetadata == old(lastObsMetadata) && pending == old(pending)
    {
      currentSource := mode;
      source.Start(mode, activeVideo, streamKey, settings);
      calls := calls + [StartSourceCall(mode, activeVideo, streamKey, settings)];
    }

    /**
     * The settings handleObsDisconnect starts the fallback source with, given
     * the last probe: the resolution reads back as two non-zero numbers, and
     * fps and bitrate are non-zero.
     */
    function DisconnectSettings(last: Option<ProbeResult>): (s: SourceSettings)
      reads store
      ensures var (w, h) := ParseResolution(s.resolution);
              w.Some? && w.value.Truthy() && h.Some? && h.value.Truthy()
      ensures s.fps != 0 && s.bitrate != 0
    {
      ToSourceSettings(FallbackProfile(store.GetSetting("fallback_resolution"), store.GetSetting("fallback_fps"),
                                       store.GetSetting("fallback_bitrate"), last))
    }

    /**
     * handleObsDisconnect: nothing when idle or already on fallback;
     * otherwise switches to fallback and starts a fallback source with the
     * profile derived from the settings and the last probe.
     */
    method HandleObsDisconnect()
      requires Valid()
      modifies this, source
      ensures Valid()
      ensures !old(broadcastActive) || old(currentSource) == Fallback ==>
                currentSource == old(currentSource) && calls == old(calls) && unchanged(source)
      ensures old(broadcastActive) && old(currentSource) == Obs ==>
                currentSource == Fallback && source.source.Some? &&
                calls == old(calls) + [StartSourceCall(Fallback, activeVideo, old(StreamKey()),
                                                      old(DisconnectSettings(lastObsMetadata)))]
      ensures broadcastActive == old(broadcastActive) && currentTargets == old(currentTargets)
      ensures activeVideo == old(activeVideo) && lastObsMetadata == old(lastObsMetadata) && pending == old(pending)
    {
      if !broadcastActive || currentSource == Fallback {
        return;
      }
      var streamKey := StreamKey();
      var settings := DisconnectSettings(lastObsMetadata);
      StartSource(Fallback, streamKey, settings);
    }

    /**
     * handleObsDisconnect as the source calls startSource: the settings value
     * is `manualMeta`, which has no `resolution`, so startSource kills the
     * OBS relay and throws before spawning. The broadcast stays on, on
     * fallback, with no producer.
     */
    method HandleObsDisconnectAsWritten() returns (threw: bool)
      requires Valid()
      modifies this, source
      ensures Valid()
      ensures threw <==> old(broadcastActive) && old(currentSource) == Obs
      ensures !threw ==> currentSource == old(currentSource) && calls == old(calls) && unchanged(source)
      ensures threw ==>
                currentSource == Fallback && source.source.None? &&
                source.effects == old(source.effects) +
                                  (if old(source.source).Some? then [Killed(old(source.source).value)] else []) &&
                calls == old(calls) + [StartSourceWithoutResolution(Fallback, activeVideo, old(StreamKey()))]
      ensures broadcastActive == old(broadcastActive) && currentTargets == old(currentTargets)
      ensures activeVideo == old(activeVideo) && lastObsMetadata == old(lastObsMetadata) && pending == old(pending)
    {
      if !broadcastActive || currentSource == Fallback {
        return false;
      }
      currentSource := Fallback;
      var streamKey := StreamKey();
      threw := source.StartWithArg(Fallback, activeVideo, streamKey, WithoutResolution);
      calls := calls + [StartSourceWithoutResolution(Fallback, activeVideo, streamKey)];
    }

    /**
     * setActiveVideo: an existing file becomes the active video, and the
     * source restarts on it only while on in fallback mode; a path that does
     * not exist changes nothing.
     */
    method SetActiveVideo(path: string, files: set<string>, profile: SourceSettings)
      requires Valid()
      modifies this, source
      ensures Valid()
      ensures path !in files ==> activeVideo == old(activeVideo) && calls == old(calls) && unchanged(source)
      ensures path in files ==> activeVideo == path
      ensures path in files && broadcastActive && currentSource == Fallback ==>
                calls == old(calls) + [StartSourceCall(Fallback, path, StreamKey(), profile)] && source.source.Some?
      ensures path in files && !(broadcastActive && currentSource == Fallback) ==>
                calls == old(calls) && unchanged(source)
      ensures broadcastActive == old(broadcastActive) && currentSource == old(currentSource)
      ensures currentTargets == old(currentTargets) && lastObsMetadata == old(lastObsMetadata) && pending == old(pending)
    {
      if path in files {
        activeVideo := path;
        if broadcastActive && currentSource == Fallback {
          var streamKey := StreamKey();
          StartSource(Fallback, streamKey, profile);
        }
      }
    }

    /**
     * A scheduled timer fires. The restart of updateTargets runs
     * startBroadcast with the targets and source current at that moment. The
     * OBS start runs only if the broadcast is still on with OBS as its source.
     */
    method FireTimer(i: nat, files: set<string>, listing: seq<string>, profile: SourceSettings)
      requires Valid() && i < |pending|
      modifies this, source, master
      ensures Valid()
      ensures pending == old(pending[..i] + pending[i + 1..])
      ensures old(pending[i]).StartObsSource? ==>
                broadcastActive == old(broadcastActive) && currentSource == old(currentSource) &&
                (old(broadcastActive) && old(currentSource) == Obs ==>
                   calls == old(calls) + [StartSourceCall(Obs, activeVideo, old(pending[i]).streamKey, profile)] &&
                   source.source.Some?) &&
                (!(old(broadcastActive) && old(currentSource) == Obs) ==> calls == old(calls) && unchanged(source))
      ensures old(pending[i]).RestartBroadcast? ==>
                broadcastActive && currentTargets == old(currentTargets) && currentSource == old(currentSource) &&
                (!old(broadcastActive) ==> master.handle.Some? && source.source.Some?)
    {
      var t := pending[i];
      pending := pending[..i] + pending[i + 1..];
      match t
      case RestartBroadcast =>
        StartBroadcast(currentTargets, currentSource == Obs, files, listing, profile);
      case StartObsSource(streamKey) =>
        if broadcastActive && currentSource == Obs {
          StartSource(Obs, streamKey, profile);
        }
    }

    /** The OBS start timer as the source schedules it: it starts the relay whatever the state is by then. */
    method FireObsTimerAsWritten(i: nat, profile: SourceSettings)
      requires Wf() && i < |pending| && pending[i].StartObsSource?
      modifies this, source
      ensures Wf()
      ensures pending == old(pending[..i] + pending[i + 1..])
      ensures source.source.Some?
      ensures calls == old(calls) + [StartSourceCall(Obs, activeVideo, old(pending[i]).streamKey, profile)]
      ensures broadcastActive == old(broadcastActive) && currentSource == old(currentSource)
    {
      var streamKey := pending[i].streamKey;
      pending := pending[..i] + pending[i + 1..];
      source.Start(Obs, activeVideo, streamKey, profile);
      calls := calls + [StartSourceCall(Obs, activeVideo, streamKey, profile)];
    }

    /**
     * A master process closed (crash or after SIGTERM), handled as master.ts
     * writes it: the handle is cleared whichever process it was, and a
     * restart is scheduled while the master's flag is set. The close of the
     * held process keeps the orchestrator quiet.
     */
    method OnMasterClose(pid: Pid)
      requires Valid() && pid in master.live
      modifies master
      ensures Valid()
      ensures master.live == old(master.live) - {pid} && master.handle.None?
      ensures master.active == old(master.active)
      ensures master.pendingRestarts == old(master.pendingRestarts) + (if master.active then 1 else 0)
      ensures old(master.handle) == Some(pid) && old(Quiet()) ==> Quiet()
    {
      master.OnCloseAsWritten(pid);
    }

    /**
     * The master's scheduled 2 s restart fires, whatever broadcastActive says
     * by then: without a held master it spawns one for the recorded targets.
     * While quiet a restart is only ever pending during a broadcast.
     */
    method FireMasterRestart()
      requires Valid() && master.pendingRestarts > 0
      modifies master
      ensures Valid()
      ensures master.handle.Some? && master.pendingRestarts == old(master.pendingRestarts) - 1
      ensures old(master.handle).None? ==>
                master.active &&
                master.effects == old(master.effects) + [MasterSpawned(old(master.nextPid), MasterArgs(old(master.targets))),
                                                         EmitStarted]
      ensures master.targets == old(master.targets)
      ensures old(Quiet()) ==> Quiet() && broadcastActive
    {
      master.FireRestart();
    }
  }

  /**
   * OBS connects during a broadcast and the broadcast is stopped before the
   * 1 s timer fires: as written, the timer then starts an OBS relay while
   * nothing is broadcasting.
   */
  method ObsTimerAfterStopScenario(store: Store, dir: string, profile: SourceSettings) returns (o: Orchestrator)
    ensures !o.broadcastActive && o.source.source.Some? && !o.Valid()
  {
    o := new Orchestrator(store, dir);
    o.StartBroadcast([], true, {}, [], profile);
    o.HandleObsConnect();
    o.StopBroadcast();
    o.FireObsTimerAsWritten(0, profile);
  }

  /** With the state re-checked when the timer fires, the stopped broadcast stays silent. */
  method ObsTimerAfterStopFixed(store: Store, dir: string, profile: SourceSettings) returns (o: Orchestrator)
    ensures o.Valid() && !o.broadcastActive && o.source.source.None? && o.pending == []
  {
    o := new Orchestrator(store, dir);
    o.StartBroadcast([], true, {}, [], profile);
    o.HandleObsConnect();
    o.StopBroadcast();
    o.FireTimer(0, {}, [], profile);
  }

  /**
   * The master crashes during a broadcast and the broadcast is stopped
   * before its 2 s restart fires: as written, the restart then spawns a
   * master that publishes while nothing is broadcasting.
   */
  method MasterRestartAfterStopScenario(store: Store, dir: string, profile: SourceSettings) returns (o: Orchestrator)
    ensures !o.broadcastActive && o.master.handle.Some? && o.master.active && !o.Quiet()
  {
    o := new Orchestrator(store, dir);
    o.StartBroadcast([], false, {}, [], profile);
    o.OnMasterClose(o.master.handle.value);
    o.StopBroadcast();
    o.FireMasterRestart();
  }

  /** With the stop cancelling pending restarts, nothing is left to respawn the master. */
  method MasterRestartAfterStopFixed(store: Store, dir: string, profile: SourceSettings) returns (o: Orchestrator)
    ensures o.Quiet() && !o.broadcastActive && o.master.handle.None? && o.master.pendingRestarts == 0
  {
    o := new Orchestrator(store, dir);
    o.StartBroadcast([], false, {}, [], profile);
    o.OnMasterClose(o.master.handle.value);
    o.StopBroadcastFixed();
  }

  /**
   * OBS disconnects during an OBS broadcast: as written, the relay is killed
   * and no fallback producer starts, so the broadcast stays on with nothing
   * feeding the master.
   */
  method ObsDisconnectAsWrittenScenario(store: Store, dir: string, profile: SourceSettings) returns (o: Orchestrator)
    ensures o.Valid() && o.broadcastActive && o.currentSource == Fallback && o.source.source.None?
  {
    o := new Orchestrator(store, dir);
    o.StartBroadcast([], true, {}, [], profile);
    var threw := o.HandleObsDisconnectAsWritten();
  }

  /** With the profile passed as `{resolution, fps, bitrate}`, a fallback producer takes over. */
  method ObsDisconnectFixed(store: Store, dir: string, profile: SourceSettings) returns (o: Orchestrator)
    ensures o.Valid() && o.broadcastActive && o.currentSource == Fallback && o.source.source.Some?
  {
    o := new Orchestrator(store, dir);
    o.StartBroadcast([], true, {}, [], profile);
    o.HandleObsDisconnect();
  }
}
