/**
 * The source supervisor: one FFmpeg producer (a relay of the OBS feed or a
 * looping fallback file) writing FLV to its stdout, plus the black base-input
 * generator. Processes are pids; spawning and SIGKILL are recorded in an
 * effect log in the order they happen.
 */
module Source {
  import opened Text

  datatype SourceType = Obs | Fallback

  /** The `{resolution, fps, bitrate}` settings startSource reads. */
  datatype SourceSettings = SourceSettings(resolution: string, fps: int, bitrate: int)

  /**
   * What a caller passes as startSource's `settings`: the object it
   * declares, or a value with no `resolution` string (null, undefined, a
   * probe result), on which `settings.resolution.split` throws a TypeError.
   */
  datatype SettingsArg = Given(settings: SourceSettings) | WithoutResolution

  type Pid = nat

  /**
   * A spawn, named by the startSource or startBaseInputStream call that made
   * it (its command line is Args()), or a SIGKILL.
   */
  datatype Effect =
    | Spawned(pid: Pid, mode: SourceType, path: string, streamKey: string, settings: SourceSettings)
    | BaseSpawned(pid: Pid, width: int, height: int, fps: int)
    | Killed(pid: Pid)
  {
    /** The FFmpeg command line of a spawn. */
    function Args(): seq<string>
      requires !Killed?
    {
      if Spawned? then SourceArgs(mode, path, streamKey, settings) else BaseInputArgs(width, height, fps)
    }
  }

  /** Every producer writes FLV without duration/filesize fields to its stdout. */
  const FlvPipeTail: seq<string> := ["-f", "flv", "-flvflags", "no_duration_filesize", "pipe:1"]

  /** `args` holds `flag` immediately followed by `value`. */
  ghost predicate HasOption(args: seq<string>, flag: string, value: string)
  {
    exists i :: OptionAt(args, i, flag, value)
  }

  /** Position i holds `flag` and position i + 1 its `value`. */
  predicate OptionAt(args: seq<string>, i: int, flag: string, value: string)
  {
    0 <= i < |args| - 1 && args[i] == flag && args[i + 1] == value
  }

  predicate HasFlag(args: seq<string>, flag: string)
  {
    flag in args
  }

  function ObsUrl(streamKey: string): string
  {
    "rtmp://localhost:1935/live/" + streamKey
  }

  /** OBS mode: read the local RTMP publish point and copy every codec. */
  function ObsArgs(streamKey: string): seq<string>
  {
    ["-loglevel", "warning",
     "-probesize", "100000000",
     "-analyzeduration", "100000000",
     "-fflags", "nobuffer+genpts+igndts",
     "-flags", "low_delay",
     "-i", ObsUrl(streamKey),
     "-map", "0:v:0",
     "-map", "0:a?",
     "-c", "copy"] + FlvPipeTail
  }

  /** `${v}` for the result of Number() on a piece of the resolution, or for a missing piece. */
  function FormatJs(v: Option<JsNum>): string
  {
    match v
    case None => "undefined"
    case Some(NaN) => "NaN"
    case Some(Num(n)) => IntToString(n)
  }

  /** `const [width, height] = resolution.split('x').map(Number)`. */
  function ParseResolution(resolution: string): (r: (Option<JsNum>, Option<JsNum>))
    ensures r.0.Some?
    ensures r.1.Some? <==> 'x' in resolution
    ensures 'x' !in resolution ==> r.0 == Some(ToNumber(resolution))
  {
    SplitPieces(resolution, 'x');
    var parts := Split(resolution, 'x');
    (Some(ToNumber(parts[0])), if |parts| > 1 then Some(ToNumber(parts[1])) else None)
  }

  /** The "WxH" text of a width and height. */
  function FormatResolution(width: int, height: int): string
  {
    IntToString(width) + "x" + IntToString(height)
  }

  /** A resolution written as "WxH" is read back as W and H. */
  lemma ResolutionRoundTrip(width: int, height: int)
    ensures ParseResolution(FormatResolution(width, height)) == (Some(Num(width)), Some(Num(height)))
  {
    var a, b := IntToString(width), IntToString(height);
    SplitJoin([a, b], 'x');
    assert Join([a, b], 'x') == a + "x" + b;
    ToNumberOfIntToString(width);
    ToNumberOfIntToString(height);
  }

  /** `${bitrate / 4}`: JavaScript prints a quarter exactly, with ".25", ".5" or ".75" when it is not whole. */
  function QuarterString(b: int): (r: string)
    ensures b % 4 == 0 ==> r == IntToString(b / 4)
  {
    var m: nat := if b < 0 then -b else b;
    var sign := if b < 0 then "-" else "";
    var whole := NatToString(m / 4);
    var frac := if m % 4 == 0 then "" else if m % 4 == 1 then ".25" else if m % 4 == 2 then ".5" else ".75";
    assert b % 4 == 0 ==> sign + whole + frac == IntToString(b / 4) by {
      if b % 4 == 0 {
        QuarterExact(b);
        assert frac == "";
      }
    }
    sign + whole + frac
  }

  /** A multiple of 4 and its absolute value divide by 4 exactly, with the sign kept. */
  lemma QuarterExact(b: int)
    requires b % 4 == 0
    ensures var m := if b < 0 then -b else b; m % 4 == 0
    ensures b < 0 ==> b / 4 < 0 && -(b / 4) == (-b) / 4
    ensures b >= 0 ==> b / 4 >= 0
  {
    var q := b / 4;
    assert b == 4 * q;
    assert -b == 4 * -q;
  }

  /** The `-vf` chain: scale into W x H keeping the aspect ratio, pad to exactly W x H, resample to fps. */
  function VideoFilter(width: string, height: string, fps: int): string
  {
    "scale=" + width + ":" + height + ":force_original_aspect_ratio=decrease,pad=" +
    width + ":" + height + ":(ow-iw)/2:(oh-ih)/2,fps=" + IntToString(fps)
  }

  /** Fallback mode: loop the file forever in real time and re-encode it with x264/AAC. */
  function FallbackArgs(path: string, settings: SourceSettings): seq<string>
  {
    var (width, height) := ParseResolution(settings.resolution);
    var rate := IntToString(settings.bitrate) + "k";
    EncodeArgs(path, VideoFilter(FormatJs(width), FormatJs(height), settings.fps), rate, QuarterString(settings.bitrate) + "k")
  }

  /** The fallback argument list once the filter chain, the rate and the buffer size are written out. */
  function EncodeArgs(path: string, filter: string, rate: string, bufsize: string): seq<string>
  {
    ["-loglevel", "warning",
     "-fflags", "nobuffer",
     "-flags", "low_delay",
     "-stream_loop", "-1",
     "-re",
     "-i", path,
     "-vf", filter,
     "-map", "0:v:0",
     "-map", "0:a:0?",
     "-c:v", "libx264",
     "-preset", "ultrafast",
     "-tune", "zerolatency",
     "-b:v", rate,
     "-maxrate", rate,
     "-bufsize", bufsize,
     "-pix_fmt", "yuv420p",
     "-c:a", "aac",
     "-b:a", "128k"] + FlvPipeTail
  }

  /** The argument list startSource spawns FFmpeg with. */
  function SourceArgs(mode: SourceType, path: string, streamKey: string, settings: SourceSettings): (r: seq<string>)
    ensures |r| >= 5 && r[|r| - 5..] == FlvPipeTail
  {
    if mode == Obs then ObsArgs(streamKey) else FallbackArgs(path, settings)
  }

  /** OBS mode relays the stream published under the key, unmodified, and never loops a file. */
  lemma ObsModeArgs(path: string, streamKey: string, settings: SourceSettings)
    ensures var args := SourceArgs(Obs, path, streamKey, settings);
            HasOption(args, "-i", "rtmp://localhost:1935/live/" + streamKey) &&
            HasOption(args, "-c", "copy") &&
            !HasFlag(args, "-stream_loop") && !HasFlag(args, "-vf")
  {
    var args := SourceArgs(Obs, path, streamKey, settings);
    assert OptionAt(args, 10, "-i", ObsUrl(streamKey));
    assert OptionAt(args, 16, "-c", "copy");
    assert forall i :: 0 <= i < |args| ==> args[i] != "-stream_loop" && args[i] != "-vf";
  }

  /** A "WxH" resolution setting puts W and H, as numbers, into the filter chain. */
  lemma FallbackArgsOfResolution(path: string, width: int, height: int, fps: int, bitrate: int)
    ensures FallbackArgs(path, SourceSettings(FormatResolution(width, height), fps, bitrate))
         == EncodeArgs(path, VideoFilter(IntToString(width), IntToString(height), fps),
                       IntToString(bitrate) + "k", QuarterString(bitrate) + "k")
  {
    ResolutionRoundTrip(width, height);
  }

  /**
   * The encoder loops the file forever, applies the filter chain, encodes
   * x264 at the rate with that rate as its ceiling and the given buffer size.
   */
  lemma EncodeArgsOptions(path: string, filter: string, rate: string, bufsize: string)
    ensures var args := EncodeArgs(path, filter, rate, bufsize);
            HasOption(args, "-stream_loop", "-1") &&
            HasOption(args, "-i", path) &&
            HasOption(args, "-vf", filter) &&
            HasOption(args, "-c:v", "libx264") &&
            HasOption(args, "-b:v", rate) &&
            HasOption(args, "-maxrate", rate) &&
            HasOption(args, "-bufsize", bufsize)
  {
    var args := EncodeArgs(path, filter, rate, bufsize);
    assert OptionAt(args, 6, "-stream_loop", "-1");
    assert OptionAt(args, 9, "-i", path);
    assert OptionAt(args, 11, "-vf", filter);
    assert OptionAt(args, 17, "-c:v", "libx264");
    assert OptionAt(args, 23, "-b:v", rate);
    assert OptionAt(args, 25, "-maxrate", rate);
    assert OptionAt(args, 27, "-bufsize", bufsize);
  }

  /**
   * Fallback mode with a "WxH" resolution: loops the file, scales and pads to
   * W x H, resamples to the fps, and caps the video at the bitrate with a
   * buffer of a quarter of it.
   */
  lemma FallbackModeArgs(path: string, streamKey: string, width: int, height: int, fps: int, bitrate: int)
    ensures var args := SourceArgs(Fallback, path, streamKey, SourceSettings(FormatResolution(width, height), fps, bitrate));
            HasOption(args, "-stream_loop", "-1") &&
            HasOption(args, "-i", path) &&
            HasOption(args, "-vf", VideoFilter(IntToString(width), IntToString(height), fps)) &&
            HasOption(args, "-b:v", IntToString(bitrate) + "k") &&
            HasOption(args, "-maxrate", IntToString(bitrate) + "k") &&
            HasOption(args, "-bufsize", QuarterString(bitrate) + "k")
  {
    FallbackArgsOfResolution(path, width, height, fps, bitrate);
    EncodeArgsOptions(path, VideoFilter(IntToString(width), IntToString(height), fps),
                      IntToString(bitrate) + "k", QuarterString(bitrate) + "k");
  }

  /** The black frame plus silent stereo generator pushed to the local `input` stream. */
  function BaseInputArgs(width: int, height: int, fps: int): seq<string>
  {
    ["-f", "lavfi", "-i", "color=c=black:s=" + FormatResolution(width, height) + ":r=" + IntToString(fps),
     "-f", "lavfi", "-i", "anullsrc=channel_layout=stereo:sample_rate=44100",
     "-map", "0:v:0", "-map", "1:a:0",
     "-c:v", "libx264", "-preset", "ultrafast", "-tune", "zerolatency", "-pix_fmt", "yuv420p",
     "-c:a", "aac", "-f", "flv", "rtmp://localhost:1935/live/input"]
  }

  class SourceController {
    /** `sourceProcess`. */
    var source: Option<Pid>
    /** `baseInputProcess`. */
    var baseInput: Option<Pid>
    /** The pid the next spawn gets. */
    var nextPid: Pid
    /** Every spawn and SIGKILL, in order. */
    var effects: seq<Effect>

    /**
     * Handles name spawned, unkilled processes, and every process ever
     * spawned is either still held by a handle or has been killed: no
     * producer is ever leaked.
     */
    ghost predicate Valid()
      reads this
    {
      && (source.Some? ==> source.value < nextPid && Killed(source.value) !in effects)
      && (baseInput.Some? ==> baseInput.value < nextPid && Killed(baseInput.value) !in effects)
      && (source.Some? && baseInput.Some? ==> source.value != baseInput.value)
      && (forall i :: 0 <= i < |effects| ==> effects[i].pid < nextPid)
      && (forall p: Pid :: p < nextPid ==> Killed(p) in effects || source == Some(p) || baseInput == Some(p))
    }

    constructor ()
      ensures Valid() && source.None? && baseInput.None? && effects == [] && nextPid == 0
    {
      source := None;
      baseInput := None;
      nextPid := 0;
      effects := [];
    }

    /** `getSourceStdout`: the current producer's stdout (named by its pid), or null; it is never a killed one. */
    function Stdout(): (r: Option<Pid>)
      reads this
      ensures r.Some? <==> source.Some?
      ensures Valid() && r.Some? ==> Killed(r.value) !in effects && r.value < nextPid
    {
      source
    }

    /** killSource: SIGKILL the producer if there is one and forget it; nothing otherwise. */
    method Kill()
      requires Valid()
      modifies this
      ensures Valid()
      ensures source.None? && Stdout().None?
      ensures effects == old(effects) + (if old(source).Some? then [Killed(old(source).value)] else [])
      ensures baseInput == old(baseInput) && nextPid == old(nextPid)
    {
      if source.Some? {
        effects := effects + [Killed(source.value)];
        source := None;
      }
    }

    /**
     * startSource: the running producer is killed first, then exactly one new
     * producer is spawned with the arguments for the mode.
     */
    method Start(mode: SourceType, path: string, streamKey: string, settings: SourceSettings)
      requires Valid()
      modifies this
      ensures Valid()
      ensures source == Some(old(nextPid)) && nextPid == old(nextPid) + 1
      ensures effects == old(effects)
                         + (if old(source).Some? then [Killed(old(source).value)] else [])
                         + [Spawned(old(nextPid), mode, path, streamKey, settings)]
      ensures baseInput == old(baseInput)
    {
      if source.Some? {
        Kill();
      }
      var pid := nextPid;
      effects := effects + [Spawned(pid, mode, path, streamKey, settings)];
      source := Some(pid);
      nextPid := nextPid + 1;
    }

    /**
     * startSource for whatever value the caller passes as settings: the
     * running producer is killed first either way; a value without a
     * resolution then throws before anything is spawned, a settings object
     * spawns as Start does.
     */
    method StartWithArg(mode: SourceType, path: string, streamKey: string, arg: SettingsArg) returns (threw: bool)
      requires Valid()
      modifies this
      ensures Valid()
      ensures threw <==> arg.WithoutResolution?
      ensures arg.WithoutResolution? ==>
                source.None? && nextPid == old(nextPid) &&
                effects == old(effects) + (if old(source).Some? then [Killed(old(source).value)] else [])
      ensures arg.Given? ==>
                source == Some(old(nextPid)) && nextPid == old(nextPid) + 1 &&
                effects == old(effects)
                           + (if old(source).Some? then [Killed(old(source).value)] else [])
                           + [Spawned(old(nextPid), mode, path, streamKey, arg.settings)]
      ensures baseInput == old(baseInput)
    {
      if arg.WithoutResolution? {
        Kill();
        return true;
      }
      Start(mode, path, streamKey, arg.settings);
      threw := false;
    }

    /** startBaseInputStream: spawns the generator unless one is already held. */
    method StartBaseInput(width: int, height: int, fps: int)
      requires Valid()
      modifies this
      ensures Valid()
      ensures old(baseInput).Some? ==> baseInput == old(baseInput) && effects == old(effects) && nextPid == old(nextPid)
      ensures old(baseInput).None? ==>
                baseInput == Some(old(nextPid)) && nextPid == old(nextPid) + 1 &&
                effects == old(effects) + [BaseSpawned(old(nextPid), width, height, fps)]
      ensures source == old(source)
    {
      if baseInput.None? {
        var pid := nextPid;
        effects := effects + [BaseSpawned(pid, width, height, fps)];
        baseInput := Some(pid);
        nextPid := nextPid + 1;
      }
    }

    /** killBaseInputStream: SIGKILL the generator if held and forget it; nothing otherwise. */
    method KillBaseInput()
      requires Valid()
      modifies this
      ensures Valid()
      ensures baseInput.None?
      ensures effects == old(effects) + (if old(baseInput).Some? then [Killed(old(baseInput).value)] else [])
      ensures source == old(source) && nextPid == old(nextPid)
    {
      if baseInput.Some? {
        effects := effects + [Killed(baseInput.value)];
        baseInput := None;
      }
    }
  }
}
