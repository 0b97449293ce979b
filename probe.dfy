/**
 * ffprobe result interpretation: the chunks read from ffprobe's stdout, the
 * exit code, and what JSON.parse made of the text become a ProbeResult or
 * null (None).
 */
module Probe {
  import opened Text

  /** One entry of ffprobe's `streams` array; any field may be missing. */
  datatype StreamRecord = StreamRecord(
    width: Option<int>,
    height: Option<int>,
    rFrameRate: Option<string>,
    sampleRate: Option<string>,
    channels: Option<int>)

  /**
   * What JSON.parse made of ffprobe's output: Malformed when it threw (or the
   * document has no properties to read), else the `streams` field if present.
   */
  datatype Parsed = Malformed | Document(streams: Option<seq<StreamRecord>>)

  datatype ProbeResult = ProbeResult(width: int, height: int, fps: JsNum, sampleRate: JsNum, channels: int)

  const DefaultWidth := 1920
  const DefaultHeight := 1080
  const DefaultFps := 30
  const DefaultSampleRate := 48000
  const DefaultChannels := 2

  predicate HasWidth(s: StreamRecord) { s.width.Some? }

  predicate HasSampleRate(s: StreamRecord) { s.sampleRate.Some? }

  /** Array.prototype.find as an index: the first position satisfying p, or |s| when none does. */
  function FirstIndex(s: seq<StreamRecord>, p: StreamRecord -> bool): (i: nat)
    ensures i <= |s|
    ensures forall j :: 0 <= j < i ==> !p(s[j])
    ensures i < |s| ==> p(s[i])
  {
    if s == [] then 0 else if p(s[0]) then 0 else 1 + FirstIndex(s[1..], p)
  }

  /** Any position that satisfies p with no earlier one that does is what FirstIndex finds. */
  lemma {:induction false} FirstIndexIs(s: seq<StreamRecord>, p: StreamRecord -> bool, i: nat)
    requires i < |s| && p(s[i])
    requires forall j :: 0 <= j < i ==> !p(s[j])
    ensures FirstIndex(s, p) == i
  {
    if i > 0 {
      assert !p(s[0]);
      FirstIndexIs(s[1..], p, i - 1);
    }
  }

  /** When no element satisfies p, FirstIndex is |s|, the "not found" of find. */
  lemma {:induction false} FirstIndexNone(s: seq<StreamRecord>, p: StreamRecord -> bool)
    requires forall j :: 0 <= j < |s| ==> !p(s[j])
    ensures FirstIndex(s, p) == |s|
  {
    if s != [] {
      assert !p(s[0]);
      FirstIndexNone(s[1..], p);
    }
  }

  /** Math.round(n / d) for d > 0: the nearest integer, halves rounded up. */
  function RoundRatio(n: int, d: int): (r: int)
    requires d > 0
    ensures 2 * d * r - d <= 2 * n < 2 * d * r + d
  {
    var q := (2 * n + d) / (2 * d);
    assert 2 * d * q <= 2 * n + d < 2 * d * q + 2 * d;
    q
  }

  /** The rounding is the one integer within half a frame of n/d. */
  lemma RoundRatioUnique(n: int, d: int, k: int)
    requires d > 0
    requires 2 * d * k - d <= 2 * n < 2 * d * k + d
    ensures k == RoundRatio(n, d)
  {
    var r := RoundRatio(n, d);
    var m := k - r;
    assert 2 * d * k == 2 * d * r + 2 * d * m;
    assert -2 * d < 2 * d * m < 2 * d;
    if m >= 1 {
      ScaleAtLeast(2 * d, m, 1);
    } else if m <= -1 {
      ScaleAtLeast(2 * d, -1, m);
    }
  }

  lemma ScaleAtLeast(a: int, lo: int, hi: int)
    requires a > 0 && lo <= hi
    ensures a * lo <= a * hi
  {
  }

  /**
   * The fps for a video stream's `r_frame_rate`: round(num/den) when the text
   * is present and its denominator is a positive number, 30 otherwise.
   */
  function FrameRate(rate: Option<string>): (r: JsNum)
    ensures !Present(rate) ==> r == Num(DefaultFps)
    ensures r.NaN? ==> Present(rate) && '/' in rate.value
  {
    if !Present(rate) then Num(DefaultFps)
    else
      SplitPieces(rate.value, '/');
      var parts := Split(rate.value, '/');
      var num := ToNumber(parts[0]);
      if |parts| > 1 && ToNumber(parts[1]).Num? && ToNumber(parts[1]).value > 0 then
        if num.NaN? then NaN else Num(RoundRatio(num.value, ToNumber(parts[1]).value))
      else Num(DefaultFps)
  }

  /** An "n/d" frame rate with d > 0 gives the rounded quotient; no rate at all gives 30. */
  lemma FrameRateOfFraction(n: int, d: int)
    requires d > 0
    ensures FrameRate(Some(IntToString(n) + "/" + IntToString(d))) == Num(RoundRatio(n, d))
    ensures FrameRate(None) == Num(30) && FrameRate(Some("")) == Num(30)
  {
    var a, b := IntToString(n), IntToString(d);
    SplitJoin([a, b], '/');
    assert Join([a, b], '/') == a + "/" + b;
    ToNumberOfIntToString(n);
    ToNumberOfIntToString(d);
  }

  /** The result for one chosen video stream and the audio stream, if any. */
  function Describe(video: StreamRecord, audio: Option<StreamRecord>): (r: ProbeResult)
    requires HasWidth(video)
  {
    ProbeResult(
      if video.width.value != 0 then video.width.value else DefaultWidth,
      if video.height.Some? && video.height.value != 0 then video.height.value else DefaultHeight,
      FrameRate(video.rFrameRate),
      if audio.Some? && Present(audio.value.sampleRate) then ParseInt(audio.value.sampleRate.value, true)
      else Num(DefaultSampleRate),
      if audio.Some? && audio.value.channels.Some? && audio.value.channels.value != 0 then audio.value.channels.value
      else DefaultChannels)
  }

  /**
   * The `close` handler of probeStream: null on a non-zero (or signal) exit,
   * on output JSON.parse rejects and when no stream has a width; otherwise the
   * first stream with a width is the video and the first with a sample rate
   * (if any) the audio.
   */
  function Interpret(code: Option<int>, parsed: Parsed): (r: Option<ProbeResult>)
    ensures code != Some(0) ==> r.None?
    ensures parsed.Malformed? || (parsed.Document? && parsed.streams.None?) ==> r.None?
    ensures r.Some? <==> code == Some(0) && parsed.Document? && parsed.streams.Some? &&
                         exists i :: 0 <= i < |parsed.streams.value| && HasWidth(parsed.streams.value[i])
    ensures r.Some? ==> r.value.width != 0 && r.value.height != 0 && r.value.channels != 0
  {
    if code != Some(0) || parsed.Malformed? || parsed.streams.None? then None
    else
      var s := parsed.streams.value;
      var v := FirstIndex(s, HasWidth);
      var a := FirstIndex(s, HasSampleRate);
      if v == |s| then None
      else Some(Describe(s[v], if a < |s| then Some(s[a]) else None))
  }

  /** The video stream is the first record with a width, whatever follows it. */
  lemma {:induction false} VideoIsFirstWithWidth(s: seq<StreamRecord>, i: nat)
    requires i < |s| && HasWidth(s[i])
    requires forall j :: 0 <= j < i ==> !HasWidth(s[j])
    ensures var r := Interpret(Some(0), Document(Some(s)));
            r.Some? &&
            r.value.width == (if s[i].width.value != 0 then s[i].width.value else 1920) &&
            r.value.height == (if s[i].height.Some? && s[i].height.value != 0 then s[i].height.value else 1080) &&
            r.value.fps == FrameRate(s[i].rFrameRate)
  {
    FirstIndexIs(s, HasWidth, i);
  }

  /** Audio is optional: with no record carrying a sample rate the defaults 48000 Hz and 2 channels apply. */
  lemma NoAudioDefaults(s: seq<StreamRecord>)
    requires exists i :: 0 <= i < |s| && HasWidth(s[i])
    requires forall j :: 0 <= j < |s| ==> !HasSampleRate(s[j])
    ensures var r := Interpret(Some(0), Document(Some(s)));
            r.Some? && r.value.sampleRate == Num(48000) && r.value.channels == 2
  {
    FirstIndexNone(s, HasSampleRate);
  }

  /** The audio stream is the first record with a sample rate; its rate is parsed with parseInt. */
  lemma {:induction false} AudioIsFirstWithSampleRate(s: seq<StreamRecord>, k: nat, rate: nat)
    requires exists i :: 0 <= i < |s| && HasWidth(s[i])
    requires k < |s| && s[k].sampleRate == Some(IntToString(rate))
    requires forall j :: 0 <= j < k ==> !HasSampleRate(s[j])
    ensures var r := Interpret(Some(0), Document(Some(s)));
            r.Some? && r.value.sampleRate == Num(rate) &&
            r.value.channels == (if s[k].channels.Some? && s[k].channels.value != 0 then s[k].channels.value else 2)
  {
    FirstIndexIs(s, HasSampleRate, k);
    var v := FirstIndex(s, HasWidth);
    assert v < |s| && HasWidth(s[v]);
    assert Interpret(Some(0), Document(Some(s))) == Some(Describe(s[v], Some(s[k])));
    ParseIntOfIntToString(rate, true);
  }

  // ---------------------------------------------------------------------------
  // Reading ffprobe's stdout

  /** The chunks glued together in arrival order. */
  function Concat(chunks: seq<string>): string
  {
    if chunks == [] then "" else Concat(chunks[..|chunks| - 1]) + chunks[|chunks| - 1]
  }

  /** Concatenation distributes over splitting the chunk stream anywhere: nothing is lost or reordered. */
  lemma {:induction false} ConcatAppend(a: seq<string>, b: seq<string>)
    ensures Concat(a + b) == Concat(a) + Concat(b)
  {
    if b != [] {
      var b' := b[..|b| - 1];
      assert (a + b)[..|a + b| - 1] == a + b';
      ConcatAppend(a, b');
    } else {
      assert a + b == a;
    }
  }

  /** `output += d.toString()` for every stdout chunk, in order. */
  method CollectOutput(chunks: seq<string>) returns (output: string)
    ensures output == Concat(chunks)
  {
    output := "";
    var i := 0;
    while i < |chunks|
      invariant 0 <= i <= |chunks|
      invariant output == Concat(chunks[..i])
    {
      assert chunks[..i + 1][..i] == chunks[..i];
      output := output + chunks[i];
      i := i + 1;
    }
    assert chunks[..i] == chunks;
  }

  /**
   * probeStream once the process has closed: the collected stdout is handed
   * to `parse` (JSON.parse) and the result interpreted.
   */
  method ProbeStream(chunks: seq<string>, code: Option<int>, parse: string -> Parsed) returns (r: Option<ProbeResult>)
    ensures r == Interpret(code, parse(Concat(chunks)))
    ensures code != Some(0) ==> r.None?
  {
    if code != Some(0) {
      return None;
    }
    var output := CollectOutput(chunks);
    r := Interpret(code, parse(output));
  }
}
