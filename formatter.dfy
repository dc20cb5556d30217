/**
 * Platform formatting: the SubRip timestamp, the target size of each aspect
 * ratio, the choice between plain scaling, letterboxing and padding, the
 * defaults of the metadata probe, and which formatted files the
 * multi-platform pass reports.
 *
 * The probe's JSON comes in already decoded; rendering a clip (the ffmpeg
 * run) comes in as a function that says whether it produced the file.
 */
module Formatter {
  import opened Wrappers
  import opened Strings
  import opened Numbers
  import opened Selection
  import opened Transcript
  import ClipProcessor

  // ---------------------------------------------------------------------------
  // SubRip timestamps
  // ---------------------------------------------------------------------------

  /** The four numbers a SubRip timestamp shows. */
  datatype Clock = Clock(hours: int, minutes: int, secs: int, millis: int)

  /** hours, minutes, seconds and milliseconds with floor division, Python modulo and truncation. */
  function SrtClock(seconds: real): Clock
  {
    Clock((seconds / 3600.0).Floor, (PyMod(seconds, 3600.0) / 60.0).Floor,
          Trunc(PyMod(seconds, 60.0)), Trunc(PyMod(seconds, 1.0) * 1000.0))
  }

  /** f"{hours:02d}:{minutes:02d}:{secs:02d},{millis:03d}". */
  function ClockText(c: Clock): string
  {
    PadInt(c.hours, 2) + ":" + PadInt(c.minutes, 2) + ":" + PadInt(c.secs, 2) + "," + PadInt(c.millis, 3)
  }

  /** format_srt_timestamp. */
  function SrtTimestamp(seconds: real): string
  {
    ClockText(SrtClock(seconds))
  }

  /**
   * The timestamp's fields: minutes and seconds below 60, milliseconds below
   * 1000, and together they give the time back to the millisecond it falls in.
   */
  lemma SrtClockSpec(seconds: real)
    ensures var c := SrtClock(seconds);
      0 <= c.minutes < 60 && 0 <= c.secs < 60 && 0 <= c.millis < 1000
      && (c.hours * 3600 + c.minutes * 60 + c.secs) as real + c.millis as real / 1000.0 <= seconds
      && seconds < (c.hours * 3600 + c.minutes * 60 + c.secs) as real + (c.millis + 1) as real / 1000.0
  {
    var h := (seconds / 3600.0).Floor;
    var r1 := PyMod(seconds, 3600.0);
    assert r1 == seconds - 3600.0 * h as real;
    var m := (r1 / 60.0).Floor;
    var r2 := r1 - 60.0 * m as real;
    assert 0.0 <= r2 < 60.0;
    var whole := h * 60 + m;
    assert seconds == 60.0 * whole as real + r2;
    assert (seconds / 60.0).Floor == whole;
    var r3 := PyMod(seconds, 60.0);
    assert r3 == r2;
    var s := Trunc(r3);
    var frac := r3 - s as real;
    assert 0.0 <= frac < 1.0;
    var secsTotal := h * 3600 + m * 60 + s;
    assert seconds == secsTotal as real + frac;
    assert seconds.Floor == secsTotal;
    assert PyMod(seconds, 1.0) == frac;
    var ms := Trunc(frac * 1000.0);
    assert ms as real <= frac * 1000.0 < (ms + 1) as real;
  }

  /** f"{n:03d}" for 0 <= n < 1000: exactly three decimal digits. */
  lemma PadThreeDigits(n: int)
    requires 0 <= n < 1000
    ensures PadInt(n, 3) == [DigitChar(n / 100), DigitChar(n / 10 % 10), DigitChar(n % 10)]
  {
    if n >= 100 {
      assert NatToString(n) == NatToString(n / 10) + [DigitChar(n % 10)];
      assert NatToString(n / 10) == NatToString(n / 100) + [DigitChar(n / 10 % 10)];
    } else if n >= 10 {
      assert NatToString(n) == NatToString(n / 10) + [DigitChar(n % 10)];
      assert Zeros(1) == "0";
    } else {
      assert Zeros(2) == "00";
    }
  }

  /** Fields of two, two, two and three digits joined by ':', ':' and ','. */
  lemma ClockShape(a: string, b: string, c: string, d: string)
    requires |a| == 2 && |b| == 2 && |c| == 2 && |d| == 3
    requires forall i :: 0 <= i < 2 ==> IsDigit(a[i]) && IsDigit(b[i]) && IsDigit(c[i])
    requires forall i :: 0 <= i < 3 ==> IsDigit(d[i])
    ensures var r := a + ":" + b + ":" + c + "," + d;
      |r| == 12 && r[2] == ':' && r[5] == ':' && r[8] == ','
      && forall i :: 0 <= i < 12 && i != 2 && i != 5 && i != 8 ==> IsDigit(r[i])
  {
  }

  /** A clock whose fields are in range and whose hours are below 100 shows exactly twelve characters. */
  lemma ClockTextShape(c: Clock)
    requires 0 <= c.hours < 100 && 0 <= c.minutes < 60 && 0 <= c.secs < 60 && 0 <= c.millis < 1000
    ensures var r := ClockText(c);
      |r| == 12 && r[2] == ':' && r[5] == ':' && r[8] == ','
      && forall i :: 0 <= i < 12 && i != 2 && i != 5 && i != 8 ==> IsDigit(r[i])
  {
    PadTwoDigits(c.hours);
    PadTwoDigits(c.minutes);
    PadTwoDigits(c.secs);
    PadThreeDigits(c.millis);
    ClockShape(PadInt(c.hours, 2), PadInt(c.minutes, 2), PadInt(c.secs, 2), PadInt(c.millis, 3));
  }

  /** Below 100 hours the timestamp is exactly twelve characters: digits around two colons and a comma. */
  lemma SrtTimestampShape(seconds: real)
    requires 0.0 <= seconds < 360000.0
    ensures var r := SrtTimestamp(seconds);
      |r| == 12 && r[2] == ':' && r[5] == ':' && r[8] == ','
      && forall i :: 0 <= i < 12 && i != 2 && i != 5 && i != 8 ==> IsDigit(r[i])
  {
    var c := SrtClock(seconds);
    assert 0 <= c.hours < 100 by {
      var q := seconds / 3600.0;
      assert 0.0 <= q < 100.0;
    }
    SrtClockSpec(seconds);
    ClockTextShape(c);
  }

  // ---------------------------------------------------------------------------
  // Target sizes and the filter choice
  // ---------------------------------------------------------------------------

  datatype Size = Size(width: nat, height: nat)

  /** The dimensions table; any other ratio is a failed lookup (a KeyError). */
  function Dimensions(aspectRatio: string): (r: Option<Size>)
    ensures r.Some? ==> r.value.height > 0
  {
    if aspectRatio == "9:16" then Some(Size(1080, 1920))
    else if aspectRatio == "16:9" then Some(Size(1920, 1080))
    else if aspectRatio == "1:1" then Some(Size(1080, 1080))
    else if aspectRatio == "4:5" then Some(Size(1080, 1350))
    else None
  }

  /**
   * Exactly the four platform ratios have a size, and each size has the
   * proportions its key names: width * b == height * a for the key "a:b".
   */
  lemma DimensionsSpec(aspectRatio: string)
    ensures Dimensions(aspectRatio).Some? <==> aspectRatio in ["9:16", "16:9", "1:1", "4:5"]
    ensures aspectRatio == "9:16" ==> Dimensions(aspectRatio).value.width * 16 == Dimensions(aspectRatio).value.height * 9
    ensures aspectRatio == "16:9" ==> Dimensions(aspectRatio).value.width * 9 == Dimensions(aspectRatio).value.height * 16
    ensures aspectRatio == "1:1" ==> Dimensions(aspectRatio).value.width == Dimensions(aspectRatio).value.height
    ensures aspectRatio == "4:5" ==> Dimensions(aspectRatio).value.width * 5 == Dimensions(aspectRatio).value.height * 4
  {
  }

  datatype FilterKind = ScaleOnly | Letterbox | BlurPad

  /** Scale when the ratios agree to 0.01, letterbox a wider source, pad a taller one. */
  function ChooseFilter(sourceRatio: real, targetRatio: real): FilterKind
  {
    if Abs(sourceRatio - targetRatio) < 0.01 then ScaleOnly
    else if sourceRatio > targetRatio then Letterbox
    else BlurPad
  }

  function Abs(x: real): (r: real)
    ensures r >= 0.0 && (r == x || r == -x)
  {
    if x < 0.0 then -x else x
  }

  /**
   * The three kinds split the source ratios into three bands around the
   * target: within 0.01 it scales, at least 0.01 wider it letterboxes, at
   * least 0.01 taller it pads.
   */
  lemma ChooseFilterSpec(sourceRatio: real, targetRatio: real)
    ensures ChooseFilter(sourceRatio, targetRatio) == ScaleOnly <==> targetRatio - 0.01 < sourceRatio < targetRatio + 0.01
    ensures ChooseFilter(sourceRatio, targetRatio) == Letterbox <==> sourceRatio >= targetRatio + 0.01
    ensures ChooseFilter(sourceRatio, targetRatio) == BlurPad <==> sourceRatio <= targetRatio - 0.01
  {
  }

  /** target_width / target_height of the ratio's size. */
  function TargetRatio(size: Size): real
    requires size.height > 0
  {
    size.width as real / size.height as real
  }

  /** The filter apply_format_with_aspect_ratio builds, or None when the ratio is not in the table. */
  function FilterFor(aspectRatio: string, sourceRatio: real): (r: Option<FilterKind>)
    ensures r.Some? <==> Dimensions(aspectRatio).Some?
  {
    match Dimensions(aspectRatio)
    case None => None
    case Some(size) => Some(ChooseFilter(sourceRatio, TargetRatio(size)))
  }

  /** A 16:9 source is only rescaled for 16:9, letterboxed for the three narrower ratios. */
  lemma WideSourceFilters()
    ensures FilterFor("16:9", 16.0 / 9.0) == Some(ScaleOnly)
    ensures FilterFor("9:16", 16.0 / 9.0) == Some(Letterbox)
    ensures FilterFor("1:1", 16.0 / 9.0) == Some(Letterbox)
    ensures FilterFor("4:5", 16.0 / 9.0) == Some(Letterbox)
  {
    ChooseFilterSpec(16.0 / 9.0, 1920.0 / 1080.0);
    ChooseFilterSpec(16.0 / 9.0, 1080.0 / 1920.0);
    ChooseFilterSpec(16.0 / 9.0, 1080.0 / 1080.0);
    ChooseFilterSpec(16.0 / 9.0, 1080.0 / 1350.0);
  }

  // ---------------------------------------------------------------------------
  // Metadata probe
  // ---------------------------------------------------------------------------

  /** One entry of the probe's `streams` list; each key can be missing. */
  datatype Stream = Stream(codecType: Option<string>, width: Option<int>, height: Option<int>, frameRate: Option<string>)

  /** The decoded probe output: the streams list and the format's duration string. */
  datatype Probe = Probe(streams: seq<Stream>, duration: Option<string>)

  datatype Metadata = Metadata(width: int, height: int, duration: real, aspectRatio: real, fps: real)

  /** The metadata of a failed probe. */
  function FallbackMetadata(): Metadata
  {
    Metadata(1920, 1080, 0.0, 16.0 / 9.0, 30.0)
  }

  /**
   * The first video stream, `{}` when there is none, or a failure (the
   * KeyError of a stream without codec_type met before any video stream).
   */
  function FirstVideo(streams: seq<Stream>): Result<Stream>
  {
    if |streams| == 0 then Success(Stream(None, None, None, None))
    else if streams[0].codecType.None? then Failure("codec_type")
    else if streams[0].codecType.value == "video" then Success(streams[0])
    else FirstVideo(streams[1..])
  }

  /** The search returns the first video stream when everything before it has a non-video type. */
  lemma {:induction false} FirstVideoFinds(streams: seq<Stream>, k: nat)
    requires k < |streams| && streams[k].codecType == Some("video")
    requires forall i :: 0 <= i < k ==> streams[i].codecType.Some? && streams[i].codecType.value != "video"
    ensures FirstVideo(streams) == Success(streams[k])
  {
    if k > 0 {
      assert streams[1..][k - 1] == streams[k];
      assert forall i :: 0 <= i < k - 1 ==> streams[1..][i] == streams[i + 1];
      FirstVideoFinds(streams[1..], k - 1);
    }
  }

  /** A stream without codec_type before any video stream makes the probe fail. */
  lemma {:induction false} FirstVideoMissingType(streams: seq<Stream>, k: nat)
    requires k < |streams| && streams[k].codecType.None?
    requires forall i :: 0 <= i < k ==> streams[i].codecType.Some? && streams[i].codecType.value != "video"
    ensures FirstVideo(streams).Failure?
  {
    if k > 0 {
      assert streams[1..][k - 1] == streams[k];
      assert forall i :: 0 <= i < k - 1 ==> streams[1..][i] == streams[i + 1];
      FirstVideoMissingType(streams[1..], k - 1);
    }
  }

  /** The fps of a stream: its r_frame_rate ('30/1' when missing) parsed with 30 as the default. */
  function StreamFps(frameRate: Option<string>): real
  {
    ClipProcessor.ParseRate(frameRate.GetOr("30/1"), 30.0)
  }

  /** float(format.get('duration', 0)): None when the string does not parse. */
  function DurationOf(field: Option<string>): Option<real>
  {
    match field
    case None => Some(0.0)
    case Some(s) => FiniteValue(s)
  }

  /**
   * get_video_metadata on a decoded probe (None: ffprobe or the JSON decoding
   * failed). Any failure gives the fallback.
   */
  function VideoMetadata(probe: Option<Probe>): Metadata
  {
    if probe.None? then FallbackMetadata()
    else match FirstVideo(probe.value.streams)
      case Failure(_) => FallbackMetadata()
      case Success(video) =>
        match DurationOf(probe.value.duration)
        case None => FallbackMetadata()
        case Some(duration) =>
          Metadata(video.width.GetOr(1920), video.height.GetOr(1080), duration,
                   AspectOf(video.width, video.height), StreamFps(video.frameRate))
  }

  /** get('width', 16) / max(get('height', 9), 1). */
  function AspectOf(width: Option<int>, height: Option<int>): real
  {
    var h := height.GetOr(9);
    width.GetOr(16) as real / (if h > 1 then h else 1) as real
  }

  /**
   * The ratio's own defaults: 16/9 with both sides missing, but 16 over the
   * height when only the width is missing, whatever the 1920 reported as
   * the width.
   */
  lemma AspectDefaults(height: int)
    requires height >= 1
    ensures AspectOf(None, None) == 16.0 / 9.0
    ensures AspectOf(None, Some(height)) * height as real == 16.0
  {
    assert (if height > 1 then height else 1) == height;
  }

  /** A stream without a frame rate runs at 30 fps. */
  lemma MissingRateIsThirty()
    ensures StreamFps(None) == 30.0
  {
    var num, den := NatToString(30), NatToString(1);
    NatToStringRoundTrip(30);
    NatToStringRoundTrip(1);
    assert num == NatToString(3) + [DigitChar(0)];
    ClipProcessor.DigitsFraction(num, den, 30.0);
    assert num + "/" + den == "30/1";
  }

  /**
   * The two rate parsers differ only in their default: a rate with a zero
   * denominator is 30 fps here and 0 fps to the clip processor.
   */
  lemma RateDefaultsDiffer(num: string, den: string)
    requires IsDigitPart(num) && IsDigitPart(den) && DigitsValue(den) == 0
    ensures StreamFps(Some(num + "/" + den)) == 30.0
    ensures ClipProcessor.FrameRate(Some(num + "/" + den)) == 0.0
  {
    ClipProcessor.DigitsFraction(num, den, 30.0);
    ClipProcessor.DigitsFraction(num, den, 0.0);
  }

  /**
   * A video stream without width and height is reported as 1920x1080 with
   * ratio 16/9, and one without a frame rate at 30 fps.
   */
  lemma MetadataDefaults(video: Stream, probe: Probe)
    requires FirstVideo(probe.streams) == Success(video) && DurationOf(probe.duration).Some?
    ensures VideoMetadata(Some(probe)).aspectRatio == AspectOf(video.width, video.height)
    ensures video.width.None? ==> VideoMetadata(Some(probe)).width == 1920
    ensures video.height.None? ==> VideoMetadata(Some(probe)).height == 1080
    ensures video.width.None? && video.height.None? ==> VideoMetadata(Some(probe)).aspectRatio == 16.0 / 9.0
    ensures video.frameRate.None? ==> VideoMetadata(Some(probe)).fps == 30.0
  {
    MissingRateIsThirty();
    AspectDefaults(1);
  }

  /** A probe that fails, a stream missing its type, or an unreadable duration all give the fallback. */
  lemma MetadataFallback(probe: Option<Probe>)
    ensures probe.None? ==> VideoMetadata(probe) == FallbackMetadata()
    ensures probe.Some? && FirstVideo(probe.value.streams).Failure? ==> VideoMetadata(probe) == FallbackMetadata()
    ensures probe.Some? && probe.value.duration.Some? && FiniteValue(probe.value.duration.value).None? ==>
      VideoMetadata(probe) == FallbackMetadata()
  {
  }

  // ---------------------------------------------------------------------------
  // Multi-platform formatting
  // ---------------------------------------------------------------------------

  /** aspect_ratio.replace(':', 'x'). */
  function RatioTag(aspectRatio: string): (r: string)
    ensures |r| == |aspectRatio| && ':' !in r
  {
    seq(|aspectRatio|, i requires 0 <= i < |aspectRatio| => if aspectRatio[i] == ':' then 'x' else aspectRatio[i])
  }

  /** output_dir / f"clip_{i:02d}_{tag}.mp4". */
  function OutputPath(outputDir: string, i: nat, aspectRatio: string): string
  {
    outputDir + "/clip_" + PadInt(i, 2) + "_" + RatioTag(aspectRatio) + ".mp4"
  }

  /** The formats asked for, or 9:16 and 16:9. */
  function FormatsOr(formats: Option<seq<string>>): seq<string>
  {
    formats.GetOr(["9:16", "16:9"])
  }

  /** The first format that has no size, if any. */
  function FirstUnknown(formats: seq<string>): Option<string>
  {
    if |formats| == 0 then None
    else
      var earlier := FirstUnknown(formats[..|formats| - 1]);
      if earlier.Some? then earlier
      else if Dimensions(formats[|formats| - 1]).None? then Some(formats[|formats| - 1])
      else None
  }

  /**
   * The paths clip number i adds to the list of format f while the inner
   * loop runs over formats: one for each time f is listed, when it renders.
   */
  function ClipOutputs(clip: string, i: nat, outputDir: string, formats: seq<string>, f: string,
                       render: (string, string, string) -> bool): seq<string>
  {
    if |formats| == 0 then []
    else
      var earlier := ClipOutputs(clip, i, outputDir, formats[..|formats| - 1], f, render);
      var path := OutputPath(outputDir, i, f);
      if formats[|formats| - 1] == f && render(clip, path, f) then earlier + [path] else earlier
  }

  /** The list of format f after the first k clips (clip k is numbered k). */
  function Listed(clips: seq<string>, outputDir: string, formats: seq<string>, f: string,
                  render: (string, string, string) -> bool, k: nat): seq<string>
    requires k <= |clips|
  {
    if k == 0 then []
    else Listed(clips, outputDir, formats, f, render, k - 1) + ClipOutputs(clips[k - 1], k, outputDir, formats, f, render)
  }

  /**
   * What format_clips_multi_platform returns: the KeyError of the first
   * unknown format as soon as one clip is processed, otherwise one list per
   * listed format.
   */
  function Formatted(clips: seq<string>, moments: seq<Moment>, outputDir: string, formats: Option<seq<string>>,
                     render: (string, string, string) -> bool): Result<map<string, seq<string>>>
  {
    var fs := FormatsOr(formats);
    var n := if |clips| < |moments| then |clips| else |moments|;
    if n > 0 && FirstUnknown(fs).Some? then Failure(FirstUnknown(fs).value)
    else Success(map f | f in fs :: Listed(clips, outputDir, fs, f, render, n))
  }

  lemma FirstUnknownSnoc(formats: seq<string>, j: nat)
    requires j < |formats|
    ensures FirstUnknown(formats[..j + 1])
      == if FirstUnknown(formats[..j]).Some? then FirstUnknown(formats[..j])
         else if Dimensions(formats[j]).None? then Some(formats[j]) else None
  {
    assert formats[..j + 1][..j] == formats[..j];
  }

  /** Once a prefix has an unknown format, it stays the first one. */
  lemma {:induction false} FirstUnknownKept(formats: seq<string>, j: nat)
    requires j <= |formats| && FirstUnknown(formats[..j]).Some?
    ensures FirstUnknown(formats) == FirstUnknown(formats[..j])
    decreases |formats| - j
  {
    if j == |formats| {
      assert formats[..j] == formats;
    } else {
      FirstUnknownSnoc(formats, j);
      FirstUnknownKept(formats, j + 1);
    }
  }

  /** FirstUnknown is absent exactly when every format has a size. */
  lemma {:induction false} FirstUnknownNone(formats: seq<string>)
    ensures FirstUnknown(formats).None? <==> forall i :: 0 <= i < |formats| ==> Dimensions(formats[i]).Some?
  {
    if |formats| > 0 {
      var init := formats[..|formats| - 1];
      FirstUnknownNone(init);
      assert forall i :: 0 <= i < |init| ==> init[i] == formats[i];
    }
  }

  lemma ClipOutputsSnoc(clip: string, i: nat, outputDir: string, formats: seq<string>, j: nat, f: string,
                        render: (string, string, string) -> bool)
    requires j < |formats|
    ensures ClipOutputs(clip, i, outputDir, formats[..j + 1], f, render)
      == if formats[j] == f && render(clip, OutputPath(outputDir, i, f), f)
         then ClipOutputs(clip, i, outputDir, formats[..j], f, render) + [OutputPath(outputDir, i, f)]
         else ClipOutputs(clip, i, outputDir, formats[..j], f, render)
  {
    assert formats[..j + 1][..j] == formats[..j];
  }

  /** Appending one rendered path keeps every list equal to its pass so far. */
  lemma ListsStep(before: map<string, seq<string>>, prev: map<string, seq<string>>, after: map<string, seq<string>>,
                  clip: string, i: nat, outputDir: string, formats: seq<string>, j: nat,
                  render: (string, string, string) -> bool)
    requires j < |formats| && formats[j] in prev && prev.Keys == before.Keys
    requires forall f :: f in prev ==> prev[f] == before[f] + ClipOutputs(clip, i, outputDir, formats[..j], f, render)
    requires after == if render(clip, OutputPath(outputDir, i, formats[j]), formats[j])
      then prev[formats[j] := prev[formats[j]] + [OutputPath(outputDir, i, formats[j])]] else prev
    ensures after.Keys == before.Keys
    ensures forall f :: f in after ==> after[f] == before[f] + ClipOutputs(clip, i, outputDir, formats[..j + 1], f, render)
  {
    forall f | f in after ensures after[f] == before[f] + ClipOutputs(clip, i, outputDir, formats[..j + 1], f, render) {
      ClipOutputsSnoc(clip, i, outputDir, formats, j, f, render);
    }
  }

  /** One clip's pass over the formats: each rendered format gets this clip's path appended. */
  method FormatOneClip(clip: string, i: nat, outputDir: string, formats: seq<string>,
                       render: (string, string, string) -> bool, before: map<string, seq<string>>)
    returns (unknown: Option<string>, after: map<string, seq<string>>)
    requires forall f :: f in formats ==> f in before
    ensures unknown == FirstUnknown(formats)
    ensures unknown.None? ==> after.Keys == before.Keys
    ensures unknown.None? ==>
      forall f :: f in after ==> after[f] == before[f] + ClipOutputs(clip, i, outputDir, formats, f, render)
  {
    after := before;
    for j := 0 to |formats|
      invariant FirstUnknown(formats[..j]).None?
      invariant after.Keys == before.Keys
      invariant forall f :: f in after ==> after[f] == before[f] + ClipOutputs(clip, i, outputDir, formats[..j], f, render)
    {
      var aspectRatio := formats[j];
      FirstUnknownSnoc(formats, j);
      if Dimensions(aspectRatio).None? {
        FirstUnknownKept(formats, j + 1);
        return Some(aspectRatio), after;
      }
      var outputPath := OutputPath(outputDir, i, aspectRatio);
      var success := render(clip, outputPath, aspectRatio);
      ghost var prev := after;
      if success {
        after := after[aspectRatio := after[aspectRatio] + [outputPath]];
      }
      ListsStep(before, prev, after, clip, i, outputDir, formats, j, render);
    }
    assert formats[..|formats|] == formats;
    unknown := None;
  }

  /** One more clip extends each list by that clip's outputs. */
  lemma ListedStep(clips: seq<string>, outputDir: string, formats: seq<string>, render: (string, string, string) -> bool,
                   k: nat, before: map<string, seq<string>>, after: map<string, seq<string>>)
    requires k < |clips|
    requires forall f :: f in before ==> before[f] == Listed(clips, outputDir, formats, f, render, k)
    requires after.Keys == before.Keys
    requires forall f :: f in after ==> after[f] == before[f] + ClipOutputs(clips[k], k + 1, outputDir, formats, f, render)
    ensures forall f :: f in after ==> after[f] == Listed(clips, outputDir, formats, f, render, k + 1)
  {
  }

  /** Lists that match Listed for every listed format make up the successful result. */
  lemma FormattedSuccess(clips: seq<string>, moments: seq<Moment>, outputDir: string, formats: Option<seq<string>>,
                         render: (string, string, string) -> bool, m: map<string, seq<string>>)
    requires var n := if |clips| < |moments| then |clips| else |moments|;
      !(n > 0 && FirstUnknown(FormatsOr(formats)).Some?)
      && m.Keys == (set f | f in FormatsOr(formats))
      && forall f :: f in m ==> m[f] == Listed(clips, outputDir, FormatsOr(formats), f, render, n)
    ensures Formatted(clips, moments, outputDir, formats, render) == Success(m)
  {
    var fs := FormatsOr(formats);
    var n := if |clips| < |moments| then |clips| else |moments|;
    assert m == map f | f in fs :: Listed(clips, outputDir, fs, f, render, n);
  }

  /** The loop over the first n clips, from lists that start empty. */
  method FormatAll(clips: seq<string>, n: nat, outputDir: string, fs: seq<string>,
                   render: (string, string, string) -> bool, empty: map<string, seq<string>>)
    returns (unknown: Option<string>, formatted: map<string, seq<string>>)
    requires n <= |clips|
    requires empty.Keys == (set f | f in fs) && forall f :: f in empty ==> empty[f] == []
    ensures unknown.Some? ==> n > 0 && unknown == FirstUnknown(fs)
    ensures unknown.None? ==> !(n > 0 && FirstUnknown(fs).Some?)
    ensures unknown.None? ==> formatted.Keys == set f | f in fs
    ensures unknown.None? ==> forall f :: f in formatted ==> formatted[f] == Listed(clips, outputDir, fs, f, render, n)
  {
    formatted := empty;
    for k := 0 to n
      invariant formatted.Keys == set f | f in fs
      invariant forall f :: f in formatted ==> formatted[f] == Listed(clips, outputDir, fs, f, render, k)
      invariant k > 0 ==> FirstUnknown(fs).None?
    {
      var next;
      unknown, next := FormatOneClip(clips[k], k + 1, outputDir, fs, render, formatted);
      if unknown.Some? {
        return;
      }
      ListedStep(clips, outputDir, fs, render, k, formatted, next);
      formatted := next;
    }
    unknown := None;
  }

  /** format_clips_multi_platform over clips paired with moments. */
  method FormatClipsMultiPlatform(clips: seq<string>, moments: seq<Moment>, outputDir: string,
                                  formats: Option<seq<string>>, render: (string, string, string) -> bool)
    returns (r: Result<map<string, seq<string>>>)
    ensures r == Formatted(clips, moments, outputDir, formats, render)
  {
    var fs := FormatsOr(formats);
    var formattedClips: map<string, seq<string>> := map f | f in fs :: [];
    var n := if |clips| < |moments| then |clips| else |moments|;
    var unknown, formatted := FormatAll(clips, n, outputDir, fs, render, formattedClips);
    if unknown.Some? {
      return Failure(unknown.value);
    }
    FormattedSuccess(clips, moments, outputDir, formats, render, formatted);
    r := Success(formatted);
  }

  /** An unknown format fails the whole pass once there is a clip to format. */
  lemma UnknownFormatFails(clips: seq<string>, moments: seq<Moment>, outputDir: string,
                           formats: Option<seq<string>>, render: (string, string, string) -> bool, k: nat)
    requires |clips| > 0 && |moments| > 0
    requires k < |FormatsOr(formats)| && Dimensions(FormatsOr(formats)[k]).None?
    ensures Formatted(clips, moments, outputDir, formats, render).Failure?
  {
    FirstUnknownNone(FormatsOr(formats));
  }

  /** With no clip to format every listed format gets an empty list, known or not. */
  lemma NoClipsNoPaths(clips: seq<string>, moments: seq<Moment>, outputDir: string,
                       formats: Option<seq<string>>, render: (string, string, string) -> bool)
    requires |clips| == 0 || |moments| == 0
    ensures var r := Formatted(clips, moments, outputDir, formats, render);
      r.Success? && r.value.Keys == set f | f in FormatsOr(formats)
      && forall f :: f in r.value ==> r.value[f] == []
  {
  }

  /** A format listed once gets the clip's path exactly when it renders. */
  lemma {:induction false} ClipOutputsOnce(clip: string, i: nat, outputDir: string, formats: seq<string>, f: string,
                                           render: (string, string, string) -> bool)
    requires forall a, b :: 0 <= a < b < |formats| ==> formats[a] != formats[b]
    ensures ClipOutputs(clip, i, outputDir, formats, f, render)
      == if f in formats && render(clip, OutputPath(outputDir, i, f), f) then [OutputPath(outputDir, i, f)] else []
  {
    if |formats| > 0 {
      var init := formats[..|formats| - 1];
      ClipOutputsOnce(clip, i, outputDir, init, f, render);
      if formats[|formats| - 1] == f {
        assert f !in init by {
          forall a | 0 <= a < |init| ensures init[a] != f {
            assert init[a] == formats[a];
          }
        }
      } else {
        assert f in formats <==> f in init by {
          assert formats == init + [formats[|formats| - 1]];
        }
      }
    }
  }

  /** The clip numbers 0 .. k - 1. */
  function Range(k: nat): (r: seq<nat>)
    ensures |r| == k && forall c :: 0 <= c < k ==> r[c] == c
  {
    seq(k, c requires 0 <= c < k => c)
  }

  /** Clip c's path for format f when it renders. */
  function RenderedPath(clips: seq<string>, outputDir: string, f: string, render: (string, string, string) -> bool): nat -> Option<string>
  {
    (c: nat) => if c < |clips| && render(clips[c], OutputPath(outputDir, c + 1, f), f) then Some(OutputPath(outputDir, c + 1, f)) else None
  }

  /** With distinct formats a list is the rendered paths over the clip numbers. */
  lemma {:induction false} ListedIsCollect(clips: seq<string>, outputDir: string, formats: seq<string>, f: string,
                                           render: (string, string, string) -> bool, k: nat)
    requires k <= |clips| && f in formats
    requires forall a, b :: 0 <= a < b < |formats| ==> formats[a] != formats[b]
    ensures Listed(clips, outputDir, formats, f, render, k) == Collect(Range(k), RenderedPath(clips, outputDir, f, render))
  {
    if k > 0 {
      var g := RenderedPath(clips, outputDir, f, render);
      ListedIsCollect(clips, outputDir, formats, f, render, k - 1);
      ClipOutputsOnce(clips[k - 1], k, outputDir, formats, f, render);
      assert Range(k)[..k - 1] == Range(k - 1);
      CollectPrefix(Range(k), k - 1, g);
      assert Range(k)[..k] == Range(k);
      assert Range(k)[k - 1] == k - 1;
      assert g(k - 1) == if render(clips[k - 1], OutputPath(outputDir, k, f), f) then Some(OutputPath(outputDir, k, f)) else None;
    }
  }

  /**
   * With distinct formats each list holds at most one path per clip, in clip
   * order: entry j is clip number p[j] + 1's path for that format, the
   * positions ascend, and clip c is present exactly when it rendered.
   */
  lemma ListedSpec(clips: seq<string>, outputDir: string, formats: seq<string>, f: string,
                   render: (string, string, string) -> bool, k: nat)
    returns (p: seq<nat>)
    requires k <= |clips| && f in formats
    requires forall a, b :: 0 <= a < b < |formats| ==> formats[a] != formats[b]
    ensures var r := Listed(clips, outputDir, formats, f, render, k);
      |r| == |p|
      && (forall j :: 0 <= j < |p| ==> p[j] < k && r[j] == OutputPath(outputDir, p[j] + 1, f))
      && (forall a, b :: 0 <= a < b < |p| ==> p[a] < p[b])
      && (forall c :: 0 <= c < k ==> (c in p <==> render(clips[c], OutputPath(outputDir, c + 1, f), f)))
  {
    ListedIsCollect(clips, outputDir, formats, f, render, k);
    p := RenderedSpec(clips, outputDir, f, render, k);
  }

  /** The rendered paths over the first k clip numbers, with their positions. */
  lemma RenderedSpec(clips: seq<string>, outputDir: string, f: string, render: (string, string, string) -> bool, k: nat)
    returns (p: seq<nat>)
    requires k <= |clips|
    ensures var r := Collect(Range(k), RenderedPath(clips, outputDir, f, render));
      |r| == |p|
      && (forall j :: 0 <= j < |p| ==> p[j] < k && r[j] == OutputPath(outputDir, p[j] + 1, f))
      && (forall a, b :: 0 <= a < b < |p| ==> p[a] < p[b])
      && (forall c :: 0 <= c < k ==> (c in p <==> render(clips[c], OutputPath(outputDir, c + 1, f), f)))
  {
    var g := RenderedPath(clips, outputDir, f, render);
    p := CollectSpec(Range(k), g);
    var r := Collect(Range(k), g);
    forall j | 0 <= j < |p| ensures p[j] < k && r[j] == OutputPath(outputDir, p[j] + 1, f) {
      assert g(Range(k)[p[j]]) == Some(r[j]);
    }
    forall c | 0 <= c < k ensures c in p <==> render(clips[c], OutputPath(outputDir, c + 1, f), f) {
      assert g(Range(k)[c]).Some? <==> render(clips[c], OutputPath(outputDir, c + 1, f), f);
      if c in p {
        var j :| 0 <= j < |p| && p[j] == c;
        assert g(Range(k)[p[j]]) == Some(r[j]);
      }
    }
  }

  /** A format listed twice gets each rendered clip's path twice. */
  lemma DuplicateFormatListedTwice(clip: string, i: nat, outputDir: string, f: string,
                                   render: (string, string, string) -> bool)
    requires render(clip, OutputPath(outputDir, i, f), f)
    ensures ClipOutputs(clip, i, outputDir, [f, f], f, render) == [OutputPath(outputDir, i, f), OutputPath(outputDir, i, f)]
  {
    var path := OutputPath(outputDir, i, f);
    assert [f, f][..1] == [f];
    assert [f][..0] == [];
    assert ClipOutputs(clip, i, outputDir, [], f, render) == [];
    assert ClipOutputs(clip, i, outputDir, [f], f, render) == [path];
  }
}
