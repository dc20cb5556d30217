/**
 * The pure parts of clip extraction: the frame-rate string parse shared by
 * the two metadata readers, the re-encode quality table, clip naming, the
 * metadata fallback and the list of clips an extraction run returns.
 *
 * The ffmpeg and ffprobe runs are not modelled: whether a clip could be cut
 * comes in as the two functions `fast` (stream copy) and `reencode`.
 */
module ClipProcessor {
  import opened Wrappers
  import opened Strings
  import opened Numbers
  import opened Selection
  import opened Transcript

  // ---------------------------------------------------------------------------
  // Frame rates
  // ---------------------------------------------------------------------------

  /**
   * The rate string parse: "num/den" gives num/den when both parts read as
   * floats and den is not 0; a string with no '/' reads as a float; anything
   * else (the empty string, a part that does not read, more than one '/', a
   * zero denominator) leaves the default.
   */
  function ParseRate(s: string, default: real): real
  {
    if |s| > 0 && '/' in s then
      var parts := SplitOn(s, "/");
      if |parts| != 2 then default
      else
        match (FiniteValue(parts[0]), FiniteValue(parts[1]))
        case (Some(num), Some(den)) => RatioOr(num, den, default)
        case _ => default
    else if |s| > 0 then FiniteValue(s).GetOr(default)
    else default
  }

  /** num / den, or the default when den is 0. */
  function RatioOr(num: real, den: real, default: real): real
  {
    if den != 0.0 then num / den else default
  }

  /** get_video_info: the stream's r_frame_rate, '0/1' when missing, with 0 as the default. */
  function FrameRate(field: Option<string>): real
  {
    ParseRate(field.GetOr("0/1"), 0.0)
  }

  /** A string with one '/' splits into the parts before and after it. */
  lemma SplitFraction(num: string, den: string)
    requires '/' !in num && '/' !in den
    ensures SplitOn(num + "/" + den, "/") == [num, den]
  {
    var s := num + "/" + den;
    var k := Find(s, "/");
    FindChar(s, '/');
    assert s[|num|] == '/';
    assert k == |num| by {
      assert forall i :: 0 <= i < |num| ==> s[i] == num[i];
    }
    assert s[..k] == num && s[k + 1..] == den;
    assert SplitOn(s, "/") == [num] + SplitOn(den, "/");
    FindChar(den, '/');
    assert SplitOn(den, "/") == [den];
  }

  /** A fraction whose two parts read as floats gives their quotient, or the default for a zero denominator. */
  lemma ParseFraction(num: string, den: string, default: real)
    requires '/' !in num && '/' !in den
    requires FiniteValue(num).Some? && FiniteValue(den).Some?
    ensures ParseRate(num + "/" + den, default) == RatioOr(FiniteValue(num).value, FiniteValue(den).value, default)
  {
    var s := num + "/" + den;
    assert s[|num|] == '/';
    SplitFraction(num, den);
  }

  /**
   * The cases in which the default stands: the empty string, more than one
   * '/', a part that does not read as a finite float, a zero denominator.
   * A string without '/' reads as a float when it can.
   */
  lemma ParseRateDefaults(s: string, default: real)
    ensures |s| == 0 ==> ParseRate(s, default) == default
    ensures CountChar(s, '/') >= 2 ==> ParseRate(s, default) == default
    ensures '/' in s && (exists k :: 0 <= k < |SplitOn(s, "/")| && FiniteValue(SplitOn(s, "/")[k]).None?) ==>
      ParseRate(s, default) == default
    ensures '/' !in s && |s| > 0 ==> ParseRate(s, default) == FiniteValue(s).GetOr(default)
  {
    SplitCount(s, '/');
    if '/' in s && |SplitOn(s, "/")| == 2 {
      var parts := SplitOn(s, "/");
      if exists k :: 0 <= k < |parts| && FiniteValue(parts[k]).None? {
        var k :| 0 <= k < |parts| && FiniteValue(parts[k]).None?;
        assert k == 0 || k == 1;
      }
    }
  }

  /** Two digit runs around one '/' give their quotient, or the default over a zero denominator. */
  lemma DigitsFraction(num: string, den: string, default: real)
    requires IsDigitPart(num) && IsDigitPart(den)
    ensures ParseRate(num + "/" + den, default) == RatioOr(DigitsValue(num) as real, DigitsValue(den) as real, default)
  {
    DigitsFloat(num);
    DigitsFloat(den);
    assert '/' !in num && '/' !in den by {
      assert forall i :: 0 <= i < |num| ==> IsDigit(num[i]) || num[i] == '_';
      assert forall i :: 0 <= i < |den| ==> IsDigit(den[i]) || den[i] == '_';
    }
    ParseFraction(num, den, default);
  }

  /** A missing rate field reads as 0/1, which is 0. */
  lemma MissingRateIsZero()
    ensures FrameRate(None) == 0.0
  {
    ZeroAndOneDigits();
    DigitsFraction("0", "1", 0.0);
    assert "0" + "/" + "1" == "0/1";
  }

  /** "0" and "1" are digit runs worth 0 and 1. */
  lemma ZeroAndOneDigits()
    ensures IsDigitPart("0") && IsDigitPart("1")
    ensures DigitsValue("0") == 0 && DigitsValue("1") == 1
  {
  }

  // ---------------------------------------------------------------------------
  // Metadata fallback
  // ---------------------------------------------------------------------------

  /** The dictionary get_video_info returns. */
  datatype VideoInfo = VideoInfo(
    width: int, height: int, duration: real, fps: real, codec: string, bitrate: int,
    audioCodec: string, audioChannels: int, audioSampleRate: int, fileSize: int)

  /**
   * What get_video_info returns from its exception handler, whatever made the
   * probe fail (ffprobe missing or failing, unreadable JSON, no video stream):
   * zeros and 'unknown'.
   */
  function FallbackVideoInfo(): (v: VideoInfo)
    ensures v.width == 0 && v.height == 0 && v.duration == 0.0 && v.fps == 0.0
    ensures v.codec == "unknown" && v.audioCodec == "unknown"
    ensures v.bitrate == 0 && v.audioChannels == 0 && v.audioSampleRate == 0 && v.fileSize == 0
  {
    VideoInfo(0, 0, 0.0, 0.0, "unknown", 0, "unknown", 0, 0, 0)
  }

  // ---------------------------------------------------------------------------
  // Re-encode settings
  // ---------------------------------------------------------------------------

  datatype Encoding = Encoding(crf: string, preset: string)

  /** quality_settings.get(quality, quality_settings['medium']). */
  function QualitySettings(quality: string): Encoding
  {
    if quality == "high" then Encoding("20", "medium")
    else if quality == "fast" then Encoding("28", "veryfast")
    else Encoding("23", "fast")
  }

  /** Every quality other than 'high' and 'fast' gets the medium settings: crf 23, preset fast. */
  lemma QualityFallback(quality: string)
    ensures quality != "high" && quality != "fast" ==> QualitySettings(quality) == QualitySettings("medium")
    ensures QualitySettings("medium") == Encoding("23", "fast")
    ensures QualitySettings(quality) in {Encoding("20", "medium"), Encoding("23", "fast"), Encoding("28", "veryfast")}
  {
  }

  // ---------------------------------------------------------------------------
  // Clip names and extraction
  // ---------------------------------------------------------------------------

  /** f"clip_{i:02d}_raw.mp4". */
  function ClipName(i: nat): string
  {
    "clip_" + PadInt(i, 2) + "_raw.mp4"
  }

  lemma {:induction false} ZerosSnoc(k: nat)
    requires k > 0
    ensures Zeros(k) == Zeros(k - 1) + "0"
    decreases k
  {
    if k > 1 {
      ZerosSnoc(k - 1);
    }
  }

  lemma {:induction false} DigitsValueZeros(k: nat, d: string)
    ensures DigitsValue(Zeros(k) + d) == DigitsValue(d)
    decreases |d|, k
  {
    if |d| > 0 {
      var s := Zeros(k) + d;
      assert s[..|s| - 1] == Zeros(k) + d[..|d| - 1];
      assert s[|s| - 1] == d[|d| - 1];
      DigitsValueZeros(k, d[..|d| - 1]);
    } else if k > 0 {
      var s := Zeros(k);
      ZerosSnoc(k);
      assert Zeros(k) + d == s;
      assert s[..|s| - 1] == Zeros(k - 1) + [];
      assert s[|s| - 1] == '0';
      DigitsValueZeros(k - 1, []);
    } else {
      assert Zeros(0) + d == [];
    }
  }

  /** The padded number reads back as the number. */
  lemma PadIntValue(i: nat, width: nat)
    ensures DigitsValue(PadInt(i, width)) == i
  {
    var digits := NatToString(i);
    var fill := if |digits| < width then width - |digits| else 0;
    assert PadInt(i, width) == Zeros(fill) + digits;
    DigitsValueZeros(fill, digits);
    NatToStringRoundTrip(i);
  }

  /** Different clip numbers give different names. */
  lemma ClipNameInjective(i: nat, j: nat)
    requires ClipName(i) == ClipName(j)
    ensures i == j
  {
    var a, b := ClipName(i), ClipName(j);
    assert a[5..|a| - 8] == PadInt(i, 2);
    assert b[5..|b| - 8] == PadInt(j, 2);
    PadIntValue(i, 2);
    PadIntValue(j, 2);
  }

  /** Numbers below 100 get exactly two digits: `clip_07_raw.mp4`. */
  lemma ClipNameTwoDigits(i: nat)
    requires i < 100
    ensures ClipName(i) == "clip_" + [DigitChar(i / 10), DigitChar(i % 10)] + "_raw.mp4"
  {
    PadTwoDigits(i);
  }

  /** output_dir / clip_name. */
  function ClipPath(outputDir: string, i: nat): string
  {
    outputDir + "/" + ClipName(i)
  }

  /** One cut: where it goes, where it starts and how long it runs. */
  datatype ClipRequest = ClipRequest(path: string, start: real, duration: real)

  /** The request for the moment at position k, numbered k + 1. */
  function RequestFor(outputDir: string, moments: seq<Moment>, k: nat): ClipRequest
    requires k < |moments|
  {
    ClipRequest(ClipPath(outputDir, k + 1), moments[k].start, moments[k].end - moments[k].start)
  }

  /** A cut succeeds by stream copy, or failing that by re-encoding at the quality's settings. */
  predicate Cut(r: ClipRequest, quality: string, fast: ClipRequest -> bool, reencode: (ClipRequest, Encoding) -> bool)
  {
    fast(r) || reencode(r, QualitySettings(quality))
  }

  /** The cut for each moment, in moment order. */
  function Requests(outputDir: string, moments: seq<Moment>): (r: seq<ClipRequest>)
    ensures |r| == |moments|
  {
    seq(|moments|, k requires 0 <= k < |moments| => RequestFor(outputDir, moments, k))
  }

  /** A request's path when its cut succeeds. */
  function CutPath(quality: string, fast: ClipRequest -> bool, reencode: (ClipRequest, Encoding) -> bool): ClipRequest -> Option<string>
  {
    r => if Cut(r, quality, fast, reencode) then Some(r.path) else None
  }

  /** The paths of the clips that could be cut, in moment order. */
  function Extracted(moments: seq<Moment>, outputDir: string, quality: string,
                     fast: ClipRequest -> bool, reencode: (ClipRequest, Encoding) -> bool): seq<string>
  {
    Collect(Requests(outputDir, moments), CutPath(quality, fast, reencode))
  }

  method ExtractClips(moments: seq<Moment>, outputDir: string, quality: string,
                      fast: ClipRequest -> bool, reencode: (ClipRequest, Encoding) -> bool)
    returns (extractedClips: seq<string>)
    ensures extractedClips == Extracted(moments, outputDir, quality, fast, reencode)
  {
    ghost var requests := Requests(outputDir, moments);
    ghost var f := CutPath(quality, fast, reencode);
    extractedClips := [];
    for k := 0 to |moments|
      invariant extractedClips == Collect(requests[..k], f)
    {
      var i := k + 1;
      var clipPath := ClipPath(outputDir, i);
      var startTime := moments[k].start;
      var duration := moments[k].end - moments[k].start;
      var request := ClipRequest(clipPath, startTime, duration);
      assert request == requests[k];
      var success := fast(request);
      if !success {
        success := reencode(request, QualitySettings(quality));
      }
      CollectPrefix(requests, k, f);
      if success {
        extractedClips := extractedClips + [clipPath];
      }
    }
    assert requests[..|moments|] == requests;
  }

  /**
   * What extraction returns: at most one path per moment, in moment order.
   * Entry j is the path of clip number p[j] + 1, the positions p ascend, and
   * the moment at position k is represented exactly when its cut succeeded.
   */
  lemma ExtractedSpec(moments: seq<Moment>, outputDir: string, quality: string,
                      fast: ClipRequest -> bool, reencode: (ClipRequest, Encoding) -> bool)
    returns (p: seq<nat>)
    ensures var r := Extracted(moments, outputDir, quality, fast, reencode);
      |r| == |p| && |r| <= |moments|
      && (forall j :: 0 <= j < |p| ==> p[j] < |moments| && r[j] == ClipPath(outputDir, p[j] + 1))
      && (forall i, j :: 0 <= i < j < |p| ==> p[i] < p[j])
      && (forall k :: 0 <= k < |moments| ==> (k in p <==> Cut(RequestFor(outputDir, moments, k), quality, fast, reencode)))
  {
    var requests := Requests(outputDir, moments);
    var f := CutPath(quality, fast, reencode);
    p := CollectSpec(requests, f);
    var r := Collect(requests, f);
    forall j | 0 <= j < |p| ensures p[j] < |moments| && r[j] == ClipPath(outputDir, p[j] + 1) {
      assert f(requests[p[j]]) == Some(r[j]);
    }
    forall k | 0 <= k < |moments| ensures k in p <==> Cut(RequestFor(outputDir, moments, k), quality, fast, reencode) {
      if k in p {
        var j :| 0 <= j < |p| && p[j] == k;
        assert f(requests[p[j]]) == Some(r[j]);
      }
    }
  }

  /** No two extracted clips share a path. */
  lemma ExtractedDistinct(moments: seq<Moment>, outputDir: string, quality: string,
                          fast: ClipRequest -> bool, reencode: (ClipRequest, Encoding) -> bool)
    ensures var r := Extracted(moments, outputDir, quality, fast, reencode);
      forall i, j :: 0 <= i < j < |r| ==> r[i] != r[j]
  {
    var p := ExtractedSpec(moments, outputDir, quality, fast, reencode);
    var r := Extracted(moments, outputDir, quality, fast, reencode);
    forall i, j | 0 <= i < j < |r| ensures r[i] != r[j] {
      if r[i] == r[j] {
        var a, b := ClipName(p[i] + 1), ClipName(p[j] + 1);
        assert outputDir + "/" + a == outputDir + "/" + b;
        assert a == (outputDir + "/" + a)[|outputDir| + 1..];
        assert b == (outputDir + "/" + b)[|outputDir| + 1..];
        ClipNameInjective(p[i] + 1, p[j] + 1);
      }
    }
  }
}
