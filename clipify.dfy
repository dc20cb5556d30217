/**
 * The decisions the command-line pipeline makes around the ranking path:
 * whether a probed video is usable, the transcript statistics it logs, the
 * stage checks that stop a run, the final quality floor and cap, and the
 * command-line options.
 *
 * The stages themselves (moment extraction, the provider's filter and score)
 * come in as functions; downloading, transcription and clip cutting are not
 * part of this module.
 */
module Clipify {
  import opened Wrappers
  import opened Strings
  import opened Numbers
  import opened Selection
  import opened Transcript
  import ClipProcessor

  const MinQualityScore: real := 6.5
  const MaxClipsPerVideo: nat := 10
  const DefaultAutoClips: int := 8

  // ---------------------------------------------------------------------------
  // Video validation
  // ---------------------------------------------------------------------------

  /** The keys of the probe dictionary that validation reads; a key can be missing. */
  datatype Probe = Probe(duration: Option<real>, width: Option<int>, height: Option<int>, audioCodec: Option<string>)

  /** The dictionary get_video_info returns, with every key present. */
  function ProbeOf(info: ClipProcessor.VideoInfo): Probe
  {
    Probe(Some(info.duration), Some(info.width), Some(info.height), Some(info.audioCodec))
  }

  predicate TooShort(p: Probe) { p.duration.GetOr(0.0) < 60.0 }
  predicate TooLowResolution(p: Probe) { p.height.GetOr(0) < 480 }
  predicate NoAudio(p: Probe) { p.audioCodec == Some("unknown") }

  function ShortIssue(p: Probe): string
  {
    "Video too short (" + FormatFixed(p.duration.GetOr(0.0), 1) + "s < 60s minimum)"
  }

  function ResolutionIssue(p: Probe): string
  {
    "Resolution too low (" + IntToString(p.width.GetOr(0)) + "x" + IntToString(p.height.GetOr(0)) + " < 480p minimum)"
  }

  const NoAudioIssue := "No audio track detected"

  /** The warnings validation logs, in the order it checks. */
  function VideoIssues(p: Probe): seq<string>
  {
    (if TooShort(p) then [ShortIssue(p)] else [])
    + (if TooLowResolution(p) then [ResolutionIssue(p)] else [])
    + (if NoAudio(p) then [NoAudioIssue] else [])
  }

  /** validate_video_info: collects the issues and accepts the video when there are none. */
  method ValidateVideoInfo(p: Probe) returns (valid: bool, issues: seq<string>)
    ensures issues == VideoIssues(p)
    ensures valid <==> !TooShort(p) && !TooLowResolution(p) && !NoAudio(p)
  {
    var duration := p.duration.GetOr(0.0);
    var width := p.width.GetOr(0);
    var height := p.height.GetOr(0);
    issues := [];
    if duration < 60.0 {
      issues := issues + [ShortIssue(p)];
    }
    if height < 480 {
      issues := issues + [ResolutionIssue(p)];
    }
    if p.audioCodec == Some("unknown") {
      issues := issues + [NoAudioIssue];
    }
    IssuesExactly(p);
    valid := |issues| == 0;
  }

  /**
   * A video is rejected exactly when it is shorter than 60 seconds, lower than
   * 480 lines or has no audio; each failed check logs one issue.
   */
  lemma IssuesExactly(p: Probe)
    ensures VideoIssues(p) == [] <==> !TooShort(p) && !TooLowResolution(p) && !NoAudio(p)
    ensures |VideoIssues(p)| == (if TooShort(p) then 1 else 0) + (if TooLowResolution(p) then 1 else 0) + (if NoAudio(p) then 1 else 0)
  {
  }

  /** Missing keys count as 0: a probe without duration or height is rejected. */
  lemma MissingKeysRejected(p: Probe)
    requires p.duration.None? || p.height.None?
    ensures VideoIssues(p) != []
  {
    IssuesExactly(p);
  }

  /** The metadata fallback of a failed probe fails all three checks. */
  lemma FallbackRejected()
    ensures |VideoIssues(ProbeOf(ClipProcessor.FallbackVideoInfo()))| == 3
  {
    IssuesExactly(ProbeOf(ClipProcessor.FallbackVideoInfo()));
  }

  // ---------------------------------------------------------------------------
  // Transcript statistics
  // ---------------------------------------------------------------------------

  datatype TranscriptStats = TranscriptStats(segments: nat, totalWords: nat, avgWordsPerSegment: real)

  function Stats(transcript: seq<Segment>): TranscriptStats
  {
    var total := TotalWords(transcript);
    TranscriptStats(|transcript|, total, Average(total, |transcript|))
  }

  /**
   * The statistics of a transcript: an empty one has no words and averages
   * 0; otherwise the average is the total over the segment count (see
   * AverageSpec), and it never exceeds the largest segment's word count.
   */
  lemma StatsSpec(transcript: seq<Segment>, m: nat)
    requires forall k :: 0 <= k < |transcript| ==> WordCount(transcript[k].text) <= m
    ensures Stats(transcript).segments == |transcript|
    ensures |transcript| == 0 ==> Stats(transcript).totalWords == 0 && Stats(transcript).avgWordsPerSegment == 0.0
    ensures Stats(transcript).avgWordsPerSegment == Average(TotalWords(transcript), |transcript|)
    ensures 0.0 <= Stats(transcript).avgWordsPerSegment <= m as real
  {
    assert forall k :: 0 <= k < |transcript| ==> SegmentWords(transcript[k]) <= m;
    TotalAtMost(transcript, SegmentWords, m);
    AverageSpec(TotalWords(transcript), |transcript|, m);
  }

  // ---------------------------------------------------------------------------
  // The quality floor and cap
  // ---------------------------------------------------------------------------

  /** m.get('score', 0) >= MIN_QUALITY_SCORE. */
  predicate PassesFloor(m: Moment) { m.score.GetOr(0.0) >= MinQualityScore }

  /** The moments at or above the floor, in scored order, at most ten of them. */
  function QualityFloor(scored: seq<Moment>): seq<Moment>
  {
    Prefix(Select(scored, PassesFloor), MaxClipsPerVideo)
  }

  /**
   * What the floor keeps: moments of the scored list at ascending positions p,
   * each carrying a score of at least 6.5; every moment that reaches the floor
   * is kept unless ten were kept before it; at most ten are kept.
   */
  lemma QualityFloorSpec(scored: seq<Moment>) returns (p: seq<nat>)
    ensures var r := QualityFloor(scored);
      |r| == |p| && |r| <= MaxClipsPerVideo
      && (forall j :: 0 <= j < |p| ==> p[j] < |scored| && r[j] == scored[p[j]])
      && (forall i, j :: 0 <= i < j < |p| ==> p[i] < p[j])
      && (forall j :: 0 <= j < |r| ==> r[j].score.Some? && r[j].score.value >= MinQualityScore)
      && (forall k :: 0 <= k < |scored| && PassesFloor(scored[k]) && k !in p ==>
            |r| == MaxClipsPerVideo && p[|p| - 1] < k)
  {
    p := SelectFirst(scored, PassesFloor, MaxClipsPerVideo);
    var r := QualityFloor(scored);
    assert forall j :: 0 <= j < |r| ==> PassesFloor(r[j]);
  }

  /** Scores never increase along the list (a missing score counting as 0). */
  predicate Ranked(xs: seq<Moment>)
  {
    forall i, j :: 0 <= i < j < |xs| ==> xs[j].score.GetOr(0.0) <= xs[i].score.GetOr(0.0)
  }

  /** The first position whose moment is below the floor, or the length when there is none. */
  function FirstBelow(xs: seq<Moment>): (c: nat)
    ensures c <= |xs|
    ensures forall k :: 0 <= k < c ==> PassesFloor(xs[k])
    ensures c < |xs| ==> !PassesFloor(xs[c])
  {
    if |xs| == 0 then 0
    else if !PassesFloor(xs[0]) then 0
    else
      var c := 1 + FirstBelow(xs[1..]);
      assert forall k :: 1 <= k < c ==> xs[k] == xs[1..][k - 1];
      c
  }

  /** On a ranked list the moments at or above the floor are a prefix of it. */
  lemma RankedPassersArePrefix(xs: seq<Moment>) returns (c: nat)
    requires Ranked(xs)
    ensures c <= |xs| && Select(xs, PassesFloor) == xs[..c]
    ensures forall k :: 0 <= k < |xs| ==> (PassesFloor(xs[k]) <==> k < c)
  {
    c := FirstBelow(xs);
    forall k | c <= k < |xs| ensures !PassesFloor(xs[k]) {
      if c < k {
        assert xs[k].score.GetOr(0.0) <= xs[c].score.GetOr(0.0);
      }
    }
    KeptPrefix(xs, PassesFloor, c);
  }

  /** On a ranked list the floor keeps the top min(10, c) moments, where c is the number reaching 6.5. */
  lemma RankedFloor(xs: seq<Moment>) returns (c: nat)
    requires Ranked(xs)
    ensures c <= |xs| && forall k :: 0 <= k < |xs| ==> (PassesFloor(xs[k]) <==> k < c)
    ensures QualityFloor(xs) == xs[..if c < MaxClipsPerVideo then c else MaxClipsPerVideo]
  {
    c := RankedPassersArePrefix(xs);
    var m := if c < MaxClipsPerVideo then c else MaxClipsPerVideo;
    assert xs[..c][..m] == xs[..m];
  }

  // ---------------------------------------------------------------------------
  // The stages of a run
  // ---------------------------------------------------------------------------

  /** The four ClipifyError raises for a stage that comes out empty once the candidates are known. */
  datatype StageError = NoCandidates | AllRejected | BelowFloor | NoClipsExtracted

  function ErrorMessage(e: StageError): string
  {
    match e
    case NoCandidates => "No candidate moments found. Video may be too short or unsuitable."
    case AllRejected => "All moments rejected by AI filter. Try different content."
    case BelowFloor => "No clips meet minimum quality threshold (6.5/10). Video unsuitable for clipping."
    case NoClipsExtracted => "Failed to extract any video clips"
  }

  /** The moments_stats record: the size of each stage and the range of final scores. */
  datatype MomentsStats = MomentsStats(candidates: nat, filtered: nat, scored: nat, finalClips: nat, scoreRange: string)

  datatype Outcome = Chosen(top: seq<Moment>, stats: MomentsStats) | Stopped(error: StageError)

  /** f"{top[0]['score']:.1f}-{top[-1]['score']:.1f}". */
  function ScoreRange(top: seq<Moment>): string
    requires |top| > 0
  {
    FormatFixed(top[0].score.GetOr(0.0), 1) + "-" + FormatFixed(top[|top| - 1].score.GetOr(0.0), 1)
  }

  /**
   * Steps 4 to 6 from the candidates on: auto mode takes the candidates as
   * already filtered and scored; otherwise the provider filters and scores.
   * Each stage that comes out empty stops the run with its own error.
   */
  function SelectTop(candidates: seq<Moment>, autoMode: bool,
                     filter: seq<Moment> -> seq<Moment>, score: seq<Moment> -> seq<Moment>): Outcome
  {
    if |candidates| == 0 then Stopped(NoCandidates)
    else
      var filtered := if autoMode then candidates else filter(candidates);
      if !autoMode && |filtered| == 0 then Stopped(AllRejected)
      else
        var scored := if autoMode then filtered else score(filtered);
        var top := QualityFloor(scored);
        if |top| == 0 then Stopped(BelowFloor)
        else Chosen(top, MomentsStats(|candidates|, |filtered|, |scored|, |top|, ScoreRange(top)))
  }

  /** The scored list a run applies the floor to. */
  function ScoredList(candidates: seq<Moment>, autoMode: bool,
                      filter: seq<Moment> -> seq<Moment>, score: seq<Moment> -> seq<Moment>): seq<Moment>
  {
    if autoMode then candidates else score(filter(candidates))
  }

  /**
   * How a run ends: for want of candidates, with an empty filter result
   * (never in auto mode), with nothing at the floor, or with the floor of the
   * scored list and the stage sizes.
   */
  lemma SelectTopSpec(candidates: seq<Moment>, autoMode: bool,
                      filter: seq<Moment> -> seq<Moment>, score: seq<Moment> -> seq<Moment>)
    ensures var r := SelectTop(candidates, autoMode, filter, score);
      var scored := ScoredList(candidates, autoMode, filter, score);
      (r == Stopped(NoCandidates) <==> |candidates| == 0)
      && (r == Stopped(AllRejected) <==> |candidates| > 0 && !autoMode && |filter(candidates)| == 0)
      && (r == Stopped(BelowFloor) <==>
            |candidates| > 0 && (autoMode || |filter(candidates)| > 0) && |QualityFloor(scored)| == 0)
      && (r.Chosen? ==>
            (r.top == QualityFloor(scored) && |r.top| > 0
             && r.stats.candidates == |candidates| && r.stats.scored == |scored|
             && r.stats.filtered == (if autoMode then |candidates| else |filter(candidates)|)
             && r.stats.finalClips == |r.top| && r.stats.finalClips <= MaxClipsPerVideo))
  {
  }

  /** The clip paths step 7 hands on to formatting, or the error that stops the run there. */
  datatype Extraction = Clips(paths: seq<string>) | ExtractionStopped(error: StageError)

  /**
   * Step 7: the chosen moments are cut at the default 'high' quality, and a
   * run in which not one clip could be cut stops.
   */
  function ExtractStage(top: seq<Moment>, clipsDir: string, fast: ClipProcessor.ClipRequest -> bool,
                        reencode: (ClipProcessor.ClipRequest, ClipProcessor.Encoding) -> bool): Extraction
  {
    var clips := ClipProcessor.Extracted(top, clipsDir, "high", fast, reencode);
    if |clips| == 0 then ExtractionStopped(NoClipsExtracted) else Clips(clips)
  }

  /**
   * Step 7 stops exactly when the cut of every chosen moment fails, and then
   * with NoClipsExtracted; otherwise it hands on between one and |top|
   * distinct paths, each the path of a moment whose cut succeeded.
   */
  lemma ExtractStageSpec(top: seq<Moment>, clipsDir: string, fast: ClipProcessor.ClipRequest -> bool,
                         reencode: (ClipProcessor.ClipRequest, ClipProcessor.Encoding) -> bool)
    ensures var r := ExtractStage(top, clipsDir, fast, reencode);
      (r.ExtractionStopped? ==> r.error == NoClipsExtracted)
      && (r.ExtractionStopped? <==>
            forall k :: 0 <= k < |top| ==> !ClipProcessor.Cut(ClipProcessor.RequestFor(clipsDir, top, k), "high", fast, reencode))
      && (r.Clips? ==> 1 <= |r.paths| <= |top| && forall i, j :: 0 <= i < j < |r.paths| ==> r.paths[i] != r.paths[j])
      && (r.Clips? ==> forall j :: 0 <= j < |r.paths| ==>
            exists k :: 0 <= k < |top| && r.paths[j] == ClipProcessor.ClipPath(clipsDir, k + 1)
                        && ClipProcessor.Cut(ClipProcessor.RequestFor(clipsDir, top, k), "high", fast, reencode))
  {
    var p := ClipProcessor.ExtractedSpec(top, clipsDir, "high", fast, reencode);
    ClipProcessor.ExtractedDistinct(top, clipsDir, "high", fast, reencode);
    var clips := ClipProcessor.Extracted(top, clipsDir, "high", fast, reencode);
    if |clips| > 0 {
      assert p[0] in p;
    }
    forall j | 0 <= j < |clips|
      ensures exists k :: 0 <= k < |top| && clips[j] == ClipProcessor.ClipPath(clipsDir, k + 1)
                          && ClipProcessor.Cut(ClipProcessor.RequestFor(clipsDir, top, k), "high", fast, reencode)
    {
      assert p[j] in p;
    }
  }

  // ---------------------------------------------------------------------------
  // Command-line options
  // ---------------------------------------------------------------------------

  datatype Config = Config(
    useParallel: bool, outputFormats: seq<string>, autoMode: bool, targetClips: int,
    inputDir: string, outputDir: string, provider: Option<string>)

  function Defaults(): Config
  {
    Config(true, ["9:16", "16:9"], false, DefaultAutoClips, "input", "output", None)
  }

  /** min(10, max(5, n)). */
  function ClampClips(n: int): (r: int)
    ensures 5 <= r <= 10
    ensures 5 <= n <= 10 ==> r == n
  {
    var lo := if n > 5 then n else 5;
    if lo < 10 then lo else 10
  }

  /** The effect of the argument at position i. */
  function Step(c: Config, argv: seq<string>, i: nat): Config
    requires i < |argv|
  {
    var arg := argv[i];
    var hasValue := i + 1 < |argv|;
    if arg == "--auto" then c.(autoMode := true)
    else if arg == "--no-parallel" then c.(useParallel := false)
    else if arg == "--parallel" then c.(useParallel := true)
    else if arg == "--clips" && hasValue then
      match ParseInt(argv[i + 1])
      case Some(n) => c.(targetClips := ClampClips(n))
      case None => c
    else if arg == "--provider" && hasValue then c.(provider := Some(Lower(argv[i + 1])))
    else if arg == "--formats" && hasValue then c.(outputFormats := SplitOn(argv[i + 1], ","))
    else if arg == "--input" && hasValue then c.(inputDir := argv[i + 1])
    else if arg == "--output" && hasValue then c.(outputDir := argv[i + 1])
    else c
  }

  /** The options after the arguments at positions 2..n-1. */
  function ConfigUpTo(argv: seq<string>, n: nat): Config
    requires n <= |argv|
  {
    if n <= 2 then Defaults() else Step(ConfigUpTo(argv, n - 1), argv, n - 1)
  }

  /** The option loop over sys.argv[2:], with the index starting at 2. */
  method ParseArguments(argv: seq<string>) returns (cfg: Config)
    requires |argv| >= 2
    ensures cfg == ConfigUpTo(argv, |argv|)
  {
    var useParallel := true;
    var outputFormats := ["9:16", "16:9"];
    var autoMode := false;
    var targetClips := DefaultAutoClips;
    var inputDir := "input";
    var outputDir := "output";
    var providerName: Option<string> := None;
    for i := 2 to |argv|
      invariant Config(useParallel, outputFormats, autoMode, targetClips, inputDir, outputDir, providerName)
        == ConfigUpTo(argv, i)
    {
      var arg := argv[i];
      if arg == "--auto" {
        autoMode := true;
      } else if arg == "--no-parallel" {
        useParallel := false;
      } else if arg == "--parallel" {
        useParallel := true;
      } else if arg == "--clips" && i + 1 < |argv| {
        var n := ParseInt(argv[i + 1]);
        if n.Some? {
          targetClips := ClampClips(n.value);
        }
      } else if arg == "--provider" && i + 1 < |argv| {
        providerName := Some(Lower(argv[i + 1]));
      } else if arg == "--formats" && i + 1 < |argv| {
        outputFormats := SplitOn(argv[i + 1], ",");
      } else if arg == "--input" && i + 1 < |argv| {
        inputDir := argv[i + 1];
      } else if arg == "--output" && i + 1 < |argv| {
        outputDir := argv[i + 1];
      }
    }
    cfg := Config(useParallel, outputFormats, autoMode, targetClips, inputDir, outputDir, providerName);
  }

  /** The clip target is the default 8 or a value clamped into [5, 10]. */
  lemma {:induction false} TargetClipsRange(argv: seq<string>, n: nat)
    requires n <= |argv|
    ensures var t := ConfigUpTo(argv, n).targetClips; t == DefaultAutoClips || 5 <= t <= 10
  {
    if n > 2 {
      TargetClipsRange(argv, n - 1);
    }
  }

  /** Without a `--clips` argument the target stays 8. */
  lemma {:induction false} NoClipsFlagKeepsDefault(argv: seq<string>, n: nat)
    requires n <= |argv|
    requires forall i :: 2 <= i < n ==> argv[i] != "--clips"
    ensures ConfigUpTo(argv, n).targetClips == DefaultAutoClips
  {
    if n > 2 {
      NoClipsFlagKeepsDefault(argv, n - 1);
    }
  }

  /** Auto mode is on exactly when `--auto` is among the arguments after the mode. */
  lemma {:induction false} AutoModeIff(argv: seq<string>, n: nat)
    requires n <= |argv|
    ensures ConfigUpTo(argv, n).autoMode <==> exists i :: 2 <= i < n && argv[i] == "--auto"
  {
    if n > 2 {
      AutoModeIff(argv, n - 1);
    }
  }

  /**
   * `--clips N` as the last two arguments decides the target: N clamped into
   * [5, 10] when it reads as an integer, the earlier target otherwise.
   */
  lemma ClipsAtEnd(argv: seq<string>)
    requires |argv| >= 4 && argv[|argv| - 2] == "--clips"
    ensures var before := ConfigUpTo(argv, |argv| - 2).targetClips;
      ConfigUpTo(argv, |argv|).targetClips ==
        match ParseInt(argv[|argv| - 1])
        case Some(n) => ClampClips(n)
        case None => before
  {
  }
}
