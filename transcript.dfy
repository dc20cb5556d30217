/**
 * Transcript segments and moment records shared by the ranking path.
 *
 * A segment is one timed piece of speech. A moment is a candidate clip: the
 * dictionary the pipeline passes from stage to stage, with the keys that the
 * later stages add modelled as optional fields.
 */
module Transcript {
  import opened Wrappers
  import opened Strings
  import opened Selection

  datatype Segment = Segment(start: real, end: real, text: string)

  /** The four sub-scores written by the scorer under the key `scores`. */
  datatype SubScores = SubScores(contextClarity: real, hookStrength: real, standalone: real, retention: real)

  /** The summary written by the batch hook analysis under `hook_analysis`. */
  datatype HookAnalysis = HookAnalysis(hookType: string, strength: real, confidence: real, reasons: seq<string>)

  /** The five signals of the offline scorer. */
  datatype LocalFactors = LocalFactors(energy: real, keywords: real, hooks: real, pacing: real, clarity: real)

  /** What the offline scorer writes under `scoring_factors`: the five signals and the method tag. */
  datatype ScoringFactors = ScoringFactors(signals: LocalFactors, methodTag: string)

  /** The extra keys of a moment found by energy analysis. */
  datatype EnergyInfo = EnergyInfo(energyLevel: real, viralKeywords: set<string>, hookType: string,
                                   hookStrength: real, reason: string, source: string)

  datatype Moment = Moment(
    start: real, end: real, duration: real, text: string,
    language: Option<string>,
    score: Option<real>,
    scores: Option<SubScores>,
    hookAnalysis: Option<HookAnalysis>,
    aiMethod: Option<string>,
    factors: Option<ScoringFactors>,
    energy: Option<EnergyInfo>)

  /** A fresh candidate: times, text and language, nothing scored yet. */
  function Candidate(start: real, end: real, text: string, language: string): (m: Moment)
    ensures m.start == start && m.end == end && m.duration == end - start
    ensures m.text == text && m.language == Some(language) && m.score.None?
  {
    Moment(start, end, end - start, text, Some(language), None, None, None, None, None, None)
  }

  /** The ways the repository decides that a segment belongs to a time window. */
  datatype WindowKind =
    | Overlapping          // seg.start < end and seg.end > start
    | Inside               // seg.start >= start and seg.end <= end
    | InsideOrOverlapping  // either of the above

  predicate InWindow(seg: Segment, kind: WindowKind, start: real, end: real)
  {
    match kind
    case Overlapping => seg.start < end && seg.end > start
    case Inside => seg.start >= start && seg.end <= end
    case InsideOrOverlapping =>
      (seg.start >= start && seg.end <= end) || (seg.start < end && seg.end > start)
  }

  /** The segments of a window, in transcript order. */
  function WindowSegments(segs: seq<Segment>, kind: WindowKind, start: real, end: real): seq<Segment>
  {
    Select(segs, (seg: Segment) => InWindow(seg, kind, start, end))
  }

  function Texts(segs: seq<Segment>): (r: seq<string>)
    ensures |r| == |segs|
    ensures forall i :: 0 <= i < |segs| ==> r[i] == segs[i].text
  {
    seq(|segs|, i requires 0 <= i < |segs| => segs[i].text)
  }

  /** The texts of a window's segments, in transcript order. */
  function WindowTexts(segs: seq<Segment>, kind: WindowKind, start: real, end: real): seq<string>
  {
    Texts(WindowSegments(segs, kind, start, end))
  }

  /** One more segment either extends the window's texts by its own text or leaves them alone. */
  lemma WindowTextsSnoc(segs: seq<Segment>, seg: Segment, kind: WindowKind, start: real, end: real)
    ensures WindowTexts(segs + [seg], kind, start, end)
      == WindowTexts(segs, kind, start, end) + (if InWindow(seg, kind, start, end) then [seg.text] else [])
  {
    assert (segs + [seg])[..|segs|] == segs;
    var a := WindowSegments(segs, kind, start, end);
    if InWindow(seg, kind, start, end) {
      assert WindowSegments(segs + [seg], kind, start, end) == a + [seg];
      assert Texts(a + [seg]) == Texts(a) + [seg.text];
    } else {
      assert WindowSegments(segs + [seg], kind, start, end) == a;
    }
  }

  /**
   * What a window's texts are: the texts of exactly the segments that fall in
   * the window, in transcript order.
   */
  lemma WindowTextsSpec(segs: seq<Segment>, kind: WindowKind, start: real, end: real)
    ensures var keep := (seg: Segment) => InWindow(seg, kind, start, end);
      var p := SelectedPositions(segs, keep);
      var r := WindowTexts(segs, kind, start, end);
      |r| == |p|
      && (forall j :: 0 <= j < |p| ==> r[j] == segs[p[j]].text)
      && (forall i, j :: 0 <= i < j < |p| ==> p[i] < p[j])
      && (forall k :: 0 <= k < |segs| ==> (k in p <==> InWindow(segs[k], kind, start, end)))
  {
    SelectIsSubsequence(segs, (seg: Segment) => InWindow(seg, kind, start, end));
  }

  /** Every segment fully inside a window also counts for the inside-or-overlapping test. */
  lemma InsideIsInsideOrOverlapping(seg: Segment, start: real, end: real)
    ensures InWindow(seg, Inside, start, end) ==> InWindow(seg, InsideOrOverlapping, start, end)
    ensures InWindow(seg, Overlapping, start, end) ==> InWindow(seg, InsideOrOverlapping, start, end)
  {
  }

  /** ' '.join(texts).strip(): how the repository turns collected texts into one string. */
  function JoinedText(texts: seq<string>): string
  {
    Strip(Join(" ", texts))
  }

  /** The sum of count over the list. */
  function Total<T>(xs: seq<T>, count: T -> nat): nat
  {
    if |xs| == 0 then 0 else Total(xs[..|xs| - 1], count) + count(xs[|xs| - 1])
  }

  function SegmentWords(seg: Segment): nat { WordCount(seg.text) }

  /** sum(len(seg['text'].split()) for seg in transcript). */
  function TotalWords(transcript: seq<Segment>): nat
  {
    Total(transcript, SegmentWords)
  }

  /** Totals distribute over concatenation. */
  lemma {:induction false} TotalAppend<T>(a: seq<T>, b: seq<T>, count: T -> nat)
    ensures Total(a + b, count) == Total(a, count) + Total(b, count)
    decreases |b|
  {
    if |b| == 0 {
      assert a + b == a;
    } else {
      var b' := b[..|b| - 1];
      assert (a + b)[..|a + b| - 1] == a + b';
      assert (a + b)[|a + b| - 1] == b[|b| - 1];
      TotalAppend(a, b', count);
    }
  }

  /** A total of values each at most m is at most m per element. */
  lemma {:induction false} TotalAtMost<T>(xs: seq<T>, count: T -> nat, m: nat)
    requires forall k :: 0 <= k < |xs| ==> count(xs[k]) <= m
    ensures Total(xs, count) <= m * |xs|
  {
    if |xs| > 0 {
      var init := xs[..|xs| - 1];
      assert forall k :: 0 <= k < |init| ==> init[k] == xs[k];
      TotalAtMost(init, count, m);
    }
  }

  /** Counting words distributes over joining transcripts. */
  lemma TotalWordsAppend(a: seq<Segment>, b: seq<Segment>)
    ensures TotalWords(a + b) == TotalWords(a) + TotalWords(b)
  {
    TotalAppend(a, b, SegmentWords);
  }
}
