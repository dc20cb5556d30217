/**
 * Scoring and ranking of filtered moments (moments/scorer.py).
 *
 * Four sub-scores, each clamped to [0, 10], are averaged and rounded to two
 * places; the scored copies are then sorted by that score, highest first,
 * with equal scores in their input order.
 */
module Scorer {
  import opened Wrappers
  import opened Strings
  import opened Numbers
  import opened Patterns
  import opened Selection
  import opened Sorting
  import opened Transcript

  /** ' '.join(text.split()[:n]).lower(): the opening n words, lowered. */
  function FirstWordsLower(text: string, n: nat): string
  {
    Lower(Join(" ", Prefix(Words(text), n)))
  }

  predicate HasQuestionMark(s: string) { '?' in s || '？' in s }

  // ---------------------------------------------------------------------------
  // Context clarity
  // ---------------------------------------------------------------------------

  function VagueRefs(): seq<string> { ["this", "that", "it", "they", "those", "these"] }

  /** The vague references that occur in the opening 20 words (english only). */
  function VagueFound(text: string, language: string): seq<string>
  {
    if language == "english" then Select(VagueRefs(), FoundIn(FirstWordsLower(text, 20))) else []
  }

  function ContextBonus(text: string): real
  {
    (if HasQuestionMark(text) then 1.0 else 0.0) + (if HasDigit(text) then 0.5 else 0.0)
  }

  function ContextClarity(text: string, language: string): real
  {
    Clamp(10.0 + ContextBonus(text) - 1.5 * |VagueFound(text, language)| as real, 0.0, 10.0)
  }

  method ScoreContextClarity(text: string, language: string) returns (score: real)
    ensures score == ContextClarity(text, language)
  {
    score := 10.0;
    if '?' in text || '？' in text {
      score := score + 1.0;
    }
    if HasDigit(text) {
      score := score + 0.5;
    }
    if language == "english" {
      var first20 := FirstWordsLower(text, 20);
      var refs := VagueRefs();
      for k := 0 to |refs|
        invariant score == 10.0 + ContextBonus(text) - 1.5 * |Select(refs[..k], FoundIn(first20))| as real
      {
        assert refs[..k + 1][..k] == refs[..k];
        if FoundIn(first20)(refs[k]) {
          score := score - 1.5;
        }
      }
      assert refs[..|refs|] == refs;
      assert score == 10.0 + ContextBonus(text) - 1.5 * |VagueFound(text, language)| as real;
    }
    score := Max(0.0, Min(10.0, score));
  }

  /**
   * Context clarity lies in [0, 10]; it only ever loses points for english,
   * so every other language scores the full 10; for english each vague
   * reference found in the opening words is one deduction of 1.5, and the
   * references counted are exactly those that occur there, in list order.
   */
  lemma ContextClarityFacts(text: string, language: string)
    ensures 0.0 <= ContextClarity(text, language) <= 10.0
    ensures language != "english" ==> ContextClarity(text, language) == 10.0
    ensures language == "english" && ContextBonus(text) == 0.0 ==>
      ContextClarity(text, language) == Max(0.0, 10.0 - 1.5 * |VagueFound(text, language)| as real)
    ensures var found := VagueFound(text, language);
      forall ref :: ref in found <==> language == "english" && ref in VagueRefs() && Contains(FirstWordsLower(text, 20), ref)
  {
    SelectMembers(VagueRefs(), FoundIn(FirstWordsLower(text, 20)));
  }

  // ---------------------------------------------------------------------------
  // Hook strength
  // ---------------------------------------------------------------------------

  /** The language's hook patterns with their points, tried in order. */
  function HookTable(language: string): (t: seq<Weighted>)
    ensures forall k :: 0 <= k < |t| ==> 2.0 <= t[k].points <= 3.0
  {
    if language == "english" then EnglishHooks()
    else if language == "hindi" then HindiHooks()
    else if language == "spanish" then SpanishHooks()
    else []
  }

  function EnglishHooks(): (t: seq<Weighted>)
    ensures forall k :: 0 <= k < |t| ==> 2.0 <= t[k].points <= 3.0
  {
    [Weighted(WordOf(["secret", "hidden", "truth", "reality"]), 3.0),
     Weighted(WordOf(["never", "always", "nobody", "everyone"]), 2.5),
     Weighted(StartOf(["why", "how", "what"]), 2.0),
     Weighted(WordOf(["mistake", "wrong", "problem"]), 2.0)]
  }

  function HindiHooks(): (t: seq<Weighted>)
    ensures forall k :: 0 <= k < |t| ==> 2.0 <= t[k].points <= 3.0
  {
    [Weighted(AnyOf(["रहस्य", "सच", "वास्तविकता"]), 3.0),
     Weighted(AnyOf(["क्यों", "कैसे", "क्या"]), 2.0),
     Weighted(AnyOf(["गलती", "समस्या", "गलत"]), 2.0)]
  }

  function SpanishHooks(): (t: seq<Weighted>)
    ensures forall k :: 0 <= k < |t| ==> 2.0 <= t[k].points <= 3.0
  {
    [Weighted(AnyOf(["secreto", "verdad", "realidad"]), 3.0),
     Weighted(AnyOf(["por qué", "cómo", "qué"]), 2.0)]
  }

  /** The score before clamping: base 5, the universal bonuses and at most one pattern bonus. */
  function HookRaw(text: string, language: string): real
  {
    var first10 := FirstWordsLower(text, 10);
    5.0 + (if HasQuestionMark(first10) then 2.0 else 0.0) + (if HasDigit(first10) then 1.5 else 0.0)
      + FirstMatchPoints(HookTable(language), first10)
  }

  function HookStrength(text: string, language: string): real
  {
    Clamp(HookRaw(text, language), 0.0, 10.0)
  }

  method ScoreHookStrength(text: string, language: string) returns (score: real)
    ensures score == HookStrength(text, language)
  {
    var first10 := FirstWordsLower(text, 10);
    score := 5.0;
    if '?' in first10 || '？' in first10 {
      score := score + 2.0;
    }
    if HasDigit(first10) {
      score := score + 1.5;
    }
    var base := score;
    var hooks := HookTable(language);
    var k := 0;
    while k < |hooks|
      invariant 0 <= k <= |hooks|
      invariant score == base
      invariant FirstMatchPoints(hooks, first10) == FirstMatchPoints(hooks[k..], first10)
    {
      FirstMatchStep(hooks, first10, k);
      if Matches(hooks[k].pattern, first10) {
        score := score + hooks[k].points;
        break;
      }
      k := k + 1;
    }
    score := Max(0.0, Min(10.0, score));
  }

  /**
   * Hook strength never drops below its base of 5 and never exceeds 10; at
   * most one pattern bonus is added, and it is the points of the first
   * pattern in the language's table that matches the opening words.
   */
  lemma HookStrengthFacts(text: string, language: string)
    ensures 5.0 <= HookStrength(text, language) <= 10.0
    ensures var first10, t := FirstWordsLower(text, 10), HookTable(language);
      var bonus := HookRaw(text, language) - 5.0
        - (if HasQuestionMark(first10) then 2.0 else 0.0) - (if HasDigit(first10) then 1.5 else 0.0);
      (bonus == 0.0 <==> forall k :: 0 <= k < |t| ==> !Matches(t[k].pattern, first10))
      && (forall k :: 0 <= k < |t| && Matches(t[k].pattern, first10) && FirstHit(t, first10, k) ==> bonus == t[k].points)
  {
    var first10, t := FirstWordsLower(text, 10), HookTable(language);
    forall k | 0 <= k < |t| && Matches(t[k].pattern, first10) && FirstHit(t, first10, k)
      ensures FirstMatchPoints(t, first10) == t[k].points
    {
      FirstMatchDecides(t, first10, k);
    }
    if exists k :: 0 <= k < |t| && Matches(t[k].pattern, first10) {
      var k := FirstMatching(t, first10);
      FirstMatchDecides(t, first10, k);
    }
  }

  /** No entry before k matches. */
  predicate FirstHit(t: seq<Weighted>, s: string, k: nat)
    requires k <= |t|
  {
    forall j :: 0 <= j < k ==> !Matches(t[j].pattern, s)
  }

  /** The index of the first matching entry, when there is one. */
  function FirstMatching(t: seq<Weighted>, s: string): (k: nat)
    requires exists k :: 0 <= k < |t| && Matches(t[k].pattern, s)
    ensures k < |t| && Matches(t[k].pattern, s)
    ensures forall j :: 0 <= j < k ==> !Matches(t[j].pattern, s)
  {
    if Matches(t[0].pattern, s) then 0
    else
      assert forall k :: 1 <= k < |t| ==> t[1..][k - 1] == t[k];
      1 + FirstMatching(t[1..], s)
  }

  // ---------------------------------------------------------------------------
  // Standalone understanding
  // ---------------------------------------------------------------------------

  /** text.strip() ends with one of '.', '!', '?' or the danda '।'. */
  predicate EndsSentence(text: string)
  {
    var t := Strip(text);
    |t| > 0 && t[|t| - 1] in ['.', '!', '?', '।']
  }

  /** len(text.split('?')): one more piece than there are question marks. */
  function QuestionPieces(text: string): nat
  {
    CountChar(text, '?') + 1
  }

  function StandaloneUnderstanding(text: string): (r: real)
    ensures 8.0 <= r <= 10.0
    ensures '?' in text ==> r >= 9.5
    ensures '?' in text && EndsSentence(text) ==> r == 10.0
    ensures '?' !in text ==> (r == 9.0 <==> EndsSentence(text))
  {
    var score := 8.0 + (if EndsSentence(text) then 1.0 else 0.0)
      + (if '?' in text && QuestionPieces(text) > 1 then 1.5 else 0.0);
    Max(0.0, Min(10.0, score))
  }

  // ---------------------------------------------------------------------------
  // Retention potential
  // ---------------------------------------------------------------------------

  /** The duration terms: the sweet-spot bonus and the deduction for long clips. */
  function DurationAdjustment(duration: real): real
  {
    (if 30.0 <= duration <= 45.0 then 2.0 else if 45.0 < duration <= 60.0 then 1.0 else 0.0)
      - (if duration > 55.0 then 1.0 else 0.0)
  }

  /** The net effect of the duration, interval by interval. */
  lemma DurationAdjustmentTable(duration: real)
    ensures duration < 30.0 ==> DurationAdjustment(duration) == 0.0
    ensures 30.0 <= duration <= 45.0 ==> DurationAdjustment(duration) == 2.0
    ensures 45.0 < duration <= 55.0 ==> DurationAdjustment(duration) == 1.0
    ensures 55.0 < duration <= 60.0 ==> DurationAdjustment(duration) == 0.0
    ensures duration > 60.0 ==> DurationAdjustment(duration) == -1.0
  {
  }

  /** The engagement patterns, searched case-insensitively (on the lowered text). */
  function EngagementPatterns(): seq<Pattern>
  {
    [
    WordOf(["you", "your"]),
    WordOf(["imagine", "picture", "think about"]),
    QuestionThenWord,
    WordOf(["first", "second", "finally"])]
  }

  function MatchesIn(s: string): Pattern -> bool
  {
    (p: Pattern) => Matches(p, s)
  }

  function EngagementHits(text: string): seq<Pattern>
  {
    Select(EngagementPatterns(), MatchesIn(Lower(text)))
  }

  function SentenceCount(text: string): nat
  {
    CountChar(text, '.') + CountChar(text, '!') + CountChar(text, '?')
  }

  function PacingBonus(text: string): real
  {
    if 3 <= SentenceCount(text) <= 5 then 1.0 else 0.0
  }

  function RetentionPotential(text: string, duration: real): real
  {
    Clamp(7.0 + DurationAdjustment(duration) + 0.5 * |EngagementHits(text)| as real + PacingBonus(text), 0.0, 10.0)
  }

  method ScoreRetentionPotential(text: string, duration: real) returns (score: real)
    ensures score == RetentionPotential(text, duration)
  {
    score := 7.0;
    if 30.0 <= duration <= 45.0 {
      score := score + 2.0;
    } else if 45.0 < duration <= 60.0 {
      score := score + 1.0;
    }
    if duration > 55.0 {
      score := score - 1.0;
    }
    var lowered := Lower(text);
    for k := 0 to |EngagementPatterns()|
      invariant score == 7.0 + DurationAdjustment(duration)
        + 0.5 * |Select(EngagementPatterns()[..k], MatchesIn(lowered))| as real
    {
      assert EngagementPatterns()[..k + 1][..k] == EngagementPatterns()[..k];
      if MatchesIn(lowered)(EngagementPatterns()[k]) {
        score := score + 0.5;
      }
    }
    assert EngagementPatterns()[..|EngagementPatterns()|] == EngagementPatterns();
    var sentenceCount := CountChar(text, '.') + CountChar(text, '!') + CountChar(text, '?');
    if 3 <= sentenceCount <= 5 {
      score := score + 1.0;
    }
    score := Max(0.0, Min(10.0, score));
  }

  /**
   * Retention lies in [0, 10]; each engagement pattern adds at most once, so
   * the patterns add at most 2; and a clip with none of the bonuses scores
   * its base of 7 adjusted by the duration alone.
   */
  lemma RetentionFacts(text: string, duration: real)
    ensures 0.0 <= RetentionPotential(text, duration) <= 10.0
    ensures |EngagementHits(text)| <= 4
    ensures |EngagementHits(text)| == 0 && PacingBonus(text) == 0.0 ==>
      RetentionPotential(text, duration) == 7.0 + DurationAdjustment(duration)
    ensures forall p :: p in EngagementHits(text) <==> p in EngagementPatterns() && Matches(p, Lower(text))
  {
    SelectMembers(EngagementPatterns(), MatchesIn(Lower(text)));
  }

  // ---------------------------------------------------------------------------
  // Score and rank
  // ---------------------------------------------------------------------------

  function SubScoresOf(m: Moment, language: string): SubScores
  {
    SubScores(ContextClarity(m.text, language), HookStrength(m.text, language),
              StandaloneUnderstanding(m.text), RetentionPotential(m.text, m.duration))
  }

  /** sum(scores.values()) / len(scores). */
  function Mean(s: SubScores): real
  {
    (s.contextClarity + s.hookStrength + s.standalone + s.retention) / 4.0
  }

  /** The copy of a moment with its sub-scores and its two-place rounded total. */
  function Scored(m: Moment, language: string): Moment
  {
    var s := SubScoresOf(m, language);
    m.(scores := Some(s), score := Some(RoundTo(Mean(s), 100.0)))
  }

  /** The scoring step applied to every moment of a batch. */
  function ScoreWith(language: string): Moment -> Moment
  {
    (m: Moment) => Scored(m, language)
  }

  /** The scored copies, in input order. */
  function ScoredAll(ms: seq<Moment>, language: string): (r: seq<Moment>)
    ensures |r| == |ms|
  {
    MapAll(ms, ScoreWith(language))
  }

  /** x['score'] for each moment, the sort key. */
  function ScoreKeys(ms: seq<Moment>): (keys: seq<real>)
    ensures |keys| == |ms|
  {
    seq(|ms|, i requires 0 <= i < |ms| => ms[i].score.GetOr(0.0))
  }

  /** The language of the batch: the first moment's, defaulting to english. */
  function BatchLanguage(ms: seq<Moment>): string
    requires |ms| > 0
  {
    ms[0].language.GetOr("english")
  }

  function ScoreAndRank(ms: seq<Moment>): seq<Moment>
  {
    if |ms| == 0 then []
    else
      var scored := ScoredAll(ms, BatchLanguage(ms));
      SortDescending(scored, ScoreKeys(scored))
  }

  method ScoreAndRankMoments(moments: seq<Moment>) returns (ranked: seq<Moment>)
    ensures ranked == ScoreAndRank(moments)
  {
    if |moments| == 0 {
      return [];
    }
    var language := moments[0].language.GetOr("english");
    var scored: seq<Moment> := [];
    for i := 0 to |moments|
      invariant scored == ScoredAll(moments[..i], language)
    {
      var moment := moments[i];
      var contextClarity := ScoreContextClarity(moment.text, language);
      var hookStrength := ScoreHookStrength(moment.text, language);
      var standalone := StandaloneUnderstanding(moment.text);
      var retention := ScoreRetentionPotential(moment.text, moment.duration);
      var scores := SubScores(contextClarity, hookStrength, standalone, retention);
      var total := (contextClarity + hookStrength + standalone + retention) / 4.0;
      assert scores == SubScoresOf(moment, language) && total == Mean(scores);
      assert moments[..i + 1][..i] == moments[..i];
      scored := scored + [moment.(scores := Some(scores), score := Some(RoundTo(total, 100.0)))];
    }
    assert moments[..|moments|] == moments;
    ranked := SortDescending(scored, ScoreKeys(scored));
  }

  /** Every sub-score, and so their rounded mean, lies in [0, 10]. */
  lemma ScoreInRange(m: Moment, language: string)
    ensures var s := SubScoresOf(m, language);
      0.0 <= s.contextClarity <= 10.0 && 0.0 <= s.hookStrength <= 10.0
      && 0.0 <= s.standalone <= 10.0 && 0.0 <= s.retention <= 10.0
    ensures Scored(m, language).score.Some?
    ensures 0.0 <= Scored(m, language).score.value <= 10.0
  {
    var s := SubScoresOf(m, language);
    assert 0.0 <= Mean(s) <= 10.0;
    RoundWithin(Mean(s), 0.0, 10.0, 100.0);
  }

  /** A scored copy differs from its moment only in the two score keys, and its score lies in [0, 10]. */
  lemma ScoredCopy(m: Moment, language: string)
    ensures var c := Scored(m, language);
      c.score.Some? && 0.0 <= c.score.value <= 10.0
      && c.(score := m.score, scores := m.scores) == m
  {
    ScoreInRange(m, language);
  }

  /**
   * What ranking promises: empty in, empty out; otherwise the output is the
   * scored copies of the input moments, each exactly once (position p[i] of
   * the input lands at i), every score in [0, 10], scores non-increasing,
   * and equal scores in input order. A copy differs from its moment only in
   * the two score keys.
   */
  lemma ScoreAndRankSpec(ms: seq<Moment>)
    ensures |ms| == 0 ==> ScoreAndRank(ms) == []
    ensures |ScoreAndRank(ms)| == |ms|
    ensures |ms| > 0 ==>
      var language := BatchLanguage(ms);
      var p := StableOrder(ScoreKeys(ScoredAll(ms, language)));
      var r := ScoreAndRank(ms);
      IsPermutation(p, |ms|)
      && (forall i :: 0 <= i < |ms| ==> r[i] == Scored(ms[p[i]], language))
      && (forall i :: 0 <= i < |ms| ==>
            r[i].score.Some? && 0.0 <= r[i].score.value <= 10.0
            && r[i].(score := ms[p[i]].score, scores := ms[p[i]].scores) == ms[p[i]])
      && (forall i, j :: 0 <= i < j < |ms| ==> r[i].score.value >= r[j].score.value)
      && (forall i, j :: 0 <= i < j < |ms| && r[i].score.value == r[j].score.value ==> p[i] < p[j])
  {
    if |ms| > 0 {
      var language := BatchLanguage(ms);
      var scored := ScoredAll(ms, language);
      var keys := ScoreKeys(scored);
      SortDescendingSpec(scored, keys);
      MapAllAt(ms, ScoreWith(language));
      var p := StableOrder(keys);
      var r := ScoreAndRank(ms);
      assert r == SortDescending(scored, keys);
      forall i | 0 <= i < |ms|
        ensures r[i] == Scored(ms[p[i]], language)
        ensures r[i].score.Some? && 0.0 <= r[i].score.value <= 10.0
        ensures r[i].(score := ms[p[i]].score, scores := ms[p[i]].scores) == ms[p[i]]
        ensures r[i].score.value == keys[p[i]]
      {
        assert r[i] == scored[p[i]];
        ScoredCopy(ms[p[i]], language);
      }
    }
  }
}
