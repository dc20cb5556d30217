/**
 * The offline provider: the aggressive rejection filter followed by five
 * bounded text heuristics (energy markers, viral keywords, hook patterns,
 * pacing, clarity), a viral-worthiness threshold for filtering and a
 * weighted smart score for ranking.
 *
 * Every heuristic reads the moment's text only; the transcript parameter of
 * the source methods is never consulted and is dropped here, except where
 * the aggressive filter needs it.
 */
module LocalProvider {
  import opened Wrappers
  import opened Strings
  import opened Numbers
  import opened Patterns
  import opened Selection
  import opened Sorting
  import opened Transcript
  import opened Filter
  import Scorer

  // ---------------------------------------------------------------------------
  // re.findall on the fixed patterns
  // ---------------------------------------------------------------------------

  /** A pattern whose matches re.findall counts. */
  datatype Counted =
    | Literals(alts: seq<string>, bounded: bool)  // r'(a|b)', or r'\b(a|b)\b' when bounded
    | NumberWith(suffixes: seq<string>)           // r'\d+(?:a|b)'; no suffix starts with a digit

  /** The first alternative, from k on, that matches at i; its length, or 0. */
  function LiteralMatch(s: string, i: nat, alts: seq<string>, bounded: bool, k: nat): (n: nat)
    requires k <= |alts|
    ensures n > 0 ==> i + n <= |s|
    decreases |alts| - k
  {
    if k == |alts| then 0
    else if |alts[k]| > 0 && LiteralAt(s, i, alts[k])
      && (!bounded || (IsBoundary(s, i) && IsBoundary(s, i + |alts[k]|)))
    then |alts[k]|
    else LiteralMatch(s, i, alts, bounded, k + 1)
  }

  /** The end of the run of digits that starts at i. */
  function DigitsEnd(s: string, i: nat): (j: nat)
    requires i <= |s|
    ensures i <= j <= |s|
    ensures forall t :: i <= t < j ==> IsDigit(s[t])
    ensures j < |s| ==> !IsDigit(s[j])
    decreases |s| - i
  {
    if i < |s| && IsDigit(s[i]) then DigitsEnd(s, i + 1) else i
  }

  /**
   * The length of the match that starts exactly at i, or 0 when none does.
   * Alternatives are tried in order and the empty alternative never matches
   * (none of the tables holds one). The digit run is taken whole: a shorter
   * run would leave a digit where a suffix has to begin.
   */
  function MatchLength(p: Counted, s: string, i: nat): (n: nat)
    ensures n > 0 ==> i + n <= |s|
  {
    match p
    case Literals(alts, bounded) => LiteralMatch(s, i, alts, bounded, 0)
    case NumberWith(suffixes) =>
      if i < |s| && IsDigit(s[i]) then
        var j := DigitsEnd(s, i);
        var n := LiteralMatch(s, j, suffixes, false, 0);
        if n > 0 then (j - i) + n else 0
      else 0
  }

  /** The number of non-overlapping matches found scanning from i to the end. */
  function FindAllFrom(p: Counted, s: string, i: nat): (c: nat)
    decreases |s| - i
  {
    if i >= |s| then 0
    else
      var n := MatchLength(p, s, i);
      if n > 0 then 1 + FindAllFrom(p, s, i + n) else FindAllFrom(p, s, i + 1)
  }

  /** len(re.findall(pattern, s)). */
  function FindAll(p: Counted, s: string): nat
  {
    FindAllFrom(p, s, 0)
  }

  /** The scan finds nothing exactly when no match starts at any position it could visit. */
  lemma {:induction false} FindAllFromZero(p: Counted, s: string, i: nat)
    ensures FindAllFrom(p, s, i) == 0 <==> forall j :: i <= j < |s| ==> MatchLength(p, s, j) == 0
    decreases |s| - i
  {
    if i < |s| {
      if MatchLength(p, s, i) == 0 {
        FindAllFromZero(p, s, i + 1);
      }
    }
  }

  /** Every match takes at least one character, so the count never exceeds the characters left. */
  lemma {:induction false} FindAllFromBound(p: Counted, s: string, i: nat)
    ensures FindAllFrom(p, s, i) <= if i <= |s| then |s| - i else 0
    decreases |s| - i
  {
    if i < |s| {
      var n := MatchLength(p, s, i);
      if n > 0 {
        FindAllFromBound(p, s, i + n);
      } else {
        FindAllFromBound(p, s, i + 1);
      }
    }
  }

  /** re.findall counts zero exactly when the pattern matches nowhere, and at most one per character. */
  lemma FindAllSpec(p: Counted, s: string)
    ensures FindAll(p, s) == 0 <==> forall j :: 0 <= j < |s| ==> MatchLength(p, s, j) == 0
    ensures FindAll(p, s) <= |s|
  {
    FindAllFromZero(p, s, 0);
    FindAllFromBound(p, s, 0);
  }

  // ---------------------------------------------------------------------------
  // _check_energy_spike
  // ---------------------------------------------------------------------------

  /** An energy marker and the points each match is worth. */
  datatype Marker = Marker(pattern: Counted, points: real)

  function EnergyMarkers(): seq<Marker>
  {
    [ Marker(Literals(["wow", "omg", "oh my god", "amazing", "incredible", "shocking"], true), 3.0),
      Marker(Literals(["wow"], true), 5.0),
      Marker(Literals(["!!!"], false), 2.0),
      Marker(Literals(["??"], false), 2.0),
      Marker(Literals(["all caps words"], false), 3.0) ]
  }

  /** The cap on what a single marker can contribute. */
  const MarkerCap := 15.0

  /** min(matches * points, 15). */
  function MarkerPoints(m: Marker, s: string): real
  {
    Min(FindAll(m.pattern, s) as real * m.points, MarkerCap)
  }

  /** The contributions of the first n markers, added up in table order. */
  function MarkerSum(table: seq<Marker>, s: string, n: nat): real
    requires n <= |table|
  {
    if n == 0 then 0.0 else MarkerSum(table, s, n - 1) + MarkerPoints(table[n - 1], s)
  }

  /** A filler word and, later on the same line, a word of surprise: r'\b(um|uh|like)\b.*\b(what|wait|stop|hold on)\b'. */
  predicate Interrupted(s: string)
  {
    SearchBoundedPair(s, ["um", "uh", "like"], ["what", "wait", "stop", "hold on"])
  }

  /** The marker total, plus 5 for an interruption, capped at 30. */
  function EnergyFrom(total: real, interrupted: bool): real
  {
    Min(total + (if interrupted then 5.0 else 0.0), 30.0)
  }

  function EnergySpike(text: string): real
  {
    var s := Lower(text);
    EnergyFrom(MarkerSum(EnergyMarkers(), s, |EnergyMarkers()|), Interrupted(s))
  }

  /** The marker loop: each marker's capped contribution is added in turn. */
  method SumMarkers(table: seq<Marker>, s: string) returns (score: real)
    ensures score == MarkerSum(table, s, |table|)
  {
    score := 0.0;
    for k := 0 to |table|
      invariant score == MarkerSum(table, s, k)
    {
      score := score + MarkerPoints(table[k], s);
    }
  }

  method CheckEnergySpike(text: string) returns (score: real)
    ensures score == EnergySpike(text)
  {
    var s := Lower(text);
    score := SumMarkers(EnergyMarkers(), s);
    if Interrupted(s) {
      score := score + 5.0;
    }
    score := Min(score, 30.0);
  }

  predicate PointsNonNegative(table: seq<Marker>)
  {
    forall k :: 0 <= k < |table| ==> table[k].points >= 0.0
  }

  /** Each marker contributes between 0 and 15, so n markers between 0 and 15n. */
  lemma {:induction false} MarkerSumBounds(table: seq<Marker>, s: string, n: nat)
    requires n <= |table| && PointsNonNegative(table)
    ensures forall k :: 0 <= k < n ==> 0.0 <= MarkerPoints(table[k], s) <= MarkerCap
    ensures 0.0 <= MarkerSum(table, s, n) <= MarkerCap * n as real
  {
    if n > 0 {
      MarkerSumBounds(table, s, n - 1);
      MulLe(0.0, FindAll(table[n - 1].pattern, s) as real, table[n - 1].points);
    }
  }

  /** No marker match and no interruption is exactly what scores 0. */
  lemma {:induction false} MarkerSumZero(table: seq<Marker>, s: string, n: nat)
    requires n <= |table| && forall k :: 0 <= k < |table| ==> table[k].points > 0.0
    ensures MarkerSum(table, s, n) == 0.0 <==> forall k :: 0 <= k < n ==> FindAll(table[k].pattern, s) == 0
  {
    if n > 0 {
      MarkerSumZero(table, s, n - 1);
      MarkerSumBounds(table, s, n - 1);
      var c := FindAll(table[n - 1].pattern, s);
      var last := MarkerPoints(table[n - 1], s);
      assert MarkerSum(table, s, n) == MarkerSum(table, s, n - 1) + last;
      if c > 0 {
        MulLe(1.0, c as real, table[n - 1].points);
        assert last > 0.0;
      } else {
        assert last == 0.0;
      }
    }
  }

  /**
   * The energy score lies in [0, 30], each marker contributes at most 15 of
   * it, and it is 0 exactly when no marker pattern matches the lowered text
   * and there is no interruption.
   */
  lemma EnergySpikeSpec(text: string)
    ensures 0.0 <= EnergySpike(text) <= 30.0
    ensures forall k :: 0 <= k < |EnergyMarkers()| ==> 0.0 <= MarkerPoints(EnergyMarkers()[k], Lower(text)) <= MarkerCap
    ensures EnergySpike(text) == 0.0 <==>
      (forall k :: 0 <= k < |EnergyMarkers()| ==> FindAll(EnergyMarkers()[k].pattern, Lower(text)) == 0)
      && !Interrupted(Lower(text))
  {
    var t := EnergyMarkers();
    var s := Lower(text);
    MarkerSumBounds(t, s, |t|);
    MarkerSumZero(t, s, |t|);
  }

  // ---------------------------------------------------------------------------
  // _check_viral_keywords
  // ---------------------------------------------------------------------------

  /** A keyword category: a word list scored per word found, or a counted pattern capped at 10. */
  datatype Category =
    | WordList(words: seq<string>, weight: real)
    | Counting(pattern: Counted, weight: real)

  /** The categories in dictionary order. */
  function KeywordCategories(): seq<Category>
  {
    [ WordList(["shocking", "unbelievable", "crazy", "insane", "mind blown",
                "did not expect", "never saw that coming", "plot twist"], 3.0),
      WordList(["happened", "crashed", "exploded", "collapsed", "broke",
                "failed", "succeeded", "won", "beaten", "destroyed"], 3.0),
      WordList(["love", "hate", "proud", "ashamed", "happy", "sad",
                "angry", "hilarious", "awkward", "embarrassing"], 2.0),
      WordList(["actually", "turns out", "secret", "truth", "never knew",
                "didn't know", "find out", "discover", "exposed"], 2.5),
      Counting(NumberWith(["%", "k", "m", "billion", "million", "thousand"]), 2.0) ]
  }

  const CountingCap := 10.0

  /** The weight once for each of the first n words that occurs in s as a substring. */
  function WordHits(words: seq<string>, weight: real, s: string, n: nat): real
    requires n <= |words|
  {
    if n == 0 then 0.0
    else WordHits(words, weight, s, n - 1) + (if Contains(s, words[n - 1]) then weight else 0.0)
  }

  function CategoryPoints(c: Category, s: string): real
  {
    match c
    case WordList(words, weight) => WordHits(words, weight, s, |words|)
    case Counting(pattern, weight) => Min(FindAll(pattern, s) as real * weight, CountingCap)
  }

  function CategorySum(table: seq<Category>, s: string, n: nat): real
    requires n <= |table|
  {
    if n == 0 then 0.0 else CategorySum(table, s, n - 1) + CategoryPoints(table[n - 1], s)
  }

  function ViralKeywords(text: string): real
  {
    var t := KeywordCategories();
    Min(CategorySum(t, Lower(text), |t|), 30.0)
  }

  /** The inner loop over one category's words. */
  method SumWords(words: seq<string>, weight: real, s: string) returns (score: real)
    ensures score == WordHits(words, weight, s, |words|)
  {
    score := 0.0;
    for k := 0 to |words|
      invariant score == WordHits(words, weight, s, k)
    {
      if Contains(s, words[k]) {
        score := score + weight;
      }
    }
  }

  /** The outer loop over the categories. */
  method SumCategories(table: seq<Category>, s: string) returns (score: real)
    ensures score == CategorySum(table, s, |table|)
  {
    score := 0.0;
    for k := 0 to |table|
      invariant score == CategorySum(table, s, k)
    {
      match table[k]
      case Counting(_, _) =>
        score := score + CategoryPoints(table[k], s);
      case WordList(words, weight) =>
        var hits := SumWords(words, weight, s);
        score := score + hits;
    }
  }

  method CheckViralKeywords(text: string) returns (score: real)
    ensures score == ViralKeywords(text)
  {
    score := SumCategories(KeywordCategories(), Lower(text));
    score := Min(score, 30.0);
  }

  /** Found words add their weight; the sum lies between 0 and weight times the words found. */
  lemma {:induction false} WordHitsBounds(words: seq<string>, weight: real, s: string, n: nat)
    requires n <= |words| && weight >= 0.0
    ensures 0.0 <= WordHits(words, weight, s, n) <= weight * n as real
  {
    if n > 0 {
      WordHitsBounds(words, weight, s, n - 1);
      assert weight * n as real == weight * (n - 1) as real + weight;
    }
  }

  /** How many of the first n words occur in s. */
  function FoundCount(words: seq<string>, s: string, n: nat): (c: nat)
    requires n <= |words|
    ensures c <= n
  {
    if n == 0 then 0 else FoundCount(words, s, n - 1) + (if Contains(s, words[n - 1]) then 1 else 0)
  }

  /** The sum is the weight once for each of the first n words found. */
  lemma {:induction false} WordHitsCount(words: seq<string>, weight: real, s: string, n: nat)
    requires n <= |words|
    ensures WordHits(words, weight, s, n) == weight * FoundCount(words, s, n) as real
  {
    if n > 0 {
      WordHitsCount(words, weight, s, n - 1);
    }
  }

  /** No word is counted exactly when none of the first n words occurs in s. */
  lemma {:induction false} FoundCountZero(words: seq<string>, s: string, n: nat)
    requires n <= |words|
    ensures FoundCount(words, s, n) == 0 <==> forall k :: 0 <= k < n ==> !Contains(s, words[k])
  {
    if n > 0 {
      FoundCountZero(words, s, n - 1);
    }
  }

  predicate WeightsNonNegative(table: seq<Category>)
  {
    forall k :: 0 <= k < |table| ==> table[k].weight >= 0.0
  }

  lemma {:induction false} CategorySumBounds(table: seq<Category>, s: string, n: nat)
    requires n <= |table| && WeightsNonNegative(table)
    ensures 0.0 <= CategorySum(table, s, n)
    ensures forall k :: 0 <= k < n && table[k].Counting? ==> 0.0 <= CategoryPoints(table[k], s) <= CountingCap
  {
    if n > 0 {
      CategorySumBounds(table, s, n - 1);
      match table[n - 1]
      case WordList(words, weight) =>
        WordHitsBounds(words, weight, s, |words|);
      case Counting(pattern, weight) =>
        MulLe(0.0, FindAll(pattern, s) as real, weight);
    }
  }

  /**
   * What one category contributes: a word list its weight once for each of
   * its words found as a substring, a counted pattern min(matches * weight,
   * 10), which lies in [0, 10] for a non-negative weight.
   */
  lemma CategoryPointsSpec(c: Category, s: string)
    ensures c.WordList? ==> CategoryPoints(c, s) == c.weight * FoundCount(c.words, s, |c.words|) as real
    ensures c.Counting? && c.weight >= 0.0 ==> 0.0 <= CategoryPoints(c, s) <= CountingCap
  {
    match c
    case WordList(words, weight) =>
      WordHitsCount(words, weight, s, |words|);
    case Counting(pattern, weight) =>
      if weight >= 0.0 {
        MulLe(0.0, FindAll(pattern, s) as real, weight);
      }
  }

  /** The keyword score lies in [0, 30], and the number category contributes at most 10 of it. */
  lemma ViralKeywordsSpec(text: string)
    ensures 0.0 <= ViralKeywords(text) <= 30.0
    ensures KeywordCategories()[4].Counting?
    ensures 0.0 <= CategoryPoints(KeywordCategories()[4], Lower(text)) <= CountingCap
  {
    var t := KeywordCategories();
    CategorySumBounds(t, Lower(text), |t|);
  }

  // ---------------------------------------------------------------------------
  // _check_hook_pattern
  // ---------------------------------------------------------------------------

  /** A hook pattern searched for once. */
  datatype HookShape =
    | Bounded(alts: seq<string>)                         // r'\b(a|b)\b'
    | BoundedPair(first: seq<string>, second: seq<string>)  // r'\b(a)\b.*\b(b)\b'

  datatype Hook = Hook(shape: HookShape, points: real)

  predicate HookFound(h: HookShape, s: string)
  {
    match h
    case Bounded(alts) => SearchBounded(s, alts)
    case BoundedPair(first, second) => SearchBoundedPair(s, first, second)
  }

  function HookPatterns(): seq<Hook>
  {
    [ Hook(BoundedPair(["wait"], ["what", "how", "why"]), 5.0),
      Hook(Bounded(["what if", "imagine", "picture this"]), 4.0),
      Hook(Bounded(["would you", "could you", "can you"]), 3.0),
      Hook(Bounded(["have you ever", "did you know"]), 4.0),
      Hook(Bounded(["hold on"]), 3.0),
      Hook(Bounded(["listen", "trust me", "watch this"]), 3.0),
      Hook(BoundedPair(["this is", "here's", "you won't", "you'll", "you're"], ["crazy", "insane", "amazing"]), 5.0) ]
  }

  /** The points of the first n hooks that are found. */
  function HookSum(table: seq<Hook>, s: string, n: nat): real
    requires n <= |table|
  {
    if n == 0 then 0.0
    else HookSum(table, s, n - 1) + (if HookFound(table[n - 1].shape, s) then table[n - 1].points else 0.0)
  }

  function HookScore(text: string): real
  {
    var t := HookPatterns();
    Min(HookSum(t, Lower(text), |t|), 20.0)
  }

  method SumHooks(table: seq<Hook>, s: string) returns (score: real)
    ensures score == HookSum(table, s, |table|)
  {
    score := 0.0;
    for k := 0 to |table|
      invariant score == HookSum(table, s, k)
    {
      if HookFound(table[k].shape, s) {
        score := score + table[k].points;
      }
    }
  }

  method CheckHookPattern(text: string) returns (score: real)
    ensures score == HookScore(text)
  {
    score := SumHooks(HookPatterns(), Lower(text));
    score := Min(score, 20.0);
  }

  /** With positive points, the sum is 0 exactly when no hook is found, and never negative. */
  lemma {:induction false} HookSumSpec(table: seq<Hook>, s: string, n: nat)
    requires n <= |table| && forall k :: 0 <= k < |table| ==> table[k].points > 0.0
    ensures 0.0 <= HookSum(table, s, n)
    ensures HookSum(table, s, n) == 0.0 <==> forall k :: 0 <= k < n ==> !HookFound(table[k].shape, s)
  {
    if n > 0 {
      HookSumSpec(table, s, n - 1);
    }
  }

  /** The hook score lies in [0, 20] and is 0 exactly when none of the hook patterns is found. */
  lemma HookScoreSpec(text: string)
    ensures 0.0 <= HookScore(text) <= 20.0
    ensures HookScore(text) == 0.0 <==>
      forall k :: 0 <= k < |HookPatterns()| ==> !HookFound(HookPatterns()[k].shape, Lower(text))
  {
    var t := HookPatterns();
    HookSumSpec(t, Lower(text), |t|);
  }

  // ---------------------------------------------------------------------------
  // _check_pacing_energy and _check_clarity
  // ---------------------------------------------------------------------------

  predicate IsStop(c: char) { c == '.' || c == '!' || c == '?' }

  /** Position i starts a maximal run of stop characters. */
  function RunStart(s: string): nat -> bool
  {
    (i: nat) => i < |s| && IsStop(s[i]) && (i == 0 || !IsStop(s[i - 1]))
  }

  /** len(re.split(r'[.!?]+', text.strip())): one piece more than there are runs of stops. */
  function SentencePieceCount(text: string): (n: nat)
    ensures n >= 1
  {
    var s := Strip(text);
    1 + CountWhere(|s|, RunStart(s))
  }

  /** The pacing part: 10 for an average piece under 30 characters, else 5; 0 for the empty text. */
  function PacingBase(text: string, pieces: real): real
    requires pieces > 0.0
  {
    if |text| > 0 then (if (|text| as real) / pieces < 30.0 then 10.0 else 5.0) else 0.0
  }

  /** min((2 * exclamations + questions) / pieces * 2, 5). */
  function Intensity(text: string, pieces: real): real
    requires pieces > 0.0
  {
    Min((CountChar(text, '!') as real * 2.0 + CountChar(text, '?') as real) / pieces * 2.0, 5.0)
  }

  function Pacing(text: string): real
  {
    var n := SentencePieceCount(text);
    var pieces := (if n > 1 then n else 1) as real;
    Min(PacingBase(text, pieces) + Intensity(text, pieces), 10.0)
  }

  /**
   * Pacing lies in [0, 10]: the empty text scores 0, any other text at least
   * 5, and a text without '!' or '?' exactly its pacing part.
   */
  lemma PacingSpec(text: string)
    ensures 0.0 <= Pacing(text) <= 10.0
    ensures |text| == 0 ==> Pacing(text) == 0.0
    ensures |text| > 0 ==> Pacing(text) >= 5.0
    ensures '!' !in text && '?' !in text ==>
      Pacing(text) == PacingBase(text, SentencePieceCount(text) as real)
  {
    var pieces := SentencePieceCount(text) as real;
    var raw := CountChar(text, '!') as real * 2.0 + CountChar(text, '?') as real;
    DivLe(0.0, raw, pieces);
    assert 0.0 <= Intensity(text, pieces);
    if |text| == 0 {
      assert Strip(text) == [];
      assert raw == 0.0;
    }
  }

  /** 2 below 5 words, 5 above 150 words, 10 otherwise; the ending test after these returns is never reached. */
  function Clarity(text: string): real
  {
    var count := WordCount(Lower(text));
    if count < 5 then 2.0 else if count > 150 then 5.0 else 10.0
  }

  /** Clarity takes one of three values and is 10 exactly for 5 to 150 words. */
  lemma ClaritySpec(text: string)
    ensures Clarity(text) in {2.0, 5.0, 10.0}
    ensures Clarity(text) == 10.0 <==> 5 <= WordCount(Lower(text)) <= 150
    ensures Clarity(text) == 2.0 <==> WordCount(Lower(text)) < 5
  {
  }

  // ---------------------------------------------------------------------------
  // _is_viral_worthy_local and _calculate_smart_score
  // ---------------------------------------------------------------------------

  /** The five signals of a text. */
  function Factors(text: string): LocalFactors
  {
    LocalFactors(EnergySpike(text), ViralKeywords(text), HookScore(text), Pacing(text), Clarity(text))
  }

  method CheckFactors(text: string) returns (f: LocalFactors)
    ensures f == Factors(text)
  {
    var energy := CheckEnergySpike(text);
    var keywords := CheckViralKeywords(text);
    var hooks := CheckHookPattern(text);
    f := LocalFactors(energy, keywords, hooks, Pacing(text), Clarity(text));
  }

  /** The ranges the five heuristics promise. */
  predicate InRanges(f: LocalFactors)
  {
    0.0 <= f.energy <= 30.0 && 0.0 <= f.keywords <= 30.0 && 0.0 <= f.hooks <= 20.0
    && 0.0 <= f.pacing <= 10.0 && 2.0 <= f.clarity <= 10.0
  }

  lemma FactorsInRanges(text: string)
    ensures InRanges(Factors(text))
  {
    EnergySpikeSpec(text);
    ViralKeywordsSpec(text);
    HookScoreSpec(text);
    PacingSpec(text);
    ClaritySpec(text);
  }

  /** The filtering total: hooks weigh 1.5, pacing and clarity 0.5. */
  function ViralTotal(f: LocalFactors): real
  {
    f.energy + f.keywords + f.hooks * 1.5 + f.pacing * 0.5 + f.clarity * 0.5
  }

  predicate ViralWorthy(m: Moment)
  {
    ViralTotal(Factors(m.text)) >= 35.0
  }

  method IsViralWorthyLocal(m: Moment) returns (b: bool)
    ensures b == ViralWorthy(m)
  {
    var f := CheckFactors(m.text);
    b := f.energy + f.keywords + f.hooks * 1.5 + f.pacing * 0.5 + f.clarity * 0.5 >= 35.0;
  }

  /**
   * Pacing and clarity alone reach at most 10 points, so a viral-worthy
   * moment has an energy, keyword or hook signal; energy and keywords
   * together at 35 are enough on their own.
   */
  lemma ViralWorthySignals(m: Moment)
    ensures ViralWorthy(m) ==> Factors(m.text).energy + Factors(m.text).keywords + Factors(m.text).hooks > 0.0
    ensures Factors(m.text).energy + Factors(m.text).keywords >= 35.0 ==> ViralWorthy(m)
    ensures Factors(m.text).hooks == 0.0 && Factors(m.text).energy + Factors(m.text).keywords < 25.0 ==> !ViralWorthy(m)
  {
    FactorsInRanges(m.text);
  }

  /** The ranking score before the boosts. */
  function SmartBase(f: LocalFactors): real
  {
    f.energy * 0.3 + f.keywords * 0.35 + f.hooks * 0.25 + f.pacing * 0.05 + f.clarity * 0.05
  }

  /** ×1.15 for hooks above 10, ×0.8 above 200 words, then clamped into [0, 100]. */
  function SmartFrom(f: LocalFactors, words: nat): real
  {
    var boosted := if f.hooks > 10.0 then SmartBase(f) * 1.15 else SmartBase(f);
    var reduced := if words > 200 then boosted * 0.8 else boosted;
    Min(Max(reduced, 0.0), 100.0)
  }

  function SmartScore(text: string): real
  {
    SmartFrom(Factors(text), WordCount(text))
  }

  /** The largest score the weights allow: (9 + 10.5 + 5 + 0.5 + 0.5) * 1.15. */
  const SmartCeiling := 29.325

  lemma SmartFromBounds(f: LocalFactors, words: nat)
    requires InRanges(f)
    ensures 0.0 <= SmartFrom(f, words) <= SmartCeiling
    ensures SmartFrom(f, words)
      == (if f.hooks > 10.0 then 1.15 else 1.0) * (if words > 200 then 0.8 else 1.0) * SmartBase(f)
  {
  }

  /**
   * The smart score lies in [0, 100], and in fact never exceeds 29.325: the
   * clamp never binds, and the score is the weighted base times 1.15 for
   * hooks above 10 and times 0.8 for texts of more than 200 words.
   */
  lemma SmartScoreSpec(text: string)
    ensures 0.0 <= SmartScore(text) <= 100.0
    ensures SmartScore(text) <= SmartCeiling
    ensures SmartScore(text)
      == (if Factors(text).hooks > 10.0 then 1.15 else 1.0) * (if WordCount(text) > 200 then 0.8 else 1.0)
         * SmartBase(Factors(text))
  {
    FactorsInRanges(text);
    SmartFromBounds(Factors(text), WordCount(text));
  }

  // ---------------------------------------------------------------------------
  // filter_moments
  // ---------------------------------------------------------------------------

  /** The viral-worthy moments among the first 20, or the first 10 when there are none. */
  function TopPicks(pre: seq<Moment>, keep: Moment -> bool): seq<Moment>
  {
    var chosen := Select(Prefix(pre, 20), keep);
    if |chosen| > 0 then chosen else Prefix(pre, 10)
  }

  function ViralTest(): Moment -> bool
  {
    (m: Moment) => ViralWorthy(m)
  }

  function LocalFilter(candidates: seq<Moment>, transcript: seq<Segment>): seq<Moment>
  {
    if |candidates| == 0 then []
    else
      var pre := Kept(candidates, transcript, FilterLanguage(candidates));
      if |pre| == 0 then [] else TopPicks(pre, ViralTest())
  }

  method FilterMoments(candidates: seq<Moment>, transcript: seq<Segment>) returns (r: seq<Moment>)
    ensures r == LocalFilter(candidates, transcript)
  {
    if |candidates| == 0 {
      return [];
    }
    var preFiltered, _ := FilterMomentsAggressively(candidates, transcript);
    if |preFiltered| == 0 {
      return [];
    }
    var top := Prefix(preFiltered, 20);
    var filtered: seq<Moment> := [];
    for i := 0 to |top|
      invariant filtered == Select(top[..i], ViralTest())
    {
      var worthy := IsViralWorthyLocal(top[i]);
      SelectPrefix(top, i, ViralTest());
      if worthy {
        filtered := filtered + [top[i]];
      }
    }
    assert top[..|top|] == top;
    r := if |filtered| > 0 then filtered else Prefix(preFiltered, 10);
  }

  /**
   * For any test: empty in, empty out; otherwise the result is never empty.
   * When some of the first 20 pass, it is exactly those, in order;
   * otherwise it is the first 10 (or fewer).
   */
  lemma TopPicksSpec(pre: seq<Moment>, keep: Moment -> bool)
    ensures |pre| == 0 <==> TopPicks(pre, keep) == []
    ensures |TopPicks(pre, keep)| <= 20
    ensures forall m :: m in TopPicks(pre, keep) ==> m in Prefix(pre, 20)
    ensures (exists k :: 0 <= k < |Prefix(pre, 20)| && keep(pre[k])) ==>
      TopPicks(pre, keep) == Select(Prefix(pre, 20), keep)
    ensures (forall k :: 0 <= k < |Prefix(pre, 20)| ==> !keep(pre[k])) ==>
      TopPicks(pre, keep) == Prefix(pre, 10)
  {
    var top := Prefix(pre, 20);
    SelectMembers(top, keep);
    if exists k :: 0 <= k < |top| && keep(pre[k]) {
      var k :| 0 <= k < |top| && keep(pre[k]);
      assert top[k] == pre[k];
      assert pre[k] in Select(top, keep);
    }
    if forall k :: 0 <= k < |top| ==> !keep(pre[k]) {
      forall k | 0 <= k < |top| ensures !keep(top[k]) {
        assert top[k] == pre[k];
      }
      SelectNone(top, keep);
    }
    var r := TopPicks(pre, keep);
    forall m | m in r ensures m in top {
      if |Select(top, keep)| == 0 {
        assert Prefix(pre, 10) <= top;
      }
    }
  }

  /**
   * filter_moments: empty in, empty out. Otherwise every result moment is a
   * candidate that the aggressive filter kept (no rejection reason), taken
   * from the first 20 it kept and at most 20 of them; the result is exactly
   * the viral-worthy ones among those 20, in order, or the first 10 kept when
   * none of those is viral-worthy. The result is empty only when the
   * aggressive filter kept nothing.
   */
  lemma LocalFilterSpec(candidates: seq<Moment>, transcript: seq<Segment>)
    ensures |candidates| == 0 ==> LocalFilter(candidates, transcript) == []
    ensures |candidates| > 0 ==>
      var pre := Kept(candidates, transcript, FilterLanguage(candidates));
      var r := LocalFilter(candidates, transcript);
      (r == [] <==> pre == [])
      && |r| <= 20
      && (forall m :: m in r ==> m in Prefix(pre, 20))
      && (forall m :: m in r ==> m in candidates && Reasons(m, transcript, FilterLanguage(candidates)) == [])
      && ((exists k :: 0 <= k < |Prefix(pre, 20)| && ViralWorthy(pre[k])) ==> r == Select(Prefix(pre, 20), ViralTest()))
      && ((forall k :: 0 <= k < |Prefix(pre, 20)| ==> !ViralWorthy(pre[k])) ==> r == Prefix(pre, 10))
  {
    if |candidates| > 0 {
      var language := FilterLanguage(candidates);
      var pre := Kept(candidates, transcript, language);
      TopPicksSpec(pre, ViralTest());
      SelectMembers(candidates, NoReasons(ReasonsOf(transcript, language)));
      forall m | m in Prefix(pre, 20) ensures m in pre { }
    }
  }

  // ---------------------------------------------------------------------------
  // score_moments
  // ---------------------------------------------------------------------------

  /** _get_scoring_explanation: the five signals, tagged with the method name. */
  function ScoringExplanation(text: string): ScoringFactors
  {
    ScoringFactors(Factors(text), "local_smart_analysis")
  }

  /** The moment with `score`, `ai_method` and `scoring_factors` written. */
  function LocalScored(m: Moment): Moment
  {
    m.(score := Some(SmartScore(m.text)), aiMethod := Some("local_smart"), factors := Some(ScoringExplanation(m.text)))
  }

  function LocalScoreAll(): Moment -> Moment
  {
    (m: Moment) => LocalScored(m)
  }

  function ScoreMomentsResult(ms: seq<Moment>): seq<Moment>
  {
    var scored := MapAll(ms, LocalScoreAll());
    SortDescending(scored, Scorer.ScoreKeys(scored))
  }

  method ScoreMoments(moments: seq<Moment>) returns (ranked: seq<Moment>)
    ensures ranked == ScoreMomentsResult(moments)
  {
    var scored: seq<Moment> := [];
    for i := 0 to |moments|
      invariant scored == MapAll(moments[..i], LocalScoreAll())
    {
      var moment := moments[i];
      var f := CheckFactors(moment.text);
      var score := SmartFrom(f, WordCount(moment.text));
      var next := moment.(score := Some(score), aiMethod := Some("local_smart"), factors := Some(ScoringFactors(f, "local_smart_analysis")));
      assert next == LocalScoreAll()(moment);
      MapAllPrefix(moments, i, LocalScoreAll());
      scored := scored + [next];
    }
    assert moments[..|moments|] == moments;
    assert scored == MapAll(moments, LocalScoreAll());
    ranked := SortDescending(scored, Scorer.ScoreKeys(scored));
  }

  /** A scored moment differs from its input only in the three keys written, and its score lies in [0, 29.325]. */
  lemma LocalScoredCopy(m: Moment)
    ensures var c := LocalScored(m);
      c.score.Some? && 0.0 <= c.score.value <= SmartCeiling
      && c.aiMethod == Some("local_smart")
      && c.factors.Some? && c.factors.value.signals == Factors(m.text) && c.factors.value.methodTag == "local_smart_analysis"
      && c.(score := m.score, aiMethod := m.aiMethod, factors := m.factors) == m
  {
    SmartScoreSpec(m.text);
  }

  /**
   * score_moments returns the scored moments, each input exactly once
   * (position p[i] lands at i), with scores non-increasing and equal scores
   * in input order.
   */
  lemma ScoreMomentsSpec(ms: seq<Moment>)
    ensures var scored := MapAll(ms, LocalScoreAll());
      var p := StableOrder(Scorer.ScoreKeys(scored));
      var r := ScoreMomentsResult(ms);
      |r| == |ms| && IsPermutation(p, |ms|)
      && (forall i :: 0 <= i < |ms| ==> r[i] == LocalScored(ms[p[i]]))
      && (forall i :: 0 <= i < |ms| ==> r[i].score.Some? && 0.0 <= r[i].score.value <= SmartCeiling)
      && (forall i, j :: 0 <= i < j < |ms| ==> r[i].score.value >= r[j].score.value)
      && (forall i, j :: 0 <= i < j < |ms| && r[i].score.value == r[j].score.value ==> p[i] < p[j])
  {
    var scored := MapAll(ms, LocalScoreAll());
    var keys := Scorer.ScoreKeys(scored);
    SortDescendingSpec(scored, keys);
    MapAllAt(ms, LocalScoreAll());
    var p := StableOrder(keys);
    var r := ScoreMomentsResult(ms);
    forall i | 0 <= i < |ms|
      ensures r[i] == LocalScored(ms[p[i]])
      ensures r[i].score.Some? && 0.0 <= r[i].score.value <= SmartCeiling
      ensures r[i].score.value == keys[p[i]]
    {
      assert r[i] == scored[p[i]];
      LocalScoredCopy(ms[p[i]]);
    }
  }
}
