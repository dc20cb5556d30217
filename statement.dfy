/**
 * Statement strength (text_signals/statement_analyzer.py).
 *
 * Seven factors of the stripped text, each in [0, 10], are combined by fixed
 * weights that add up to one; a content type may add a bonus of at most one
 * point; the tier is cut from the unrounded score, and the reported score and
 * factors are rounded to two places.
 */
module StatementAnalyzer {
  import opened Wrappers
  import opened Strings
  import opened Numbers
  import opened Patterns
  import opened Selection
  import opened Sorting

  datatype Strength = Weak | Moderate | Strong | Excellent

  /** The enumeration's value: 1 for WEAK up to 4 for EXCELLENT. */
  function Level(s: Strength): nat
  {
    match s
    case Weak => 1
    case Moderate => 2
    case Strong => 3
    case Excellent => 4
  }

  datatype Factors = Factors(length: real, specificity: real, clarity: real, completeness: real,
                             actionable: real, engagement: real, readability: real)

  datatype Quality = Quality(strength: Strength, score: real, factors: Factors, recommendations: seq<string>)

  predicate Within(x: real, lo: real, hi: real) { lo <= x <= hi }

  predicate FactorsWithin(f: Factors)
  {
    Within(f.length, 0.0, 10.0) && Within(f.specificity, 0.0, 10.0) && Within(f.clarity, 0.0, 10.0)
    && Within(f.completeness, 0.0, 10.0) && Within(f.actionable, 0.0, 10.0)
    && Within(f.engagement, 0.0, 10.0) && Within(f.readability, 0.0, 10.0)
  }

  // ---------------------------------------------------------------------------
  // Factor 1: length
  // ---------------------------------------------------------------------------

  function LengthFactor(wc: nat): (r: real)
    ensures 0.0 <= r <= 10.0
  {
    if wc < 10 then Max(0.0, wc as real * 0.5)
    else if wc <= 60 then Min(10.0, wc as real / 5.0)
    else Max(5.0, 10.0 - (wc - 60) as real * 0.1)
  }

  /**
   * The length factor rises with the word count up to 9 words and again from
   * 10 to 50, is at its maximum 10 exactly from 50 to 60 words, falls after 60
   * but never below 5, and drops at 10 words (4.5 for nine words, 2.0 for ten).
   */
  lemma LengthFactorShape(a: nat, b: nat)
    ensures LengthFactor(a) == 10.0 <==> 50 <= a <= 60
    ensures a <= b < 10 || 10 <= a <= b <= 60 ==> LengthFactor(a) <= LengthFactor(b)
    ensures 60 <= a <= b ==> LengthFactor(b) <= LengthFactor(a)
    ensures a > 60 ==> LengthFactor(a) >= 5.0
    ensures LengthFactor(9) > LengthFactor(10)
  {
  }

  // ---------------------------------------------------------------------------
  // Factor 2: specificity
  // ---------------------------------------------------------------------------

  /** One match of re.findall(r'\d+') starts at i: a digit not preceded by a digit. */
  predicate NumberStartAt(s: string, i: nat)
  {
    i < |s| && IsDigit(s[i]) && (i == 0 || !IsDigit(s[i - 1]))
  }

  function NumberStarts(s: string): nat -> bool
  {
    (i: nat) => NumberStartAt(s, i)
  }

  /** len(re.findall(r'\d+', s)): the number of maximal digit runs. */
  function NumberCount(s: string): nat
  {
    CountWhere(|s|, NumberStarts(s))
  }

  /** Walking back from a digit reaches the start of its run. */
  lemma {:induction false} RunStartBefore(s: string, i: nat)
    requires i < |s| && IsDigit(s[i])
    ensures exists j :: 0 <= j <= i && NumberStartAt(s, j)
  {
    if i > 0 && IsDigit(s[i - 1]) {
      RunStartBefore(s, i - 1);
    } else {
      assert NumberStartAt(s, i);
    }
  }

  /** Some number is found exactly when the text holds a digit. */
  lemma NumberCountZero(s: string)
    ensures NumberCount(s) == 0 <==> !HasDigit(s)
  {
    CountWhereZero(|s|, NumberStarts(s));
    if HasDigit(s) {
      var i :| 0 <= i < |s| && IsDigit(s[i]);
      RunStartBefore(s, i);
      var j :| 0 <= j <= i && NumberStartAt(s, j);
      assert NumberStarts(s)(j);
    }
  }

  /** Length of the run of ASCII lower-case letters at the front of s. */
  function LowerRun(s: string): (n: nat)
    ensures n <= |s|
    ensures forall k :: 0 <= k < n ==> IsAsciiLower(s[k])
    ensures n < |s| ==> !IsAsciiLower(s[n])
  {
    if |s| == 0 || !IsAsciiLower(s[0]) then 0 else 1 + LowerRun(s[1..])
  }

  /**
   * One match of re.findall(r'\b[A-Z][a-z]+\b') starts at i: a capital at a
   * word boundary followed by lower-case letters up to the next boundary.
   */
  predicate ProperNounAt(s: string, i: nat)
  {
    i < |s| && IsBoundary(s, i) && IsAsciiUpper(s[i])
    && var n := LowerRun(s[i + 1..]); n > 0 && !WordCharAt(s, i + 1 + n)
  }

  function ProperNounCount(s: string): nat
  {
    CountWhere(|s|, (i: nat) => ProperNounAt(s, i))
  }

  function IsLongWord(): string -> bool
  {
    (w: string) => |w| >= 8
  }

  function ExampleIndicators(): seq<string>
  {
    ["for example", "such as", "like", "including", "e.g.", "i.e."]
  }

  /** The specificity points before the cap at 10. */
  function SpecificityRaw(clean: string): (r: real)
    ensures 0.0 <= r <= 10.0
  {
    Min(3.0, NumberCount(clean) as real) + Min(2.0, ProperNounCount(clean) as real * 0.5)
      + Min(2.0, |Select(Words(clean), IsLongWord())| as real * 0.3)
      + (if ContainsAny(Lower(clean), ExampleIndicators()) then 3.0 else 0.0)
  }

  /**
   * Specificity reaches 5 points only with at least two of: a number, a
   * proper noun, a long word, an example phrase; with an example phrase and
   * a number it is at least 4, and it is 0 when the text has none of them.
   */
  lemma SpecificityParts(clean: string)
    ensures NumberCount(clean) == 0 && ProperNounCount(clean) == 0
      && |Select(Words(clean), IsLongWord())| == 0 && !ContainsAny(Lower(clean), ExampleIndicators())
      ==> SpecificityRaw(clean) == 0.0
    ensures HasDigit(clean) && ContainsAny(Lower(clean), ExampleIndicators()) ==> SpecificityRaw(clean) >= 4.0
    ensures !HasDigit(clean) && !ContainsAny(Lower(clean), ExampleIndicators()) ==> SpecificityRaw(clean) <= 4.0
  {
    NumberCountZero(clean);
  }

  // ---------------------------------------------------------------------------
  // Factor 3: clarity
  // ---------------------------------------------------------------------------

  function VagueOpeners(): seq<string>
  {
    ["so", "and", "but", "like", "basically", "literally", "um", "uh", "you know", "i mean", "kind of", "sort of"]
  }

  function FillerWords(): seq<string>
  {
    ["actually", "really", "very", "just", "quite", "rather"]
  }

  /** sum(1 for word in filler_words if word in lower_text) */
  function FillerCount(lower: string): (n: nat)
    ensures n <= 6
  {
    |Select(FillerWords(), FoundIn(lower))|
  }

  predicate StartsVague(clean: string)
  {
    StartsWithAny(Lower(clean), VagueOpeners())
  }

  /** A long text with no comma in its first half. */
  predicate RunOn(clean: string)
  {
    WordCount(clean) > 40 && ',' !in Prefix(clean, |clean| / 2)
  }

  function FillerPenalty(lower: string): real
  {
    var n := FillerCount(lower);
    if n > 2 then Min(3.0, n as real * 0.5) else 0.0
  }

  function Clarity(clean: string): (r: real)
    ensures 0.0 <= r <= 10.0
  {
    Max(0.0, 10.0 - (if StartsVague(clean) then 4.0 else 0.0) - FillerPenalty(Lower(clean))
                   - (if RunOn(clean) then 2.0 else 0.0))
  }

  /**
   * The floor at 0 never binds: clarity is at least 1 whatever the text; it is
   * the full 10 exactly when none of the three penalties applies, and a vague
   * opener alone leaves at most 6.
   */
  lemma ClarityFacts(clean: string)
    ensures Clarity(clean) >= 1.0
    ensures Clarity(clean) == 10.0 <==> !StartsVague(clean) && FillerCount(Lower(clean)) <= 2 && !RunOn(clean)
    ensures StartsVague(clean) ==> Clarity(clean) <= 6.0
  {
  }

  // ---------------------------------------------------------------------------
  // Factor 4: completeness
  // ---------------------------------------------------------------------------

  /** text.rstrip().endswith(('.', '!', '?', ':', ';')) */
  predicate EndsProperly(clean: string)
  {
    var t := RStrip(clean);
    |t| > 0 && t[|t| - 1] in ".!?:;"
  }

  function TrailingMarkers(): seq<string>
  {
    ["...", "etc", "and so on", "or whatever", "or something"]
  }

  /** A trailing marker within the last 20 characters of the lowered text. */
  predicate TrailsOff(clean: string)
  {
    ContainsAny(TakeLast(Lower(clean), 20), TrailingMarkers())
  }

  function CommonVerbs(): seq<string>
  {
    ["is", "are", "was", "were", "has", "have", "had", "do", "does", "did", "can", "could", "will", "would"]
  }

  /** A common verb strictly between the first and the last word, in a text of three or more words. */
  predicate SubjectVerb(text: string)
  {
    var words := Words(Lower(text));
    |words| >= 3 && exists i :: 0 < i < |words| - 1 && words[i] in CommonVerbs()
  }

  /** _has_subject_verb_structure */
  method HasSubjectVerbStructure(text: string) returns (found: bool)
    ensures found == SubjectVerb(text)
  {
    var words := Words(Lower(text));
    if |words| < 3 {
      return false;
    }
    for i := 0 to |words|
      invariant forall k :: 0 < k < i && k < |words| - 1 ==> words[k] !in CommonVerbs()
    {
      if words[i] in CommonVerbs() && i > 0 && i < |words| - 1 {
        return true;
      }
    }
    return false;
  }

  function Completeness(clean: string): (r: real)
    ensures 0.0 <= r <= 10.0
  {
    Min(10.0, (if EndsProperly(clean) then 5.0 else 0.0) + (if !TrailsOff(clean) then 3.0 else 0.0)
              + (if SubjectVerb(clean) then 2.0 else 0.0))
  }

  /**
   * Completeness is 5 points for the closing punctuation, 3 for not trailing
   * off and 2 for a subject-verb structure: a properly ended text has at
   * least 5, more than 5 needs the proper ending, and 10 needs all three.
   */
  lemma CompletenessParts(clean: string)
    ensures EndsProperly(clean) ==> Completeness(clean) >= 5.0
    ensures Completeness(clean) > 5.0 ==> EndsProperly(clean)
    ensures Completeness(clean) == 10.0 <==> EndsProperly(clean) && !TrailsOff(clean) && SubjectVerb(clean)
    ensures Completeness(clean) in {0.0, 2.0, 3.0, 5.0, 7.0, 8.0, 10.0}
  {
  }

  // ---------------------------------------------------------------------------
  // Factor 5: actionability
  // ---------------------------------------------------------------------------

  function ActionVerbs(): seq<string>
  {
    ["do", "make", "create", "build", "learn", "understand", "discover", "show", "try", "find", "change",
     "improve", "develop", "achieve", "implement", "solve", "apply"]
  }

  function InstructionalWords(): seq<string>
  {
    ["how to", "step", "method", "way", "technique", "approach"]
  }

  function OutcomeWords(): seq<string>
  {
    ["result", "outcome", "benefit", "advantage", "impact", "effect"]
  }

  /** The actionability points before the cap at 10. */
  function ActionableRaw(lower: string): (r: real)
    ensures 0.0 <= r <= 10.0
  {
    Min(4.0, |Select(ActionVerbs(), FoundIn(lower))| as real)
      + (if ContainsAny(lower, InstructionalWords()) then 3.0 else 0.0)
      + (if ContainsAny(lower, OutcomeWords()) then 3.0 else 0.0)
  }

  /** Action verbs alone give at most 4 points; 10 needs instructional and outcome words too. */
  lemma ActionableParts(lower: string)
    ensures !ContainsAny(lower, InstructionalWords()) && !ContainsAny(lower, OutcomeWords()) ==> ActionableRaw(lower) <= 4.0
    ensures ActionableRaw(lower) == 10.0 <==>
      |Select(ActionVerbs(), FoundIn(lower))| >= 4 && ContainsAny(lower, InstructionalWords()) && ContainsAny(lower, OutcomeWords())
  {
  }

  // ---------------------------------------------------------------------------
  // Factor 6: engagement
  // ---------------------------------------------------------------------------

  function EmotionalWords(): seq<string>
  {
    ["amazing", "incredible", "powerful", "important", "critical", "essential", "surprising", "interesting",
     "fascinating"]
  }

  function PersonalPronouns(): seq<string>
  {
    ["you", "we", "us", "your", "our"]
  }

  /** len(set(words)) / max(1, word_count) */
  function VocabularyRatio(words: seq<string>): (r: real)
    ensures 0.0 <= r <= 1.0
  {
    var unique := set w | w in words;
    UniqueBound(words);
    |unique| as real / Max(1.0, |words| as real)
  }

  lemma {:induction false} UniqueBound(words: seq<string>)
    ensures |set w | w in words| <= |words|
  {
    if |words| > 0 {
      var init := words[..|words| - 1];
      UniqueBound(init);
      assert (set w | w in words) == (set w | w in init) + {words[|words| - 1]};
    }
  }

  function Engagement(clean: string): (r: real)
    ensures 0.0 <= r <= 10.0
  {
    var lower := Lower(clean);
    Min(10.0, Min(3.0, VocabularyRatio(Words(clean)) * 5.0)
              + (if ContainsAny(lower, EmotionalWords()) then 2.0 else 0.0)
              + (if '?' in clean then 2.0 else 0.0)
              + (if ContainsAny(lower, PersonalPronouns()) then 3.0 else 0.0))
  }

  // ---------------------------------------------------------------------------
  // Factor 7: readability
  // ---------------------------------------------------------------------------

  function TotalLength(words: seq<string>): nat
  {
    if |words| == 0 then 0 else TotalLength(words[..|words| - 1]) + |words[|words| - 1]|
  }

  predicate LongWordsOnAverage(words: seq<string>)
  {
    TotalLength(words) as real / Max(1.0, |words| as real) > 6.5
  }

  /** sum(text.count(m) for m in [',', ';', ':', '—', '–']) */
  function ClauseCount(clean: string): nat
  {
    CountChar(clean, ',') + CountChar(clean, ';') + CountChar(clean, ':') + CountChar(clean, '—')
      + CountChar(clean, '–')
  }

  /** More than one clause marker per ten words. */
  predicate Complex(clean: string)
  {
    ClauseCount(clean) as real > WordCount(clean) as real / 10.0
  }

  function Readability(clean: string): (r: real)
    ensures 6.0 <= r <= 10.0
  {
    Max(0.0, 10.0 - (if LongWordsOnAverage(Words(clean)) then 2.0 else 0.0) - (if Complex(clean) then 2.0 else 0.0))
  }

  /** Text without any clause marker is never penalised for its structure. */
  lemma NoMarkersNotComplex(clean: string)
    requires forall c :: c in clean ==> c !in ",;:—–"
    ensures !Complex(clean)
  {
    assert ',' !in clean && ';' !in clean && ':' !in clean && '—' !in clean && '–' !in clean;
  }

  // ---------------------------------------------------------------------------
  // Combination
  // ---------------------------------------------------------------------------

  function RawFactors(clean: string): (f: Factors)
    ensures FactorsWithin(f)
  {
    Factors(LengthFactor(WordCount(clean)), Min(10.0, SpecificityRaw(clean)), Clarity(clean), Completeness(clean),
            Min(10.0, ActionableRaw(Lower(clean))), Engagement(clean), Readability(clean))
  }

  /** sum(factors[k] * weights[k]) */
  function WeightedScore(f: Factors): real
  {
    0.10 * f.length + 0.20 * f.specificity + 0.25 * f.clarity + 0.15 * f.completeness
      + 0.15 * f.actionable + 0.10 * f.engagement + 0.05 * f.readability
  }

  /** The weights add up to one, so the weighted score stays in the factors' range. */
  lemma WeightedWithin(f: Factors)
    requires FactorsWithin(f)
    ensures 0.0 <= WeightedScore(f) <= 10.0
    ensures f == Factors(10.0, 10.0, 10.0, 10.0, 10.0, 10.0, 10.0) ==> WeightedScore(f) == 10.0
  {
  }

  /** context.get('type', 'general') */
  function ContentType(context: map<string, string>): string
  {
    if "type" in context then context["type"] else "general"
  }

  /** _apply_contextual_adjustments */
  function ContextAdjustment(f: Factors, context: map<string, string>): (r: real)
    ensures 0.0 <= r <= 1.0
  {
    var kind := ContentType(context);
    if kind == "educational" then
      (if f.clarity >= 8.0 then 0.5 else 0.0) + (if f.actionable >= 7.0 then 0.5 else 0.0)
    else if kind == "entertainment" then
      (if f.engagement >= 8.0 then 0.5 else 0.0)
    else if kind == "marketing" then
      (if f.specificity >= 7.0 then 0.3 else 0.0) + (if f.actionable >= 8.0 then 0.7 else 0.0)
    else 0.0
  }

  /**
   * Only the educational, entertainment and marketing types earn a bonus; the
   * full point goes to educational text that is clear and actionable and to
   * marketing text that is specific and strongly actionable, entertainment
   * earns at most half a point, and stronger factors never earn less.
   */
  lemma ContextAdjustmentFacts(f: Factors, g: Factors, context: map<string, string>)
    ensures ContextAdjustment(f, context) > 0.0 ==> ContentType(context) in {"educational", "entertainment", "marketing"}
    ensures ContextAdjustment(f, context) == 1.0 <==>
      (ContentType(context) == "educational" && f.clarity >= 8.0 && f.actionable >= 7.0)
      || (ContentType(context) == "marketing" && f.specificity >= 7.0 && f.actionable >= 8.0)
    ensures ContentType(context) == "entertainment" ==> ContextAdjustment(f, context) <= 0.5
    ensures (f.clarity <= g.clarity && f.actionable <= g.actionable && f.engagement <= g.engagement
             && f.specificity <= g.specificity) ==> ContextAdjustment(f, context) <= ContextAdjustment(g, context)
  {
  }

  /** The score before rounding; an empty context (or none) adds nothing. */
  function Overall(clean: string, context: map<string, string>): real
  {
    var f := RawFactors(clean);
    WeightedScore(f) + (if |context| > 0 then ContextAdjustment(f, context) else 0.0)
  }

  function Tier(score: real): Strength
  {
    if score >= 8.5 then Excellent
    else if score >= 7.0 then Strong
    else if score >= 4.5 then Moderate
    else Weak
  }

  /** A higher score never gets a lower tier, and each tier starts at its cut-off. */
  lemma TierMonotone(a: real, b: real)
    requires a <= b
    ensures Level(Tier(a)) <= Level(Tier(b))
    ensures Tier(a) == Excellent <==> a >= 8.5
    ensures Tier(a) == Weak <==> a < 4.5
  {
  }

  // The fixed messages of the recommendations and suggestions.
  const TooShort: string := "Statement too short - add more detail"
  const TooLong: string := "Statement too long - consider splitting"
  const AddSpecifics: string := "Add specific examples, numbers, or concrete details"
  const AvoidVagueOpeners: string := "Avoid vague opening words"
  const ReduceFillers: string := "Reduce filler words for clarity"
  const BreakUpSentences: string := "Break up long sentences with punctuation"
  const AddPunctuation: string := "Complete the statement with proper punctuation"
  const AvoidTrailing: string := "Avoid trailing off at the end"
  const AddActionable: string := "Add actionable information or practical value"
  const SimplerWords: string := "Use simpler words for better readability"
  const SimplerStructure: string := "Simplify sentence structure"
  const SpecificityTip: string := "Add specific examples, statistics, or concrete details"
  const EngagementTip: string := "Use more engaging language and conversational tone"
  const ActionableTip: string := "Include actionable insights or practical applications"
  const AlreadyMet: string := "Statement already meets target quality!"

  function Tip(condition: bool, message: string): seq<string>
  {
    if condition then [message] else []
  }

  /** Every recommendation the factors produce, in the order they are produced. */
  function AllRecommendations(clean: string): seq<string>
  {
    var wc := WordCount(clean);
    var lower := Lower(clean);
    Tip(wc < 10, TooShort)
    + Tip(wc > 60, TooLong)
    + Tip(SpecificityRaw(clean) < 5.0, AddSpecifics)
    + Tip(StartsVague(clean), AvoidVagueOpeners)
    + Tip(FillerCount(lower) > 2, ReduceFillers)
    + Tip(RunOn(clean), BreakUpSentences)
    + Tip(!EndsProperly(clean), AddPunctuation)
    + Tip(TrailsOff(clean), AvoidTrailing)
    + Tip(ActionableRaw(lower) < 4.0, AddActionable)
    + Tip(LongWordsOnAverage(Words(clean)), SimplerWords)
    + Tip(Complex(clean), SimplerStructure)
  }

  function RoundFactors(f: Factors): Factors
  {
    Factors(RoundTo(f.length, 100.0), RoundTo(f.specificity, 100.0), RoundTo(f.clarity, 100.0),
            RoundTo(f.completeness, 100.0), RoundTo(f.actionable, 100.0), RoundTo(f.engagement, 100.0),
            RoundTo(f.readability, 100.0))
  }

  /** The reported quality: tier of the unrounded score, rounded score and factors, top three recommendations. */
  function QualityOf(overall: real, f: Factors, recommendations: seq<string>): Quality
  {
    Quality(Tier(overall), RoundTo(overall, 100.0), RoundFactors(f), Prefix(recommendations, 3))
  }

  /** analyze_statement_strength; an absent context is the empty map. */
  function AnalyzeStatementStrength(text: string, context: map<string, string>): Quality
  {
    var clean := Strip(text);
    QualityOf(Overall(clean, context), RawFactors(clean), AllRecommendations(clean))
  }

  lemma RoundFactorsWithin(f: Factors)
    requires FactorsWithin(f)
    ensures FactorsWithin(RoundFactors(f))
  {
    RoundWithin(f.length, 0.0, 10.0, 100.0);
    RoundWithin(f.specificity, 0.0, 10.0, 100.0);
    RoundWithin(f.clarity, 0.0, 10.0, 100.0);
    RoundWithin(f.completeness, 0.0, 10.0, 100.0);
    RoundWithin(f.actionable, 0.0, 10.0, 100.0);
    RoundWithin(f.engagement, 0.0, 10.0, 100.0);
    RoundWithin(f.readability, 0.0, 10.0, 100.0);
  }

  lemma QualityOfFacts(overall: real, f: Factors, recommendations: seq<string>, hi: real)
    requires FactorsWithin(f) && 0.0 <= overall <= hi && hi == hi.Floor as real
    ensures var q := QualityOf(overall, f, recommendations);
      0.0 <= q.score <= hi && -0.005 <= q.score - overall <= 0.005 && q.strength == Tier(overall)
      && FactorsWithin(q.factors) && |q.recommendations| <= 3 && q.recommendations <= recommendations
  {
    RoundWithin(overall, 0.0, hi, 100.0);
    RoundClose(overall, 100.0);
    RoundFactorsWithin(f);
  }

  /** The unrounded score lies in [0, 10] without a context and in [0, 11] with one. */
  lemma OverallWithin(clean: string, context: map<string, string>)
    ensures 0.0 <= Overall(clean, context) <= 11.0
    ensures |context| == 0 ==> Overall(clean, context) <= 10.0
  {
    WeightedWithin(RawFactors(clean));
  }

  /**
   * What an analysis promises: the score lies in [0, 10] without a context and
   * in [0, 11] with one, within half a hundredth of the unrounded score whose
   * tier is reported; the rounded factors lie in [0, 10]; and the
   * recommendations are the first three generated, in order.
   */
  lemma AnalyzeFacts(text: string, context: map<string, string>)
    ensures var q := AnalyzeStatementStrength(text, context);
      var overall := Overall(Strip(text), context);
      0.0 <= q.score <= 11.0
      && (|context| == 0 ==> q.score <= 10.0)
      && -0.005 <= q.score - overall <= 0.005
      && q.strength == Tier(overall)
      && FactorsWithin(q.factors)
      && |q.recommendations| <= 3 && q.recommendations <= AllRecommendations(Strip(text))
  {
    var clean := Strip(text);
    OverallWithin(clean, context);
    QualityOfFacts(Overall(clean, context), RawFactors(clean), AllRecommendations(clean),
                   if |context| == 0 then 10.0 else 11.0);
  }

  // ---------------------------------------------------------------------------
  // compare_statements
  // ---------------------------------------------------------------------------

  function AnalyzePlain(): string -> Quality
  {
    (t: string) => AnalyzeStatementStrength(t, map[])
  }

  function ScoreOf(q: Quality): real { q.score }

  /** The analyses in input order. */
  function Analyses(statements: seq<string>): seq<Quality>
  {
    MapAll(statements, AnalyzePlain())
  }

  /** Entry i of the analyses is the analysis of statement i. */
  lemma AnalysesAt(statements: seq<string>, i: nat)
    requires i < |statements|
    ensures |Analyses(statements)| == |statements|
    ensures Analyses(statements)[i] == AnalyzeStatementStrength(statements[i], map[])
  {
    MapAllAt(statements, AnalyzePlain());
  }

  /** compare_statements: every statement analyzed, sorted by score, highest first. */
  function Compared(statements: seq<string>): seq<Quality>
  {
    var analyses := Analyses(statements);
    SortDescending(analyses, MapAll(analyses, ScoreOf))
  }

  method CompareStatements(statements: seq<string>) returns (analyses: seq<Quality>)
    ensures analyses == Compared(statements)
  {
    analyses := CompareWith(statements, AnalyzePlain());
  }

  method CompareWith(statements: seq<string>, analyze: string -> Quality) returns (analyses: seq<Quality>)
    ensures var qs := MapAll(statements, analyze); analyses == SortDescending(qs, MapAll(qs, ScoreOf))
  {
    analyses := [];
    for i := 0 to |statements|
      invariant analyses == MapAll(statements[..i], analyze)
    {
      var quality := analyze(statements[i]);
      MapAllPrefix(statements, i, analyze);
      analyses := analyses + [quality];
    }
    assert statements[..|statements|] == statements;
    analyses := SortDescending(analyses, MapAll(analyses, ScoreOf));
  }

  /**
   * One analysis per statement (see AnalysesAt), reordered by a permutation
   * so that scores never increase, and statements of equal score keep their
   * input order.
   */
  lemma ComparedFacts(statements: seq<string>)
    ensures var r := Compared(statements);
      |r| == |statements|
      && (forall i, j :: 0 <= i < j < |r| ==> r[i].score >= r[j].score)
      && exists p: seq<nat> :: IsPermutation(p, |statements|)
           && (forall i :: 0 <= i < |r| ==> r[i] == Analyses(statements)[p[i]])
           && (forall i, j :: 0 <= i < j < |r| && r[i].score == r[j].score ==> p[i] < p[j])
  {
    var p := SortedByScore(Analyses(statements));
  }

  /** Sorting analyses by score: a stable permutation with scores not increasing. */
  lemma SortedByScore(qs: seq<Quality>) returns (p: seq<nat>)
    ensures var r := SortDescending(qs, MapAll(qs, ScoreOf));
      |r| == |qs| && IsPermutation(p, |qs|)
      && (forall i :: 0 <= i < |r| ==> r[i] == qs[p[i]])
      && (forall i, j :: 0 <= i < j < |r| ==> r[i].score >= r[j].score)
      && (forall i, j :: 0 <= i < j < |r| && r[i].score == r[j].score ==> p[i] < p[j])
  {
    var keys := MapAll(qs, ScoreOf);
    SortDescendingSpec(qs, keys);
    MapAllAt(qs, ScoreOf);
    p := StableOrder(keys);
  }

  // ---------------------------------------------------------------------------
  // get_improvement_suggestions
  // ---------------------------------------------------------------------------

  /** The keys of the factors dictionary. */
  datatype FactorName = LengthKey | SpecificityKey | ClarityKey | CompletenessKey | ActionableKey | EngagementKey | ReadabilityKey

  function KeyName(n: FactorName): string
  {
    match n
    case LengthKey => "length"
    case SpecificityKey => "specificity"
    case ClarityKey => "clarity"
    case CompletenessKey => "completeness"
    case ActionableKey => "actionable"
    case EngagementKey => "engagement"
    case ReadabilityKey => "readability"
  }

  /** The rounded factors as the dictionary lists them, in insertion order. */
  function FactorList(f: Factors): seq<(FactorName, real)>
  {
    [(LengthKey, f.length), (SpecificityKey, f.specificity), (ClarityKey, f.clarity),
     (CompletenessKey, f.completeness), (ActionableKey, f.actionable), (EngagementKey, f.engagement),
     (ReadabilityKey, f.readability)]
  }

  function IsWeak(): ((FactorName, real)) -> bool
  {
    (p: (FactorName, real)) => p.1 < 6.0
  }

  function Negated(p: (FactorName, real)): real { -p.1 }

  /** sorted(weak_factors.items(), key=lambda x: x[1]): ascending, ties in dictionary order. */
  function WeakByValue(f: Factors): seq<(FactorName, real)>
  {
    var weak := Select(FactorList(f), IsWeak());
    SortDescending(weak, MapAll(weak, Negated))
  }

  /** The suggestion a weak factor adds, if any. */
  function FactorTip(p: (FactorName, real)): seq<string>
  {
    if p.1 >= 6.0 then []
    else match p.0
      case SpecificityKey => [SpecificityTip]
      case EngagementKey => [EngagementTip]
      case ActionableKey => [ActionableTip]
      case _ => []
  }

  function FactorTips(ps: seq<(FactorName, real)>): seq<string>
  {
    if |ps| == 0 then [] else FactorTips(ps[..|ps| - 1]) + FactorTip(ps[|ps| - 1])
  }

  /** The suggestions for an analysis: recommendations, then factor tips, at most five. */
  function SuggestionsOf(quality: Quality, target: real): seq<string>
  {
    if quality.score >= target then [AlreadyMet]
    else Prefix(quality.recommendations + FactorTips(WeakByValue(quality.factors)), 5)
  }

  function Suggestions(text: string, target: real): seq<string>
  {
    SuggestionsOf(AnalyzeStatementStrength(text, map[]), target)
  }

  method GetImprovementSuggestions(text: string, target: real) returns (suggestions: seq<string>)
    ensures suggestions == Suggestions(text, target)
  {
    var quality := AnalyzeStatementStrength(text, map[]);
    suggestions := SuggestFor(quality, target);
  }

  method SuggestFor(quality: Quality, target: real) returns (suggestions: seq<string>)
    ensures suggestions == SuggestionsOf(quality, target)
  {
    if quality.score >= target {
      return [AlreadyMet];
    }
    suggestions := AddTips(quality.recommendations, WeakByValue(quality.factors));
    suggestions := Prefix(suggestions, 5);
  }

  /** The loop over the sorted weak factors, appending each one's suggestion. */
  method AddTips(recommendations: seq<string>, weak: seq<(FactorName, real)>) returns (suggestions: seq<string>)
    ensures suggestions == recommendations + FactorTips(weak)
  {
    suggestions := recommendations;
    for k := 0 to |weak|
      invariant suggestions == recommendations + FactorTips(weak[..k])
    {
      FactorTipsPrefix(weak, k);
      suggestions := suggestions + FactorTip(weak[k]);
    }
    assert weak[..|weak|] == weak;
  }

  lemma FactorTipsPrefix(ps: seq<(FactorName, real)>, k: nat)
    requires k < |ps|
    ensures FactorTips(ps[..k + 1]) == FactorTips(ps[..k]) + FactorTip(ps[k])
  {
    assert ps[..k + 1][..k] == ps[..k];
  }

  /** Every tip is one of the three factor suggestions. */
  lemma {:induction false} FactorTipsKnown(ps: seq<(FactorName, real)>)
    ensures forall s :: s in FactorTips(ps) ==>
      s in [SpecificityTip,
            EngagementTip,
            ActionableTip]
  {
    if |ps| > 0 {
      FactorTipsKnown(ps[..|ps| - 1]);
    }
  }

  /** The weak factors come out in ascending order of value, each below 6. */
  lemma WeakByValueOrdered(f: Factors)
    ensures var w := WeakByValue(f);
      (forall i :: 0 <= i < |w| ==> w[i].1 < 6.0 && w[i] in FactorList(f))
      && (forall i, j :: 0 <= i < j < |w| ==> w[i].1 <= w[j].1)
  {
    var weak := Select(FactorList(f), IsWeak());
    var keys := MapAll(weak, Negated);
    SortDescendingSpec(weak, keys);
    MapAllAt(weak, Negated);
    var p := StableOrder(keys);
    var w := WeakByValue(f);
    forall i | 0 <= i < |w| ensures w[i].1 < 6.0 && w[i] in FactorList(f) && keys[p[i]] == -w[i].1 {
      assert w[i] == weak[p[i]];
      assert weak[p[i]] in weak;
    }
  }

  /**
   * At most five suggestions; the single "already meets" message exactly
   * when the score reaches the target; otherwise all the analysis's
   * recommendations first, followed only by factor suggestions.
   */
  lemma SuggestionsFacts(text: string, target: real)
    ensures var s := Suggestions(text, target);
      var q := AnalyzeStatementStrength(text, map[]);
      |s| <= 5
      && (q.score >= target ==> s == [AlreadyMet])
      && (q.score < target ==>
            q.recommendations <= s
            && forall i :: |q.recommendations| <= i < |s| ==> s[i] in FactorTips(WeakByValue(q.factors)))
  {
    AnalyzeFacts(text, map[]);
    SuggestionsOfFacts(AnalyzeStatementStrength(text, map[]), target);
  }

  lemma SuggestionsOfFacts(q: Quality, target: real)
    requires |q.recommendations| <= 3
    ensures var s := SuggestionsOf(q, target);
      |s| <= 5
      && (q.score >= target ==> s == [AlreadyMet])
      && (q.score < target ==>
            q.recommendations <= s
            && forall i :: |q.recommendations| <= i < |s| ==> s[i] in FactorTips(WeakByValue(q.factors)))
  {
    if q.score < target {
      var tips := FactorTips(WeakByValue(q.factors));
      var all := q.recommendations + tips;
      var s := Prefix(all, 5);
      assert s == all[..|s|];
      forall i | |q.recommendations| <= i < |s| ensures s[i] in tips {
        assert s[i] == tips[i - |q.recommendations|];
      }
    }
  }
}
