/**
 * Hook detection on the opening seconds of a moment
 * (text_signals/hook_detector.py).
 *
 * Up to six detector families each contribute at most one weighted signal;
 * a vague opening scales every signal by 0.8; the signal with the largest
 * strength * confidence (the first such) is the verdict.
 */
module HookDetector {
  import opened Wrappers
  import opened Strings
  import opened Patterns
  import opened Selection
  import opened Transcript
  import opened Tally
  import opened Numbers

  datatype HookType = Question | Surprising | Data | Cta | Emotional | Urgency | NoHook
  {
    /** The hook_type string. */
    function Name(): string
    {
      match this
      case Question => "question"
      case Surprising => "surprising"
      case Data => "data"
      case Cta => "cta"
      case Emotional => "emotional"
      case Urgency => "urgency"
      case NoHook => "none"
    }
  }

  /** Every hook_type string the detector can produce. */
  function HookTypeNames(): seq<string>
  {
    ["question", "surprising", "data", "cta", "emotional", "urgency", "none"]
  }

  /** Every type's name is listed, and the listed names are distinct. */
  lemma HookTypeNamesFacts(t: HookType)
    ensures t.Name() in HookTypeNames()
    ensures Distinct(HookTypeNames())
  {
  }

  datatype HookSignal = HookSignal(hookType: HookType, strength: real, text: string, confidence: real, reasons: seq<string>)

  /** The key of max(): strength times confidence. */
  function Key(s: HookSignal): real { s.strength * s.confidence }

  // The fixed texts of the reasons attached to signals.
  const QuestionMarkReason: string := "Question mark detected"
  const QuestionWordReason: string := "Question word at start"
  const SurprisingLabel: string := "Surprising word"
  const NumericLabel: string := "Numeric pattern: "
  const CtaLabel: string := "CTA phrase"
  const EmotionalLabel: string := "Emotional trigger"
  const UrgencyReason: string := "Urgency/scarcity language"
  const PenaltyReason: string := "Penalty: vague start"
  const NoTextReason: string := "No text in opening 3 seconds"
  const NoPatternReason: string := "No hook patterns detected"
  const EducationalReason: string := "Educational content + question hook"
  const EntertainmentReason: string := "Entertainment requires stronger hook"

  // ---------------------------------------------------------------------------
  // Opening text
  // ---------------------------------------------------------------------------

  /** The text accumulated as opening_text += ' ' + text, segment by segment. */
  function SpacedConcat(texts: seq<string>): string
  {
    if |texts| == 0 then "" else SpacedConcat(texts[..|texts| - 1]) + " " + texts[|texts| - 1]
  }

  /** moment_end, defaulting to three seconds after the start. */
  function WindowEnd(start: real, end: Option<real>): real
  {
    if end.None? then start + 3.0 else end.value
  }

  function OpeningText(transcript: seq<Segment>, start: real, end: real): string
  {
    Strip(SpacedConcat(WindowTexts(transcript, InsideOrOverlapping, start, end)))
  }

  method CollectOpeningText(transcript: seq<Segment>, start: real, end: real) returns (text: string)
    ensures text == OpeningText(transcript, start, end)
  {
    var opening := "";
    for k := 0 to |transcript|
      invariant opening == SpacedConcat(WindowTexts(transcript[..k], InsideOrOverlapping, start, end))
    {
      var segment := transcript[k];
      ghost var texts := WindowTexts(transcript[..k], InsideOrOverlapping, start, end);
      WindowTextsSnoc(transcript[..k], segment, InsideOrOverlapping, start, end);
      assert transcript[..k + 1] == transcript[..k] + [segment];
      SpacedConcatSnoc(texts, segment.text);
      if segment.start >= start && segment.end <= end {
        opening := opening + " " + segment.text;
      } else if segment.start < end && segment.end > start {
        opening := opening + " " + segment.text;
      } else {
        assert texts + [] == texts;
      }
    }
    assert transcript[..|transcript|] == transcript;
    text := Strip(opening);
  }

  lemma SpacedConcatSnoc(texts: seq<string>, t: string)
    ensures SpacedConcat(texts + [t]) == SpacedConcat(texts) + " " + t
  {
    assert (texts + [t])[..|texts|] == texts;
  }

  /** The accumulated text is the texts joined by single spaces, behind one leading space. */
  lemma {:induction false} SpacedConcatJoin(texts: seq<string>)
    ensures SpacedConcat(texts) == if |texts| == 0 then "" else " " + Join(" ", texts)
  {
    if |texts| > 0 {
      var init := texts[..|texts| - 1];
      var last := texts[|texts| - 1];
      SpacedConcatJoin(init);
      JoinSnoc(" ", init, last);
      assert init + [last] == texts;
      assert SpacedConcat(texts) == SpacedConcat(init) + " " + last;
      if |init| == 0 {
        assert Join(" ", texts) == last;
      } else {
        assert Join(" ", texts) == Join(" ", init) + " " + last;
      }
    }
  }

  /** The opening text is the window's texts joined by spaces and stripped. */
  lemma OpeningTextIsJoined(transcript: seq<Segment>, start: real, end: real)
    ensures OpeningText(transcript, start, end) == JoinedText(WindowTexts(transcript, InsideOrOverlapping, start, end))
  {
    var texts := WindowTexts(transcript, InsideOrOverlapping, start, end);
    SpacedConcatJoin(texts);
    if |texts| > 0 {
      var j := Join(" ", texts);
      assert (" " + j)[1..] == j;
      assert LStrip(" " + j) == LStrip(j);
    }
  }

  // ---------------------------------------------------------------------------
  // Detector families
  // ---------------------------------------------------------------------------

  function QuestionWords(): seq<string>
  {
    ["what", "why", "how", "when", "where", "who", "which",
     "can", "could", "would", "should", "will", "did", "does",
     "is", "are", "was", "were"]
  }

  predicate HasQuestionMark(text: string) { '?' in text || '？' in text || '¿' in text }

  function QuestionSignal(text: string): (r: Option<HookSignal>)
    ensures r.Some? ==> (r.value.hookType == Question && r.value.strength == 10.0
                         && r.value.confidence == (if HasQuestionMark(text) then 1.0 else 0.85))
    ensures r.Some? <==> HasQuestionMark(text) || StartsWithAny(Lower(text), QuestionWords())
  {
    var hasQuestion := HasQuestionMark(text);
    if hasQuestion || StartsWithAny(Lower(text), QuestionWords()) then
      Some(HookSignal(Question, 10.0, Prefix(text, 80), if hasQuestion then 1.0 else 0.85,
                      [if hasQuestion then QuestionMarkReason else QuestionWordReason]))
    else None
  }

  /** A list of words worth the same strength, tried in order. */
  datatype Tier = Tier(strength: real, words: seq<string>)

  /** The tier strength and the word that fired. */
  datatype Hit = Hit(strength: real, word: string)

  /** The first word of the list that occurs in s. */
  function FirstFound(words: seq<string>, s: string): (r: Option<string>)
    ensures r.Some? ==> r.value in words && Contains(s, r.value)
  {
    if |words| == 0 then None
    else if Contains(s, words[0]) then Some(words[0])
    else FirstFound(words[1..], s)
  }

  /** No word is found exactly when none of the words occurs. */
  lemma {:induction false} FirstFoundNone(words: seq<string>, s: string)
    ensures FirstFound(words, s).None? <==> forall k :: 0 <= k < |words| ==> !Contains(s, words[k])
  {
    if |words| > 0 {
      FirstFoundNone(words[1..], s);
      assert forall k :: 1 <= k < |words| ==> words[1..][k - 1] == words[k];
    }
  }

  /** The first tier with a word in s, and its first such word. */
  function FirstTierHit(tiers: seq<Tier>, s: string): (r: Option<Hit>)
    ensures r.Some? ==> Contains(s, r.value.word)
  {
    if |tiers| == 0 then None
    else
      match FirstFound(tiers[0].words, s)
      case Some(w) => Some(Hit(tiers[0].strength, w))
      case None => FirstTierHit(tiers[1..], s)
  }

  /** A hit comes from some tier, with that tier's strength and one of its words; there is none exactly when no tier has a word in s. */
  lemma {:induction false} FirstTierHitSpec(tiers: seq<Tier>, s: string)
    ensures var r := FirstTierHit(tiers, s);
      r.Some? ==> exists k :: 0 <= k < |tiers| && tiers[k].strength == r.value.strength && r.value.word in tiers[k].words
    ensures FirstTierHit(tiers, s).None? <==> forall k :: 0 <= k < |tiers| ==> FirstFound(tiers[k].words, s).None?
  {
    if |tiers| > 0 {
      FirstTierHitSpec(tiers[1..], s);
      assert forall k :: 1 <= k < |tiers| ==> tiers[1..][k - 1] == tiers[k];
    }
  }

  /** Every tier strength lies in [lo, hi]. */
  predicate StrengthsWithin(tiers: seq<Tier>, lo: real, hi: real)
  {
    forall k :: 0 <= k < |tiers| ==> lo <= tiers[k].strength <= hi
  }

  lemma FirstTierHitWithin(tiers: seq<Tier>, s: string, lo: real, hi: real)
    requires StrengthsWithin(tiers, lo, hi)
    ensures FirstTierHit(tiers, s).Some? ==> lo <= FirstTierHit(tiers, s).value.strength <= hi
  {
    FirstTierHitSpec(tiers, s);
  }

  /** The scan over one word list, stopping at the first word that occurs. */
  method ScanWords(words: seq<string>, s: string) returns (hit: Option<string>)
    ensures hit == FirstFound(words, s)
  {
    hit := None;
    var j := 0;
    while j < |words|
      invariant 0 <= j <= |words|
      invariant FirstFound(words, s) == FirstFound(words[j..], s)
    {
      assert words[j..][1..] == words[j + 1..];
      if Contains(s, words[j]) {
        hit := Some(words[j]);
        return;
      }
      j := j + 1;
    }
  }

  /** The nested scan: per tier, per word, breaking out of both loops at the first hit. */
  method ScanTiers(tiers: seq<Tier>, s: string) returns (hit: Option<Hit>)
    ensures hit == FirstTierHit(tiers, s)
  {
    hit := None;
    var i := 0;
    while i < |tiers|
      invariant 0 <= i <= |tiers|
      invariant FirstTierHit(tiers, s) == FirstTierHit(tiers[i..], s)
    {
      assert tiers[i..][1..] == tiers[i + 1..];
      var words := tiers[i].words;
      var j := 0;
      while j < |words|
        invariant 0 <= j <= |words|
        invariant FirstFound(words, s) == FirstFound(words[j..], s)
      {
        assert words[j..][1..] == words[j + 1..];
        if Contains(s, words[j]) {
          hit := Some(Hit(tiers[i].strength, words[j]));
          return;
        }
        j := j + 1;
      }
      i := i + 1;
    }
  }

  /** The first tier with a hit decides; later tiers are not consulted. */
  lemma {:induction false} FirstTierDecides(tiers: seq<Tier>, s: string, k: nat)
    requires k < |tiers| && FirstFound(tiers[k].words, s).Some?
    requires forall j :: 0 <= j < k ==> FirstFound(tiers[j].words, s).None?
    ensures FirstTierHit(tiers, s) == Some(Hit(tiers[k].strength, FirstFound(tiers[k].words, s).value))
  {
    if k > 0 {
      assert forall j :: 0 <= j < k - 1 ==> tiers[1..][j] == tiers[j + 1];
      FirstTierDecides(tiers[1..], s, k - 1);
    }
  }

  function SurprisingTiers(): (t: seq<Tier>)
    ensures StrengthsWithin(t, 7.0, 9.0)
  {
    [Tier(9.0, ["actually", "surprisingly", "shocking", "incredible",
                "unbelievable", "secret", "truth", "reality", "wrong"]),
     Tier(8.0, ["wait", "but", "however", "though", "never knew",
                "didn't know", "realize", "turns out", "plot twist"]),
     Tier(7.0, ["interesting", "fascinating", "curious", "unusual"])]
  }

  function CtaTiers(): (t: seq<Tier>)
    ensures StrengthsWithin(t, 6.5, 8.0)
  {
    [Tier(8.0, ["watch this", "check this out", "look at this", "see this"]),
     Tier(7.0, ["here's", "let me show", "let me tell", "i'll show"]),
     Tier(6.5, ["listen", "understand", "learn", "discover", "find out"]),
     Tier(7.5, ["imagine", "picture this", "think about", "consider"])]
  }

  function Quoted(kind: string, word: string): string
  {
    kind + ": \"" + word + "\""
  }

  /** The surprising-word signal for a given tier hit. */
  function SurprisingFrom(hit: Option<Hit>, text: string): Option<HookSignal>
  {
    match hit
    case None => None
    case Some(h) => Some(HookSignal(Surprising, h.strength, Prefix(text, 80), 0.85, [Quoted(SurprisingLabel, h.word)]))
  }

  function SurprisingSignal(text: string): (r: Option<HookSignal>)
    ensures r.Some? ==> r.value.hookType == Surprising && 7.0 <= r.value.strength <= 9.0 && r.value.confidence == 0.85 && Detected(r.value)
  {
    FirstTierHitWithin(SurprisingTiers(), Lower(text), 7.0, 9.0);
    SurprisingFrom(FirstTierHit(SurprisingTiers(), Lower(text)), text)
  }

  /** The call-to-action signal for a given tier hit. */
  function CtaFrom(hit: Option<Hit>, text: string): Option<HookSignal>
  {
    match hit
    case None => None
    case Some(h) => Some(HookSignal(Cta, h.strength, Prefix(text, 80), 0.75, [Quoted(CtaLabel, h.word)]))
  }

  function CtaSignal(text: string): (r: Option<HookSignal>)
    ensures r.Some? ==> r.value.hookType == Cta && 6.5 <= r.value.strength <= 8.0 && r.value.confidence == 0.75 && Detected(r.value)
  {
    FirstTierHitWithin(CtaTiers(), Lower(text), 6.5, 8.0);
    CtaFrom(FirstTierHit(CtaTiers(), Lower(text)), text)
  }

  /** The numeric patterns, searched case-insensitively. */
  datatype DataPattern =
    | Percentage      // \d+%
    | LargeNumber     // \d{4,}
    | Magnitude       // \d+\s*(?:million|billion|thousand)
    | NumericRange    // \d+[-–]\d+
    | Listicle        // #?\d+\s+(?:ways|reasons|tips|secrets|facts)
    | AnyNumber       // \d+

  /** Four digits in a row starting at i. */
  predicate FourDigitsAt(s: string, i: int)
  {
    0 <= i <= |s| - 4 && DigitRun(s, i, i + 4)
  }

  predicate DataMatches(p: DataPattern, s: string)
  {
    match p
    case Percentage => exists i :: 0 <= i < |s| - 1 && IsDigit(s[i]) && s[i + 1] == '%'
    case LargeNumber => exists i :: 0 <= i <= |s| - 4 && FourDigitsAt(s, i)
    case Magnitude => SearchNumberThen(s, 0, ["million", "billion", "thousand"])
    case NumericRange => exists i :: 0 <= i < |s| - 2 && IsDigit(s[i]) && (s[i + 1] == '-' || s[i + 1] == '–') && IsDigit(s[i + 2])
    // The optional '#' in front never decides whether the pattern occurs.
    case Listicle => SearchNumberThen(s, 1, ["ways", "reasons", "tips", "secrets", "facts"])
    case AnyNumber => HasDigit(s)
  }

  /** Every numeric pattern needs a digit. */
  lemma DataMatchesHasDigit(p: DataPattern, s: string)
    requires DataMatches(p, s)
    ensures HasDigit(s)
  {
    match p
    case Percentage =>
      var i :| 0 <= i < |s| - 1 && IsDigit(s[i]) && s[i + 1] == '%';
    case LargeNumber =>
      var i :| 0 <= i <= |s| - 4 && FourDigitsAt(s, i);
      assert IsDigit(s[i]);
    case Magnitude =>
      var i :| NumberThenAt(s, i, 0, ["million", "billion", "thousand"]);
      NumberThenHasDigit(s, i, 0, ["million", "billion", "thousand"]);
    case NumericRange =>
      var i :| 0 <= i < |s| - 2 && IsDigit(s[i]) && (s[i + 1] == '-' || s[i + 1] == '–') && IsDigit(s[i + 2]);
    case Listicle =>
      var i :| NumberThenAt(s, i, 1, ["ways", "reasons", "tips", "secrets", "facts"]);
      NumberThenHasDigit(s, i, 1, ["ways", "reasons", "tips", "secrets", "facts"]);
    case AnyNumber =>
  }

  datatype DataEntry = DataEntry(pattern: DataPattern, desc: string, strength: real)

  function DataPatterns(): (t: seq<DataEntry>)
    ensures forall k :: 0 <= k < |t| ==> 7.0 <= t[k].strength <= 9.0
    ensures |t| > 0 && t[|t| - 1].pattern == AnyNumber
  {
    [DataEntry(Percentage, "percentage", 8.0),
     DataEntry(LargeNumber, "large number", 7.5),
     DataEntry(Magnitude, "magnitude", 8.0),
     DataEntry(NumericRange, "range", 7.0),
     DataEntry(Listicle, "listicle", 9.0),
     DataEntry(AnyNumber, "number", 7.0)]
  }

  /** The first entry whose pattern occurs in s. */
  function FirstData(table: seq<DataEntry>, s: string): (r: Option<DataEntry>)
    ensures r.Some? ==> r.value in table && DataMatches(r.value.pattern, s)
  {
    if |table| == 0 then None
    else if DataMatches(table[0].pattern, s) then Some(table[0])
    else FirstData(table[1..], s)
  }

  /** No entry is found exactly when no pattern of the table occurs. */
  lemma {:induction false} FirstDataNone(table: seq<DataEntry>, s: string)
    ensures FirstData(table, s).None? <==> forall k :: 0 <= k < |table| ==> !DataMatches(table[k].pattern, s)
  {
    if |table| > 0 {
      FirstDataNone(table[1..], s);
      assert forall k :: 1 <= k < |table| ==> table[1..][k - 1] == table[k];
    }
  }

  method ScanData(table: seq<DataEntry>, s: string) returns (hit: Option<DataEntry>)
    ensures hit == FirstData(table, s)
  {
    hit := None;
    var k := 0;
    while k < |table|
      invariant 0 <= k <= |table|
      invariant FirstData(table, s) == FirstData(table[k..], s)
    {
      assert table[k..][1..] == table[k + 1..];
      if DataMatches(table[k].pattern, s) {
        hit := Some(table[k]);
        return;
      }
      k := k + 1;
    }
  }

  /** The numeric-pattern signal for a given table entry. */
  function DataFrom(hit: Option<DataEntry>, text: string): Option<HookSignal>
  {
    match hit
    case None => None
    case Some(e) => Some(HookSignal(Data, e.strength, Prefix(text, 80), 0.9, [NumericLabel + e.desc]))
  }

  function DataSignal(text: string): (r: Option<HookSignal>)
    ensures r.Some? ==> r.value.hookType == Data && 7.0 <= r.value.strength <= 9.0 && r.value.confidence == 0.9 && Detected(r.value)
  {
    DataFrom(FirstData(DataPatterns(), Lower(text)), text)
  }

  /** A data signal appears exactly when the text has a digit: the last pattern is a bare number. */
  lemma DataSignalIffDigit(text: string)
    ensures DataSignal(text).Some? <==> HasDigit(Lower(text))
  {
    var s, t := Lower(text), DataPatterns();
    FirstDataNone(t, s);
    if FirstData(t, s).Some? {
      DataMatchesHasDigit(FirstData(t, s).value.pattern, s);
    }
  }

  function EmotionalTriggers(): seq<string>
  {
    ["love", "hate", "fear", "worry", "excited", "angry",
     "frustrated", "amazing", "terrible", "best", "worst",
     "dangerous", "safe", "risky", "genius", "stupid"]
  }

  /** The emotional-trigger signal for a given word hit. */
  function EmotionalFrom(hit: Option<string>, text: string): Option<HookSignal>
  {
    match hit
    case None => None
    case Some(w) => Some(HookSignal(Emotional, 7.5, Prefix(text, 80), 0.7, [Quoted(EmotionalLabel, w)]))
  }

  function EmotionalSignal(text: string): (r: Option<HookSignal>)
    ensures r.Some? ==> r.value.hookType == Emotional && r.value.strength == 7.5 && r.value.confidence == 0.7 && Detected(r.value)
  {
    EmotionalFrom(FirstFound(EmotionalTriggers(), Lower(text)), text)
  }

  /** An emotional signal appears exactly when some trigger word occurs in the lower-cased text. */
  lemma EmotionalSignalIff(text: string)
    ensures EmotionalSignal(text).Some? <==> ContainsAny(Lower(text), EmotionalTriggers())
  {
    FirstFoundNone(EmotionalTriggers(), Lower(text));
  }

  function UrgencyWords(): seq<string>
  {
    ["now", "today", "immediately", "quickly", "before", "limited", "only", "last chance", "hurry"]
  }

  function UrgencySignal(text: string): (r: Option<HookSignal>)
    ensures r.Some? ==> r.value.hookType == Urgency && r.value.strength == 7.0 && r.value.confidence == 0.7 && Detected(r.value)
    ensures r.Some? <==> ContainsAny(Lower(text), UrgencyWords())
  {
    if ContainsAny(Lower(text), UrgencyWords()) then
      Some(HookSignal(Urgency, 7.0, Prefix(text, 80), 0.7, [UrgencyReason]))
    else None
  }

  /** signals.append(signal) when a detector fired. */
  function AddIf(sigs: seq<HookSignal>, o: Option<HookSignal>): seq<HookSignal>
  {
    if o.Some? then sigs + [o.value] else sigs
  }

  /** The detectors' outcomes collected in detector order. */
  function SignalsFrom(q: Option<HookSignal>, s: Option<HookSignal>, d: Option<HookSignal>,
                       c: Option<HookSignal>, e: Option<HookSignal>, u: Option<HookSignal>): seq<HookSignal>
  {
    AddIf(AddIf(AddIf(AddIf(AddIf(AddIf([], q), s), d), c), e), u)
  }

  /** The signals in detector order: question, surprising, data, cta, emotional, urgency. */
  function Signals(text: string): seq<HookSignal>
  {
    SignalsFrom(QuestionSignal(text), SurprisingSignal(text), DataSignal(text),
                CtaSignal(text), EmotionalSignal(text), UrgencySignal(text))
  }

  method DetectSignals(openingText: string) returns (signals: seq<HookSignal>)
    ensures signals == Signals(openingText)
  {
    signals := [];
    var lowerText := Lower(openingText);
    var hasQuestion := '?' in openingText || '？' in openingText || '¿' in openingText;
    var startsWithQuestion := StartsWithAny(lowerText, QuestionWords());
    if hasQuestion || startsWithQuestion {
      signals := signals + [HookSignal(Question, 10.0, Prefix(openingText, 80), if hasQuestion then 1.0 else 0.85,
                                       [if hasQuestion then QuestionMarkReason else QuestionWordReason])];
    }
    ghost var q := signals;
    assert q == AddIf([], QuestionSignal(openingText));
    var surprising := ScanTiers(SurprisingTiers(), lowerText);
    if surprising.Some? {
      signals := signals + [HookSignal(Surprising, surprising.value.strength, Prefix(openingText, 80), 0.85,
                                       [Quoted(SurprisingLabel, surprising.value.word)])];
    }
    ghost var s := signals;
    assert s == AddIf(q, SurprisingSignal(openingText));
    var data := ScanData(DataPatterns(), lowerText);
    if data.Some? {
      signals := signals + [HookSignal(Data, data.value.strength, Prefix(openingText, 80), 0.9,
                                       [NumericLabel + data.value.desc])];
    }
    ghost var d := signals;
    assert d == AddIf(s, DataSignal(openingText));
    var cta := ScanTiers(CtaTiers(), lowerText);
    if cta.Some? {
      signals := signals + [HookSignal(Cta, cta.value.strength, Prefix(openingText, 80), 0.75,
                                       [Quoted(CtaLabel, cta.value.word)])];
    }
    ghost var c := signals;
    assert c == AddIf(d, CtaSignal(openingText));
    var emotional := ScanWords(EmotionalTriggers(), lowerText);
    if emotional.Some? {
      signals := signals + [HookSignal(Emotional, 7.5, Prefix(openingText, 80), 0.7,
                                       [Quoted(EmotionalLabel, emotional.value)])];
    }
    ghost var e := signals;
    assert e == AddIf(c, EmotionalSignal(openingText));
    if ContainsAny(lowerText, UrgencyWords()) {
      signals := signals + [HookSignal(Urgency, 7.0, Prefix(openingText, 80), 0.7, [UrgencyReason])];
    }
    assert signals == AddIf(e, UrgencySignal(openingText));
    SignalsChain(openingText, q, s, d, c, e, signals);
  }

  /** The detector-by-detector accumulation ends in Signals(text). */
  lemma SignalsChain(text: string, q: seq<HookSignal>, s: seq<HookSignal>, d: seq<HookSignal>,
                     c: seq<HookSignal>, e: seq<HookSignal>, signals: seq<HookSignal>)
    requires q == AddIf([], QuestionSignal(text))
    requires s == AddIf(q, SurprisingSignal(text))
    requires d == AddIf(s, DataSignal(text))
    requires c == AddIf(d, CtaSignal(text))
    requires e == AddIf(c, EmotionalSignal(text))
    requires signals == AddIf(e, UrgencySignal(text))
    ensures signals == Signals(text)
  {
  }

  // ---------------------------------------------------------------------------
  // Penalty and verdict
  // ---------------------------------------------------------------------------

  function VagueStarts(): seq<string>
  {
    ["so", "and", "um", "uh", "like", "basically", "literally", "you know", "i mean"]
  }

  predicate StartsVague(text: string)
  {
    StartsWithAny(Lower(text), VagueStarts())
  }

  /** signal.strength *= 0.8 and the penalty reason appended. */
  function Penalize(s: HookSignal): (r: HookSignal)
    ensures Key(r) == 0.8 * Key(s)
  {
    s.(strength := s.strength * 0.8, reasons := s.reasons + [PenaltyReason])
  }

  function Penalized(sigs: seq<HookSignal>): (r: seq<HookSignal>)
    ensures |r| == |sigs|
  {
    seq(|sigs|, i requires 0 <= i < |sigs| => Penalize(sigs[i]))
  }

  /** The signals after the vague-start penalty, when it applies. */
  function Adjusted(text: string): seq<HookSignal>
  {
    var sigs := Signals(text);
    if StartsVague(text) && |sigs| > 0 then Penalized(sigs) else sigs
  }

  method ApplyVaguePenalty(signals: seq<HookSignal>) returns (result: seq<HookSignal>)
    ensures result == Penalized(signals)
  {
    result := signals;
    var i := 0;
    while i < |result|
      invariant 0 <= i <= |result| == |signals|
      invariant forall j :: 0 <= j < i ==> result[j] == Penalize(signals[j])
      invariant forall j :: i <= j < |result| ==> result[j] == signals[j]
    {
      var signal := result[i];
      result := result[i := signal.(strength := signal.strength * 0.8,
                                    reasons := signal.reasons + [PenaltyReason])];
      i := i + 1;
    }
  }

  /** max(sigs[:n], key=strength*confidence): the first signal with the largest key. */
  function BestIndex(sigs: seq<HookSignal>, n: nat): (b: nat)
    requires 0 < n <= |sigs|
    ensures b < n
    ensures forall j :: 0 <= j < n ==> Key(sigs[j]) <= Key(sigs[b])
    ensures forall j :: 0 <= j < b ==> Key(sigs[j]) < Key(sigs[b])
  {
    if n == 1 then 0
    else
      var b := BestIndex(sigs, n - 1);
      if Key(sigs[n - 1]) > Key(sigs[b]) then n - 1 else b
  }

  /** The penalty scales every key alike, so it never changes which signal wins. */
  lemma {:induction false} PenaltyKeepsWinner(sigs: seq<HookSignal>, n: nat)
    requires 0 < n <= |sigs|
    ensures BestIndex(Penalized(sigs), n) == BestIndex(sigs, n)
  {
    if n > 1 {
      PenaltyKeepsWinner(sigs, n - 1);
      var p := Penalized(sigs);
      var b := BestIndex(sigs, n - 1);
      assert Key(p[n - 1]) == 0.8 * Key(sigs[n - 1]);
      assert Key(p[b]) == 0.8 * Key(sigs[b]);
    }
  }

  function NoTextSignal(): HookSignal
  {
    HookSignal(NoHook, 0.0, "", 1.0, [NoTextReason])
  }

  /** The verdict when no detector fired. */
  function NoPatternSignal(text: string): HookSignal
  {
    HookSignal(NoHook, 0.0, Prefix(text, 80), 1.0, [NoPatternReason])
  }

  /** The winner among the adjusted signals, or the 'none' signal when there are none. */
  function Winner(sigs: seq<HookSignal>, text: string): HookSignal
  {
    if |sigs| == 0 then NoPatternSignal(text) else sigs[BestIndex(sigs, |sigs|)]
  }

  /** The verdict for a non-empty opening text. */
  function Verdict(text: string): HookSignal
  {
    Winner(Adjusted(text), text)
  }

  /** analyze_opening_3s */
  function OpeningSignal(transcript: seq<Segment>, start: real, end: Option<real>): HookSignal
  {
    var text := OpeningText(transcript, start, WindowEnd(start, end));
    if text == "" then NoTextSignal() else Verdict(text)
  }

  method AnalyzeOpening3s(transcript: seq<Segment>, momentStart: real, momentEnd: Option<real>)
    returns (signal: HookSignal)
    ensures signal == OpeningSignal(transcript, momentStart, momentEnd)
  {
    var end := if momentEnd.None? then momentStart + 3.0 else momentEnd.value;
    var openingText := CollectOpeningText(transcript, momentStart, end);
    if openingText == "" {
      return HookSignal(NoHook, 0.0, "", 1.0, [NoTextReason]);
    }
    var signals := DetectSignals(openingText);
    var startsVague := StartsWithAny(Lower(openingText), VagueStarts());
    if startsVague && |signals| > 0 {
      signals := ApplyVaguePenalty(signals);
    }
    assert signals == Adjusted(openingText);
    if |signals| > 0 {
      signal := signals[BestIndex(signals, |signals|)];
    } else {
      signal := HookSignal(NoHook, 0.0, Prefix(openingText, 80), 1.0, [NoPatternReason]);
    }
    assert signal == Winner(signals, openingText);
  }

  // ---------------------------------------------------------------------------
  // Properties of the verdict
  // ---------------------------------------------------------------------------

  /** What every detected signal satisfies before the penalty. */
  predicate Detected(s: HookSignal)
  {
    s.hookType != NoHook && 6.5 <= s.strength <= 10.0 && 0.7 <= s.confidence <= 1.0
    && (s.hookType == Question ==> Key(s) >= 8.5)
    && (s.hookType != Question ==> Key(s) <= 8.1)
  }

  /** Rank of a family in detector order. */
  function Rank(t: HookType): nat
  {
    match t
    case Question => 0
    case Surprising => 1
    case Data => 2
    case Cta => 3
    case Emotional => 4
    case Urgency => 5
    case NoHook => 6
  }

  /** Detected signals whose families have ranks in [lo, hi), strictly increasing along the list. */
  predicate Ordered(sigs: seq<HookSignal>, lo: nat, hi: nat)
  {
    (forall i :: 0 <= i < |sigs| ==> Detected(sigs[i]) && lo <= Rank(sigs[i].hookType) < hi)
    && (forall i, j :: 0 <= i < j < |sigs| ==> Rank(sigs[i].hookType) < Rank(sigs[j].hookType))
  }

  /** Appending a detected signal of a later family keeps the list ordered and its head. */
  lemma AddIfOrdered(sigs: seq<HookSignal>, o: Option<HookSignal>, t: HookType, lo: nat)
    requires Ordered(sigs, lo, Rank(t)) && lo <= Rank(t)
    requires o.Some? ==> o.value.hookType == t && Detected(o.value)
    ensures Ordered(AddIf(sigs, o), lo, Rank(t) + 1)
    ensures |AddIf(sigs, o)| <= |sigs| + 1
    ensures |sigs| > 0 ==> AddIf(sigs, o)[0] == sigs[0]
  {
  }

  /**
   * The shape of the signal list: at most six signals, every one detected,
   * families in detector order (so no two alike, and a question only ever
   * first), and a question first exactly when the question detector fired.
   */
  lemma SignalsShape(text: string)
    ensures var sigs := Signals(text);
      |sigs| <= 6
      && (forall i :: 0 <= i < |sigs| ==> Detected(sigs[i]))
      && (forall i, j :: 0 <= i < j < |sigs| ==> Rank(sigs[i].hookType) < Rank(sigs[j].hookType))
      && (forall i :: 0 < i < |sigs| ==> sigs[i].hookType != Question)
      && (QuestionSignal(text).Some? <==> |sigs| > 0 && sigs[0].hookType == Question)
  {
    ChainShape(QuestionSignal(text), SurprisingSignal(text), DataSignal(text),
               CtaSignal(text), EmotionalSignal(text), UrgencySignal(text));
  }

  /** Any six outcomes of the right families, each detected, collect into an ordered list. */
  lemma ChainShape(q: Option<HookSignal>, s: Option<HookSignal>, d: Option<HookSignal>,
                   c: Option<HookSignal>, e: Option<HookSignal>, u: Option<HookSignal>)
    requires q.Some? ==> q.value.hookType == Question && Detected(q.value)
    requires s.Some? ==> s.value.hookType == Surprising && Detected(s.value)
    requires d.Some? ==> d.value.hookType == Data && Detected(d.value)
    requires c.Some? ==> c.value.hookType == Cta && Detected(c.value)
    requires e.Some? ==> e.value.hookType == Emotional && Detected(e.value)
    requires u.Some? ==> u.value.hookType == Urgency && Detected(u.value)
    ensures var sigs := SignalsFrom(q, s, d, c, e, u);
      |sigs| <= 6
      && (forall i :: 0 <= i < |sigs| ==> Detected(sigs[i]))
      && (forall i, j :: 0 <= i < j < |sigs| ==> Rank(sigs[i].hookType) < Rank(sigs[j].hookType))
      && (forall i :: 0 < i < |sigs| ==> sigs[i].hookType != Question)
      && (q.Some? <==> |sigs| > 0 && sigs[0].hookType == Question)
  {
    var lo := if q.Some? then 0 else 1;
    var front := AddIf(AddIf(AddIf([], q), s), d);
    ChainFront(q, s, d, lo);
    ChainBack(front, c, e, u, lo);
    var sigs := SignalsFrom(q, s, d, c, e, u);
    OrderedFacts(sigs, lo);
  }

  lemma ChainFront(q: Option<HookSignal>, s: Option<HookSignal>, d: Option<HookSignal>, lo: nat)
    requires lo == if q.Some? then 0 else 1
    requires q.Some? ==> q.value.hookType == Question && Detected(q.value)
    requires s.Some? ==> s.value.hookType == Surprising && Detected(s.value)
    requires d.Some? ==> d.value.hookType == Data && Detected(d.value)
    ensures var front := AddIf(AddIf(AddIf([], q), s), d);
      Ordered(front, lo, 3) && |front| <= 3 && (q.Some? ==> |front| > 0 && front[0] == q.value)
  {
    var s1 := AddIf([], q);
    assert Ordered(s1, lo, 1);
    AddIfOrdered(s1, s, Surprising, lo);
    AddIfOrdered(AddIf(s1, s), d, Data, lo);
  }

  lemma ChainBack(front: seq<HookSignal>, c: Option<HookSignal>, e: Option<HookSignal>, u: Option<HookSignal>, lo: nat)
    requires Ordered(front, lo, 3) && lo <= 1
    requires c.Some? ==> c.value.hookType == Cta && Detected(c.value)
    requires e.Some? ==> e.value.hookType == Emotional && Detected(e.value)
    requires u.Some? ==> u.value.hookType == Urgency && Detected(u.value)
    ensures var sigs := AddIf(AddIf(AddIf(front, c), e), u);
      Ordered(sigs, lo, 6) && |sigs| <= |front| + 3 && (|front| > 0 ==> sigs[0] == front[0])
  {
    AddIfOrdered(front, c, Cta, lo);
    var s4 := AddIf(front, c);
    AddIfOrdered(s4, e, Emotional, lo);
    AddIfOrdered(AddIf(s4, e), u, Urgency, lo);
  }

  /** What an ordered list says about its families. */
  lemma OrderedFacts(sigs: seq<HookSignal>, lo: nat)
    requires Ordered(sigs, lo, 6) && lo <= 6
    ensures forall i :: 0 < i < |sigs| ==> sigs[i].hookType != Question
    ensures |sigs| <= 6
  {
    forall i | 0 < i < |sigs| ensures sigs[i].hookType != Question {
      assert Rank(sigs[0].hookType) < Rank(sigs[i].hookType);
    }
    RanksBound(sigs, lo);
  }

  /** Strictly increasing ranks below 6 leave room for at most six signals. */
  lemma {:induction false} RanksBound(sigs: seq<HookSignal>, lo: nat)
    requires Ordered(sigs, lo, 6) && lo <= 6
    ensures |sigs| <= 6 - lo
  {
    if |sigs| > 0 {
      var rest := sigs[1..];
      var r := Rank(sigs[0].hookType);
      assert r + 1 <= 6;
      assert Ordered(rest, r + 1, 6) by {
        forall i | 0 <= i < |rest| ensures Detected(rest[i]) && r + 1 <= Rank(rest[i].hookType) < 6 {
          assert rest[i] == sigs[i + 1];
        }
        forall i, j | 0 <= i < j < |rest| ensures Rank(rest[i].hookType) < Rank(rest[j].hookType) {
          assert rest[i] == sigs[i + 1] && rest[j] == sigs[j + 1];
        }
      }
      RanksBound(rest, r + 1);
    }
  }

  /**
   * A question always wins: whenever the question detector fires, the verdict
   * is the question signal, at full strength 10 or at 8 after the vague-start
   * penalty, with confidence 1.0 when a question mark is present.
   */
  lemma QuestionWins(text: string)
    requires QuestionSignal(text).Some?
    ensures Verdict(text).hookType == Question
    ensures Verdict(text).strength == if StartsVague(text) then 8.0 else 10.0
    ensures Verdict(text).confidence == if HasQuestionMark(text) then 1.0 else 0.85
  {
    var sigs := Signals(text);
    SignalsShape(text);
    assert Key(sigs[0]) >= 8.5;
    assert forall j :: 0 < j < |sigs| ==> Key(sigs[j]) <= 8.1;
    var b := BestIndex(sigs, |sigs|);
    assert b == 0;
    assert sigs[0] == QuestionSignal(text).value;
    if StartsVague(text) {
      PenaltyKeepsWinner(sigs, |sigs|);
    }
  }

  /** The winner of a list of detected signals is one of them, possibly penalized. */
  lemma WinnerStrength(sigs: seq<HookSignal>, text: string, vague: bool)
    requires forall i :: 0 <= i < |sigs| ==> Detected(sigs[i])
    ensures var r := Winner(if vague && |sigs| > 0 then Penalized(sigs) else sigs, text);
      0.0 <= r.strength <= 10.0
      && (r.strength == 0.0 <==> r.hookType == NoHook)
      && (r.hookType != NoHook ==> r.strength >= 5.2)
      && (r.hookType == NoHook ==> r.confidence == 1.0)
  {
    if |sigs| > 0 && vague {
      var b := BestIndex(Penalized(sigs), |sigs|);
      assert Penalized(sigs)[b] == Penalize(sigs[b]);
    }
  }

  /**
   * The verdict's strength lies in [0, 10], and it is 0 exactly for the
   * 'none' verdict; any real signal keeps at least 6.5 * 0.8.
   */
  lemma VerdictStrength(transcript: seq<Segment>, start: real, end: Option<real>)
    ensures var r := OpeningSignal(transcript, start, end);
      0.0 <= r.strength <= 10.0
      && (r.strength == 0.0 <==> r.hookType == NoHook)
      && (r.hookType != NoHook ==> r.strength >= 5.2)
      && (r.hookType == NoHook ==> r.confidence == 1.0)
  {
    var text := OpeningText(transcript, start, WindowEnd(start, end));
    if text != "" {
      SignalsShape(text);
      WinnerStrength(Signals(text), text, StartsVague(text));
    }
  }

  /** A window with no segment in it yields the 'none' verdict with strength 0 and confidence 1. */
  lemma EmptyWindowIsNone(transcript: seq<Segment>, start: real, end: Option<real>)
    requires forall k :: 0 <= k < |transcript| ==> !InWindow(transcript[k], InsideOrOverlapping, start, WindowEnd(start, end))
    ensures OpeningSignal(transcript, start, end) == NoTextSignal()
  {
    var e := WindowEnd(start, end);
    SelectNone(transcript, (seg: Segment) => InWindow(seg, InsideOrOverlapping, start, e));
  }

  // ---------------------------------------------------------------------------
  // Per-moment helpers
  // ---------------------------------------------------------------------------

  /** detect_hook_strength: the moment's own end closes the window. */
  function DetectHookStrength(m: Moment, transcript: seq<Segment>): real
  {
    OpeningSignal(transcript, m.start, Some(m.end)).strength
  }

  /** reject_by_hook */
  predicate RejectByHook(m: Moment, transcript: seq<Segment>, threshold: real)
  {
    DetectHookStrength(m, transcript) < threshold
  }

  /** A threshold above 10 rejects every moment; one at or below 5.2 rejects only moments with no hook at all. */
  lemma RejectByHookBounds(m: Moment, transcript: seq<Segment>, threshold: real)
    ensures threshold > 10.0 ==> RejectByHook(m, transcript, threshold)
    ensures 0.0 < threshold <= 5.2 ==>
      (RejectByHook(m, transcript, threshold) <==> OpeningSignal(transcript, m.start, Some(m.end)).hookType == NoHook)
  {
    VerdictStrength(transcript, m.start, Some(m.end));
  }

  datatype Priority = Excellent | Strong | Weak | Reject

  /** _get_priority_level */
  function PriorityLevel(strength: real): (p: Priority)
    ensures p == Reject <==> strength < 6.0
    ensures p == Excellent <==> strength >= 9.0
  {
    if strength >= 9.0 then Excellent
    else if strength >= 7.0 then Strong
    else if strength >= 6.0 then Weak
    else Reject
  }

  function PriorityRank(p: Priority): nat
  {
    match p
    case Reject => 0
    case Weak => 1
    case Strong => 2
    case Excellent => 3
  }

  /** A stronger hook never gets a lower priority. */
  lemma PriorityMonotone(a: real, b: real)
    requires a <= b
    ensures PriorityRank(PriorityLevel(a)) <= PriorityRank(PriorityLevel(b))
  {
  }

  /** The category of a video context, when it has one. */
  datatype VideoContext = VideoContext(fields: map<string, string>)
  {
    function Category(): Option<string>
    {
      if "category" in fields then Some(fields["category"]) else None
    }
  }

  datatype Adjustments = Adjustments(bonus: real, reasons: seq<string>)

  /** _apply_contextual_adjustments */
  function ContextualAdjustments(signal: HookSignal, context: VideoContext): (a: Adjustments)
    ensures |a.reasons| <= 1
    ensures a.bonus == 0.0 <==> |a.reasons| == 0
    ensures a.bonus > 0.0 <==> context.Category() == Some("education") && signal.hookType == Question
    ensures a.bonus < 0.0 <==> context.Category() == Some("entertainment") && signal.strength < 8.0
    ensures -0.5 <= a.bonus <= 0.5
  {
    var a := Adjustments(0.0, []);
    var a := if context.Category() == Some("education") && signal.hookType == Question
      then Adjustments(a.bonus + 0.5, a.reasons + [EducationalReason]) else a;
    if context.Category() == Some("entertainment") && signal.strength < 8.0
      then Adjustments(a.bonus - 0.5, a.reasons + [EntertainmentReason]) else a
  }

  datatype HookReport = HookReport(
    hookType: HookType, strength: real, confidence: real, openingText: string, reasons: seq<string>,
    reject: bool, priority: Priority, adjustments: Option<Adjustments>, adjustedStrength: Option<real>)

  /** analyze_hook_with_context; an empty context dictionary counts as no context. */
  function AnalyzeHookWithContext(m: Moment, transcript: seq<Segment>, context: Option<VideoContext>): (r: HookReport)
    ensures r.reject <==> r.priority == Reject
    ensures r.adjustedStrength.Some? <==> context.Some? && |context.value.fields| > 0
    ensures r.adjustedStrength.Some? ==> r.strength - 0.5 <= r.adjustedStrength.value <= r.strength + 0.5
  {
    var signal := OpeningSignal(transcript, m.start, Some(m.end));
    var adjustments := if context.Some? && |context.value.fields| > 0
      then Some(ContextualAdjustments(signal, context.value)) else None;
    HookReport(signal.hookType, signal.strength, signal.confidence, signal.text, signal.reasons,
               signal.strength < 6.0, PriorityLevel(signal.strength), adjustments,
               if adjustments.Some? then Some(signal.strength + adjustments.value.bonus) else None)
  }

  // ---------------------------------------------------------------------------
  // Batch analysis
  // ---------------------------------------------------------------------------

  /** The moment's copy carrying its hook analysis. */
  function WithHook(m: Moment, signal: HookSignal): Moment
  {
    m.(hookAnalysis := Some(Transcript.HookAnalysis(signal.hookType.Name(), signal.strength, signal.confidence, signal.reasons)))
  }

  /** The verdict for a moment's own opening, its end closing the window. */
  function SignalOf(transcript: seq<Segment>): Moment -> HookSignal
  {
    (m: Moment) => OpeningSignal(transcript, m.start, Some(m.end))
  }

  /** Annotate a moment with the verdict a signal function gives it. */
  function AnalyzeBy(signalOf: Moment -> HookSignal): Moment -> Moment
  {
    (m: Moment) => WithHook(m, signalOf(m))
  }

  function Analyzed(moments: seq<Moment>, transcript: seq<Segment>): seq<Moment>
  {
    MapAll(moments, AnalyzeBy(SignalOf(transcript)))
  }

  function HookStrengthOf(m: Moment): real
  {
    if m.hookAnalysis.Some? then m.hookAnalysis.value.strength else 0.0
  }

  function PassesHook(threshold: real): Moment -> bool
  {
    (m: Moment) => HookStrengthOf(m) >= threshold
  }

  function FailsHook(threshold: real): Moment -> bool
  {
    (m: Moment) => HookStrengthOf(m) < threshold
  }

  function TypeOf(m: Moment): string
  {
    if m.hookAnalysis.Some? then m.hookAnalysis.value.hookType else ""
  }

  function Types(ms: seq<Moment>): (r: seq<string>)
    ensures |r| == |ms|
  {
    MapAll(ms, TypeOf)
  }

  function StrengthSum(ms: seq<Moment>): real
  {
    if |ms| == 0 then 0.0 else StrengthSum(ms[..|ms| - 1]) + HookStrengthOf(ms[|ms| - 1])
  }

  /** The average hook strength, 0 for an empty list. */
  function MeanStrength(ms: seq<Moment>): real
  {
    if |ms| > 0 then StrengthSum(ms) / |ms| as real else 0.0
  }

  datatype BatchResult = BatchResult(
    accepted: seq<Moment>, rejected: seq<Moment>, total: nat, hookTypes: map<string, nat>, avgStrength: real)

  /** The statistics over a list of analyzed copies. */
  function BatchOf(analyzed: seq<Moment>, threshold: real): BatchResult
  {
    BatchResult(Select(analyzed, PassesHook(threshold)), Select(analyzed, FailsHook(threshold)), |analyzed|,
                CountAll(Types(analyzed)),
                MeanStrength(analyzed))
  }

  /** batch_analyze_hooks */
  function BatchSpec(moments: seq<Moment>, transcript: seq<Segment>, threshold: real): BatchResult
  {
    BatchOf(Analyzed(moments, transcript), threshold)
  }

  /** batch_analyze_hooks: the batch loop with the opening analysis as each moment's verdict. */
  method BatchAnalyzeHooks(moments: seq<Moment>, transcript: seq<Segment>, threshold: real)
    returns (results: BatchResult)
    ensures results == BatchSpec(moments, transcript, threshold)
  {
    results := BatchAnalyzeWith(moments, SignalOf(transcript), threshold);
  }

  /**
   * The batch loop over a per-moment verdict: annotate each moment, file its
   * copy under accepted or rejected, count its type and add up strengths.
   */
  method BatchAnalyzeWith(moments: seq<Moment>, signalOf: Moment -> HookSignal, threshold: real)
    returns (results: BatchResult)
    ensures results == BatchOf(MapAll(moments, AnalyzeBy(signalOf)), threshold)
  {
    results := BatchResult([], [], |moments|, map[], 0.0);
    var totalStrength := 0.0;
    ghost var done: seq<Moment> := [];
    for i := 0 to |moments|
      invariant done == MapAll(moments[..i], AnalyzeBy(signalOf))
      invariant results == Running(done, |moments|, threshold)
      invariant totalStrength == StrengthSum(done)
    {
      var moment := moments[i];
      var signal := signalOf(moment);
      var momentWithHook := moment.(hookAnalysis := Some(Transcript.HookAnalysis(
        signal.hookType.Name(), signal.strength, signal.confidence, signal.reasons)));
      MapAllPrefix(moments, i, AnalyzeBy(signalOf));
      RunningSnoc(done, momentWithHook, |moments|, threshold);
      done := done + [momentWithHook];
      if signal.strength >= threshold {
        results := results.(accepted := results.accepted + [momentWithHook]);
      } else {
        results := results.(rejected := results.rejected + [momentWithHook]);
      }
      totalStrength := totalStrength + signal.strength;
      var hookType := signal.hookType.Name();
      results := results.(hookTypes := Bump(results.hookTypes, hookType));
    }
    assert moments[..|moments|] == moments;
    if |moments| > 0 {
      results := results.(avgStrength := totalStrength / |moments| as real);
    }
  }

  /** A well-formed hook analysis: a known type and a strength in [0, 10]. */
  predicate WellAnalyzed(m: Moment)
  {
    m.hookAnalysis.Some? && m.hookAnalysis.value.hookType in HookTypeNames()
    && 0.0 <= m.hookAnalysis.value.strength <= 10.0
  }

  /** The statistics kept while the loop runs: the total is known up front, the average is set at the end. */
  function Running(done: seq<Moment>, total: nat, threshold: real): BatchResult
  {
    BatchOf(done, threshold).(total := total, avgStrength := 0.0)
  }

  /** One more analyzed copy is filed under accepted or rejected and counted under its type. */
  lemma RunningSnoc(done: seq<Moment>, x: Moment, total: nat, threshold: real)
    ensures var r := Running(done, total, threshold);
      Running(done + [x], total, threshold)
      == (if HookStrengthOf(x) >= threshold then r.(accepted := r.accepted + [x]) else r.(rejected := r.rejected + [x]))
           .(hookTypes := Bump(r.hookTypes, TypeOf(x)))
    ensures StrengthSum(done + [x]) == StrengthSum(done) + HookStrengthOf(x)
  {
    assert (done + [x])[..|done|] == done;
    MapAllAt(done + [x], TypeOf);
    MapAllAt(done, TypeOf);
    assert Types(done + [x]) == Types(done) + [TypeOf(x)];
    assert Types(done + [x])[..|done|] == Types(done);
  }

  /** The hook-type counts of a well-formed analysis list add up to its length. */
  lemma TypeCounts(analyzed: seq<Moment>)
    requires forall i :: 0 <= i < |analyzed| ==> WellAnalyzed(analyzed[i])
    ensures SumOver(HookTypeNames(), CountAll(Types(analyzed))) == |analyzed|
  {
    var types := Types(analyzed);
    MapAllAt(analyzed, TypeOf);
    forall k | k in types ensures k in HookTypeNames() {
      var i :| 0 <= i < |types| && types[i] == k;
    }
    HookTypeNamesFacts(Question);
    CountAllTotal(types, HookTypeNames());
  }

  /** The statistics of any well-formed analysis list. */
  lemma BatchOfFacts(analyzed: seq<Moment>, threshold: real)
    requires forall i :: 0 <= i < |analyzed| ==> WellAnalyzed(analyzed[i])
    ensures var r := BatchOf(analyzed, threshold);
      |r.accepted| + |r.rejected| == r.total == |analyzed|
      && SumOver(HookTypeNames(), r.hookTypes) == r.total
      && (forall m :: m in r.accepted <==> m in analyzed && HookStrengthOf(m) >= threshold)
      && (forall m :: m in r.rejected <==> m in analyzed && HookStrengthOf(m) < threshold)
      && 0.0 <= r.avgStrength <= 10.0
  {
    SplitFacts(analyzed, threshold);
    TypeCounts(analyzed);
    MeanStrengthWithin(analyzed);
  }

  /** Accepted and rejected partition the list by the threshold. */
  lemma SplitFacts(analyzed: seq<Moment>, threshold: real)
    ensures |Select(analyzed, PassesHook(threshold))| + |Select(analyzed, FailsHook(threshold))| == |analyzed|
    ensures forall m :: m in Select(analyzed, PassesHook(threshold)) <==> m in analyzed && HookStrengthOf(m) >= threshold
    ensures forall m :: m in Select(analyzed, FailsHook(threshold)) <==> m in analyzed && HookStrengthOf(m) < threshold
  {
    SelectPartition(analyzed, PassesHook(threshold), FailsHook(threshold));
    SelectMembers(analyzed, PassesHook(threshold));
    SelectMembers(analyzed, FailsHook(threshold));
  }

  lemma MeanStrengthWithin(ms: seq<Moment>)
    requires forall i :: 0 <= i < |ms| ==> WellAnalyzed(ms[i])
    ensures 0.0 <= MeanStrength(ms) <= 10.0
  {
    StrengthSumBounds(ms);
    if |ms| > 0 {
      MeanWithin(StrengthSum(ms), |ms| as real, 0.0, 10.0);
    }
  }

  /** Annotating with a verdict of known type and bounded strength gives a well-formed copy. */
  lemma AnalyzedByWell(signalOf: Moment -> HookSignal, m: Moment)
    requires 0.0 <= signalOf(m).strength <= 10.0
    ensures WellAnalyzed(AnalyzeBy(signalOf)(m))
    ensures HookStrengthOf(AnalyzeBy(signalOf)(m)) == signalOf(m).strength
    ensures AnalyzeBy(signalOf)(m).(hookAnalysis := m.hookAnalysis) == m
  {
    HookTypeNamesFacts(signalOf(m).hookType);
  }

  /** Every verdict names a known type and has a strength in [0, 10]. */
  lemma AnalyzedWell(m: Moment, transcript: seq<Segment>)
    ensures WellAnalyzed(AnalyzeBy(SignalOf(transcript))(m))
    ensures HookStrengthOf(AnalyzeBy(SignalOf(transcript))(m)) == DetectHookStrength(m, transcript)
    ensures AnalyzeBy(SignalOf(transcript))(m).(hookAnalysis := m.hookAnalysis) == m
  {
    VerdictStrength(transcript, m.start, Some(m.end));
    AnalyzedByWell(SignalOf(transcript), m);
  }

  /**
   * What the batch promises: accepted and rejected split the analyzed copies
   * (accepted exactly those at or above the threshold), the hook-type counts
   * add up to the total, the average strength lies in [0, 10], every copy
   * differs from its moment only in its hook analysis, and a moment's copy
   * is rejected exactly when reject_by_hook says so.
   */
  lemma BatchSpecFacts(moments: seq<Moment>, transcript: seq<Segment>, threshold: real)
    ensures var r := BatchSpec(moments, transcript, threshold);
      |r.accepted| + |r.rejected| == r.total == |moments|
      && SumOver(HookTypeNames(), r.hookTypes) == r.total
      && (forall m :: m in r.accepted ==> HookStrengthOf(m) >= threshold)
      && (forall m :: m in r.rejected ==> HookStrengthOf(m) < threshold)
      && 0.0 <= r.avgStrength <= 10.0
    ensures var analyzed := Analyzed(moments, transcript);
      forall i :: 0 <= i < |moments| ==>
        analyzed[i].(hookAnalysis := moments[i].hookAnalysis) == moments[i]
        && (analyzed[i] in BatchSpec(moments, transcript, threshold).rejected <==> RejectByHook(moments[i], transcript, threshold))
  {
    var analyzed := Analyzed(moments, transcript);
    MapAllAt(moments, AnalyzeBy(SignalOf(transcript)));
    forall i | 0 <= i < |moments|
      ensures WellAnalyzed(analyzed[i])
      ensures HookStrengthOf(analyzed[i]) == DetectHookStrength(moments[i], transcript)
      ensures analyzed[i].(hookAnalysis := moments[i].hookAnalysis) == moments[i]
    {
      AnalyzedWell(moments[i], transcript);
    }
    BatchOfFacts(analyzed, threshold);
  }

  lemma {:induction false} StrengthSumBounds(ms: seq<Moment>)
    requires forall i :: 0 <= i < |ms| ==> 0.0 <= HookStrengthOf(ms[i]) <= 10.0
    ensures 0.0 <= StrengthSum(ms) <= 10.0 * |ms| as real
  {
    if |ms| > 0 {
      StrengthSumBounds(ms[..|ms| - 1]);
    }
  }
}
