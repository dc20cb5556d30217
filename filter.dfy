/**
 * The aggressive rejection filter (moments/filter.py).
 *
 * Seven rules are checked for every candidate; each rule that fires adds one
 * reason, and a candidate survives exactly when it collected no reason.
 * Case-insensitive patterns are checked on the ASCII-lowered text.
 */
module Filter {
  import opened Wrappers
  import opened Strings
  import opened Patterns
  import opened Selection
  import opened Transcript

  /*
   * The text of a time window.
   */

  /** The joined text of the segments overlapping [start, end); "" for no transcript or an empty window. */
  function TimeWindowText(transcript: seq<Segment>, start: real, end: real): (r: string)
    ensures (|transcript| == 0 || start >= end) ==> r == ""
  {
    if |transcript| == 0 || start >= end then ""
    else JoinedText(WindowTexts(transcript, Overlapping, start, end))
  }

  /** get_text_in_time_window: collects the overlapping segments' texts in one pass. */
  method TextInTimeWindow(transcript: seq<Segment>, start: real, end: real) returns (r: string)
    ensures r == TimeWindowText(transcript, start, end)
  {
    if |transcript| == 0 || start >= end {
      return "";
    }
    var parts: seq<string> := [];
    for k := 0 to |transcript|
      invariant parts == WindowTexts(transcript[..k], Overlapping, start, end)
    {
      var seg := transcript[k];
      WindowTextsSnoc(transcript[..k], seg, Overlapping, start, end);
      assert transcript[..k + 1] == transcript[..k] + [seg];
      if seg.start < end && seg.end > start {
        parts := parts + [seg.text];
      }
    }
    assert transcript[..|transcript|] == transcript;
    r := JoinedText(parts);
  }

  /** The opening text: the first two seconds, or the first four when nothing is spoken in two. */
  function OpeningText(transcript: seq<Segment>, start: real): string
  {
    var first := TimeWindowText(transcript, start, start + 2.0);
    if first == "" then TimeWindowText(transcript, start, start + 4.0) else first
  }

  /*
   * Rule 1: a clear topic or hook.
   */

  const TopicQuestionWords: seq<string> := ["why", "how", "what", "when", "where", "who"]
  const TopicOpeners: seq<string> := ["do you know", "have you ever", "did you know"]
  const TopicTheThing: seq<string> :=
    ["the secret is", "the secret to", "the secret about", "the truth is", "the truth to", "the truth about",
     "the reality is", "the reality to", "the reality about", "the key is", "the key to", "the key about",
     "the problem is", "the problem to", "the problem about", "the issue is", "the issue to",
     "the issue about", "the thing is", "the thing to", "the thing about"]
  const TopicLetMe: seq<string> :=
    ["here's", "let me tell", "let me show", "let me explain"]
  const TopicCounted: seq<string> := ["ways", "reasons", "things", "tips"]
  const TopicTheKey: seq<string> :=
    ["the secret is", "the secret of", "the secret to", "the truth is", "the truth of", "the truth to",
     "the reality is", "the reality of", "the reality to", "the key is", "the key of", "the key to",
     "the problem is", "the problem of", "the problem to", "the issue is", "the issue of", "the issue to"]
  const TopicAdverbs: seq<string> := ["actually", "really", "surprisingly", "interestingly", "basically"]
  const TopicSuperlatives: seq<string> := ["one of the", "the most", "the best", "the worst"]
  const HindiTopicWords: seq<string> := ["क्यों", "कैसे", "क्या", "कब", "कहाँ", "कौन"]
  const HindiTruthWords: seq<string> := ["रहस्य", "सच", "वास्तविकता"]
  const HindiCounted: seq<string> := ["तरीके", "कारण", "टिप्स"]
  const SpanishTopicWords: seq<string> := ["por qué", "cómo", "qué", "cuándo", "dónde"]
  const SpanishTruthWords: seq<string> := ["secreto", "verdad", "realidad"]
  const Filler: set<string> := {"and", "the", "a", "or", "is", "are", "was", "were", "this", "that", "it", "be"}

  /** One of the language's topic patterns matches the lowered text t. */
  predicate TopicPatternMatches(t: string, language: string)
  {
    var lead := LStrip(t);
    if language == "english" then
      StartsWithAny(lead, TopicQuestionWords)
      || StartsWithAny(lead, TopicOpeners)
      || StartsWithAny(lead, TopicTheThing)
      || StartsWithAny(lead, TopicLetMe)
      || NumberThenAt(lead, 0, 1, TopicCounted)
      || SearchBounded(t, TopicTheKey)
      || SearchBoundedThenSpace(t, TopicAdverbs)
      || SearchBounded(t, TopicSuperlatives)
    else if language == "hindi" then
      ContainsAny(t, HindiTopicWords) || ContainsAny(t, HindiTruthWords) || SearchNumberThen(t, 0, HindiCounted)
    else if language == "spanish" then
      ContainsAny(t, SpanishTopicWords) || ContainsAny(t, SpanishTruthWords)
    else false
  }

  /** The number of words that are not filler and longer than two characters. */
  function MeaningfulCount(words: seq<string>): (n: nat)
    ensures n <= |words|
  {
    if |words| == 0 then 0
    else
      var w := words[|words| - 1];
      MeaningfulCount(words[..|words| - 1]) + (if w !in Filler && |w| > 2 then 1 else 0)
  }

  /** The substantive-statement fallback: 10+ characters, 3+ words, 2+ meaningful words. */
  predicate Substantive(text: string)
  {
    var words := Words(Lower(text));
    |Strip(text)| >= 10 && |words| >= 3 && MeaningfulCount(words) >= 2
  }

  /** has_clear_topic_or_hook. */
  predicate HasClearTopicOrHook(text: string, language: string)
  {
    if |Strip(text)| < 5 then false
    else if '?' in text || '？' in text || HasDigit(text) then true
    else if TopicPatternMatches(Lower(text), language) then true
    else Substantive(text)
  }

  /*
   * Rule 2: starting mid-thought.
   */

  const MidThoughtSoWho: seq<seq<string>> := [["so"], ["i", "we", "he", "she", "they", "you"]]
  const MidThoughtAsISaid: seq<seq<string>> := [["as"], ["i"], ["said", "mentioned"]]
  const HindiMidThought: seq<string> := ["तो", "क्योंकि"]
  const SpanishMidThought: seq<string> := ["entonces", "porque"]

  predicate StartsMidThought(text: string, language: string)
  {
    var lead := LStrip(Lower(text));
    if language == "english" then
      MatchSpaced(lead, MidThoughtSoWho) || "because" <= lead
      || MatchSpaced(lead, MidThoughtAsISaid) || "going back to" <= lead
    else if language == "hindi" then StartsWithAny(lead, HindiMidThought)
    else if language == "spanish" then StartsWithAny(lead, SpanishMidThought)
    else false
  }

  /*
   * Rule 3: pronouns without a referent.
   */

  const Pronouns: seq<string> := ["this", "that", "it", "they", "them", "these", "those"]

  /** words.index(w), for a word known to occur. */
  function IndexOfWord(words: seq<string>, w: string): (k: nat)
    requires w in words
    ensures k < |words| && words[k] == w
    ensures forall j :: 0 <= j < k ==> words[j] != w
  {
    if words[0] == w then 0 else 1 + IndexOfWord(words[1..], w)
  }

  /** The words has_unclear_pronouns looks at: the first ten of the lowered first sentence. */
  function PronounWindow(text: string): seq<string>
  {
    Prefix(Words(Lower(FirstSentence(text))), 10)
  }

  /** text.split('.')[0] if '.' in text else text. */
  function FirstSentence(text: string): (r: string)
    ensures r == BeforeFirst(text, '.')
  {
    if '.' in text then BeforeFirst(text, '.') else text
  }

  /** has_unclear_pronouns: some pronoun, at its first occurrence, is among the first three words. */
  predicate HasUnclearPronouns(text: string)
  {
    PronounTooEarly(PronounWindow(text))
  }

  /** The loop over the pronouns: one of them occurs and its first occurrence has index below 3. */
  predicate PronounTooEarly(words: seq<string>)
  {
    exists k :: 0 <= k < |Pronouns| && Pronouns[k] in words && IndexOfWord(words, Pronouns[k]) < 3
  }

  /*
   * Rule 4: a bare explanation.
   */

  function ProblemKeywords(language: string): seq<string>
  {
    if language == "english" then
      ["why", "how", "what", "problem", "reason", "secret", "truth", "solution", "key", "solution", "mistake"]
    else if language == "hindi" then ["क्यों", "कैसे", "समस्या", "कारण", "समाधान"]
    else if language == "spanish" then ["por qué", "cómo", "problema", "razón", "solución"]
    else []
  }

  const BareConnectors: seq<string> := ["because", "since", "due to", "as a result", "therefore", "thus", "so", "hence"]

  predicate IsExplanationWithoutQuestion(text: string, language: string)
  {
    if '?' in text || '？' in text then false
    else if ContainsAny(Lower(text), ProblemKeywords(language)) then false
    else StartsWithThenSpace(Strip(Lower(text)), BareConnectors)
  }

  /*
   * Rules 5-7: context, podcast and branding references, each a list of
   * \b-delimited alternations searched in the lowered text.
   */

  const ContextRecall: seq<string> :=
    ["remember when", "as i said", "as we said", "earlier", "previously"]
  const ContextThisVideo: seq<string> :=
    ["in this video", "in this episode", "in this podcast", "in that video", "in that episode",
     "in that podcast"]
  const ContextMentioned: seq<string> := ["like i mentioned", "as discussed"]
  const ContextLastTime: seq<string> :=
    ["the other day", "last week", "last time"]
  const HindiContextRecall: seq<string> := ["याद है", "जैसा मैंने कहा", "पहले", "पिछले"]
  const HindiContextThisVideo: seq<string> :=
    ["इस वीडियो में", "इस एपिसोड में", "इस पॉडकास्ट में"]
  const SpanishContextRecall: seq<string> :=
    ["recuerda cuando", "como yo dijimos", "como nosotros dijimos", "antes", "previamente"]
  const SpanishContextThisVideo: seq<string> :=
    ["en este video", "en este episodio", "en este podcast", "en ese video", "en ese episodio",
     "en ese podcast"]

  predicate RequiresContext(text: string, language: string)
  {
    var t := Lower(text);
    if language == "english" then
      SearchBounded(t, ContextRecall) || SearchBounded(t, ContextThisVideo)
      || SearchBounded(t, ContextMentioned) || SearchBounded(t, ContextLastTime)
    else if language == "hindi" then SearchBounded(t, HindiContextRecall) || SearchBounded(t, HindiContextThisVideo)
    else if language == "spanish" then SearchBounded(t, SpanishContextRecall) || SearchBounded(t, SpanishContextThisVideo)
    else false
  }

  const PodcastOnShow: seq<string> :=
    ["on this show", "on this podcast", "on this episode", "on the show", "on the podcast", "on the episode"]
  const PodcastGuest: seq<string> := ["my guest", "our guest", "the guest"]
  const PodcastTalking: seq<string> :=
    ["we're talking about", "we're talking with"]
  const PodcastThanks: seq<string> :=
    ["thanks for having", "thanks for joining"]
  const HindiPodcastOnShow: seq<string> :=
    ["इस शो पर", "इस पॉडकास्ट पर", "इस एपिसोड पर"]
  const HindiPodcastGuest: seq<string> := ["मेरे अतिथि", "हमारे अतिथि"]
  const SpanishPodcastOnShow: seq<string> :=
    ["en este show", "en este podcast", "en este episodio", "en el show", "en el podcast", "en el episodio"]
  const SpanishPodcastGuest: seq<string> := ["mi invitado", "nuestro invitado"]

  predicate HasPodcastContextDependency(text: string, language: string)
  {
    var t := Lower(text);
    if language == "english" then
      SearchBounded(t, PodcastOnShow) || SearchBounded(t, PodcastGuest)
      || SearchBounded(t, PodcastTalking) || SearchBounded(t, PodcastThanks)
    else if language == "hindi" then SearchBounded(t, HindiPodcastOnShow) || SearchBounded(t, HindiPodcastGuest)
    else if language == "spanish" then SearchBounded(t, SpanishPodcastOnShow) || SearchBounded(t, SpanishPodcastGuest)
    else false
  }

  const BrandingCalls: seq<string> := ["subscribe", "like", "comment", "follow", "check out"]
  const BrandingMine: seq<string> :=
    ["my channel", "my podcast", "my show", "my course"]
  const BrandingLink: seq<string> :=
    ["link in bio", "link in description"]
  const HindiBrandingCalls: seq<string> := ["सब्सक्राइब", "लाइक", "कमेंट", "फॉलो"]
  const HindiBrandingMine: seq<string> :=
    ["मेरे चैनल", "मेरे पॉडकास्ट", "मेरे शो"]
  const SpanishBrandingCalls: seq<string> := ["suscríbete", "like", "comenta", "sigue"]
  const SpanishBrandingMine: seq<string> :=
    ["mi canal", "mi podcast", "mi show"]

  /** What the branding rule inspects: the text before the first '.', else the first 100 characters. */
  function BrandingWindow(text: string): (r: string)
    ensures r <= text
    ensures '.' !in r
    ensures '.' !in text ==> |r| <= 100
  {
    if '.' in text then BeforeFirst(text, '.') else Prefix(text, 100)
  }

  predicate HasBrandingBeforeInsight(text: string, language: string)
  {
    var t := Lower(BrandingWindow(text));
    if language == "english" then
      SearchBounded(t, BrandingCalls) || SearchBounded(t, BrandingMine) || SearchBounded(t, BrandingLink)
    else if language == "hindi" then SearchBounded(t, HindiBrandingCalls) || SearchBounded(t, HindiBrandingMine)
    else if language == "spanish" then SearchBounded(t, SpanishBrandingCalls) || SearchBounded(t, SpanishBrandingMine)
    else false
  }

  /*
   * The filter.
   */

  const ReasonNoTopic := "No clear topic/problem in first 2s, Requires external context"
  const ReasonMidThought := "Starts mid-thought"
  const ReasonPronouns := "Unclear pronouns without reference"
  const ReasonExplanation := "Explanation without stated question/problem"
  const ReasonContext := "Requires external context"
  const ReasonPodcast := "Requires podcast context"
  const ReasonBranding := "Branding appears before insight"

  /** Which of the seven rules fire for one candidate. */
  datatype Verdicts = Verdicts(noTopic: bool, midThought: bool, pronouns: bool, explanation: bool,
                               context: bool, podcast: bool, branding: bool)

  /** The seven rules for a candidate's text, given its opening text. */
  function Judge(text: string, opening: string, language: string): (v: Verdicts)
    ensures v.pronouns ==> language == "english"
  {
    Verdicts(
      !HasClearTopicOrHook(opening, language),
      StartsMidThought(text, language),
      language == "english" && HasUnclearPronouns(opening),
      IsExplanationWithoutQuestion(text, language),
      RequiresContext(text, language),
      HasPodcastContextDependency(text, language),
      HasBrandingBeforeInsight(text, language))
  }

  /** One reason per firing rule, in rule order. */
  function ReasonsFor(v: Verdicts): (r: seq<string>)
    ensures |r| <= 7
  {
    (if v.noTopic then [ReasonNoTopic] else [])
    + (if v.midThought then [ReasonMidThought] else [])
    + (if v.pronouns then [ReasonPronouns] else [])
    + (if v.explanation then [ReasonExplanation] else [])
    + (if v.context then [ReasonContext] else [])
    + (if v.podcast then [ReasonPodcast] else [])
    + (if v.branding then [ReasonBranding] else [])
  }

  /** The reasons collected for one candidate. */
  function Reasons(m: Moment, transcript: seq<Segment>, language: string): seq<string>
  {
    ReasonsFor(Judge(m.text, OpeningText(transcript, m.start), language))
  }

  /** The language every candidate is judged in: the first candidate's, by default English. */
  function FilterLanguage(candidates: seq<Moment>): string
    requires |candidates| > 0
  {
    candidates[0].language.GetOr("english")
  }

  /** The per-candidate reasons as a function value, shared by the kept list and the log. */
  function ReasonsOf(transcript: seq<Segment>, language: string): Moment -> seq<string>
  {
    (m: Moment) => Reasons(m, transcript, language)
  }

  /** The candidates without reasons, for any way of computing reasons. */
  function KeptBy(candidates: seq<Moment>, reasonsOf: Moment -> seq<string>): seq<Moment>
  {
    Select(candidates, NoReasons(reasonsOf))
  }

  function NoReasons(reasonsOf: Moment -> seq<string>): Moment -> bool
  {
    (m: Moment) => reasonsOf(m) == []
  }

  function Kept(candidates: seq<Moment>, transcript: seq<Segment>, language: string): seq<Moment>
  {
    KeptBy(candidates, ReasonsOf(transcript, language))
  }

  /** One entry of the rejection summary. */
  datatype Rejection = Rejection(momentId: nat, reasons: seq<string>, textPreview: string)

  /** The rejection summary for any way of computing reasons: one entry per candidate with reasons. */
  function RejectionLogBy(candidates: seq<Moment>, reasonsOf: Moment -> seq<string>): (r: seq<Rejection>)
    ensures forall j :: 0 <= j < |r| ==> r[j].momentId < |candidates|
  {
    if |candidates| == 0 then []
    else
      var n := |candidates| - 1;
      var m := candidates[n];
      RejectionLogBy(candidates[..n], reasonsOf)
      + (if reasonsOf(m) != [] then [Rejection(n, reasonsOf(m), Prefix(m.text, 100))] else [])
  }

  function RejectionLog(candidates: seq<Moment>, transcript: seq<Segment>, language: string): seq<Rejection>
  {
    RejectionLogBy(candidates, ReasonsOf(transcript, language))
  }

  /** Judging one more candidate appends it to the survivors or one entry to the log. */
  lemma FilterStep(candidates: seq<Moment>, idx: nat, transcript: seq<Segment>, language: string)
    requires idx < |candidates|
    ensures var m := candidates[idx]; var reasons := Reasons(m, transcript, language);
      Kept(candidates[..idx + 1], transcript, language)
        == Kept(candidates[..idx], transcript, language) + (if reasons == [] then [m] else [])
      && RejectionLog(candidates[..idx + 1], transcript, language)
        == RejectionLog(candidates[..idx], transcript, language)
          + (if reasons != [] then [Rejection(idx, reasons, Prefix(m.text, 100))] else [])
  {
    assert candidates[..idx + 1][..idx] == candidates[..idx];
    assert candidates[..idx + 1][idx] == candidates[idx];
  }

  /** filter_moments_aggressively, returning the survivors and the rejection summary it prints. */
  method FilterMomentsAggressively(candidates: seq<Moment>, transcript: seq<Segment>)
    returns (filtered: seq<Moment>, log: seq<Rejection>)
    ensures candidates == [] ==> filtered == [] && log == []
    ensures candidates != [] ==>
      filtered == Kept(candidates, transcript, FilterLanguage(candidates))
      && log == RejectionLog(candidates, transcript, FilterLanguage(candidates))
  {
    if |candidates| == 0 {
      return [], [];
    }
    var language := candidates[0].language.GetOr("english");
    filtered, log := [], [];
    for idx := 0 to |candidates|
      invariant filtered == Kept(candidates[..idx], transcript, language)
      invariant log == RejectionLog(candidates[..idx], transcript, language)
    {
      var moment := candidates[idx];
      var text := moment.text;
      var opening := TextInTimeWindow(transcript, moment.start, moment.start + 2.0);
      if opening == "" {
        opening := TextInTimeWindow(transcript, moment.start, moment.start + 4.0);
      }
      var rejectionReasons := ReasonsFor(Judge(text, opening, language));
      assert rejectionReasons == Reasons(moment, transcript, language);
      FilterStep(candidates, idx, transcript, language);
      if rejectionReasons == [] {
        filtered := filtered + [moment];
      } else {
        log := log + [Rejection(idx, rejectionReasons, Prefix(text, 100))];
      }
    }
    assert candidates[..|candidates|] == candidates;
  }

  /*
   * Properties.
   */

  /**
   * The survivors are an order-preserving subsequence of the candidates, and a
   * candidate survives exactly when it collected no rejection reason.
   */
  lemma KeptExactlyWithoutReasons(candidates: seq<Moment>, transcript: seq<Segment>, language: string)
    ensures var p := SelectedPositions(candidates, NoReasons(ReasonsOf(transcript, language)));
      var r := Kept(candidates, transcript, language);
      |r| == |p|
      && (forall j :: 0 <= j < |p| ==> p[j] < |candidates| && r[j] == candidates[p[j]])
      && (forall i, j :: 0 <= i < j < |p| ==> p[i] < p[j])
      && (forall k :: 0 <= k < |candidates| ==> (k in p <==> Reasons(candidates[k], transcript, language) == []))
  {
    SelectIsSubsequence(candidates, NoReasons(ReasonsOf(transcript, language)));
  }

  /**
   * Every candidate is either kept or logged: the two counts add up, each log
   * entry names a rejected candidate with its reasons, and the ids ascend.
   */
  lemma {:induction false} LogPartition(candidates: seq<Moment>, reasonsOf: Moment -> seq<string>)
    ensures |KeptBy(candidates, reasonsOf)| + |RejectionLogBy(candidates, reasonsOf)| == |candidates|
    ensures forall j :: 0 <= j < |RejectionLogBy(candidates, reasonsOf)| ==>
      RejectionLogBy(candidates, reasonsOf)[j].reasons == reasonsOf(candidates[RejectionLogBy(candidates, reasonsOf)[j].momentId])
      && RejectionLogBy(candidates, reasonsOf)[j].reasons != []
    ensures forall i, j :: 0 <= i < j < |RejectionLogBy(candidates, reasonsOf)| ==>
      RejectionLogBy(candidates, reasonsOf)[i].momentId < RejectionLogBy(candidates, reasonsOf)[j].momentId
  {
    if |candidates| > 0 {
      var n := |candidates| - 1;
      var init := candidates[..n];
      LogPartition(init, reasonsOf);
      var log', log := RejectionLogBy(init, reasonsOf), RejectionLogBy(candidates, reasonsOf);
      assert forall j :: 0 <= j < |log'| ==> log[j] == log'[j] && candidates[log'[j].momentId] == init[log'[j].momentId];
    }
  }

  /** The filter's own partition: kept and logged candidates add up to all candidates. */
  lemma KeptAndRejectedPartition(candidates: seq<Moment>, transcript: seq<Segment>, language: string)
    ensures |Kept(candidates, transcript, language)| + |RejectionLog(candidates, transcript, language)| == |candidates|
    ensures var log := RejectionLog(candidates, transcript, language);
      forall j :: 0 <= j < |log| ==>
        log[j].reasons == Reasons(candidates[log[j].momentId], transcript, language) && log[j].reasons != []
  {
    LogPartition(candidates, ReasonsOf(transcript, language));
  }

  /** One of the first three words is a pronoun. */
  predicate PronounInFirstThree(words: seq<string>)
  {
    exists j :: 0 <= j < 3 && j < |words| && words[j] in Pronouns
  }

  /** Looking up each pronoun's first index amounts to looking at the first three words. */
  lemma PronounTooEarlyInFirstThree(words: seq<string>)
    ensures PronounTooEarly(Prefix(words, 10)) <==> PronounInFirstThree(words)
  {
    var window := Prefix(words, 10);
    assert forall j :: 0 <= j < 3 && j < |words| ==> j < |window| && window[j] == words[j];
    if PronounTooEarly(window) {
      var k :| 0 <= k < |Pronouns| && Pronouns[k] in window && IndexOfWord(window, Pronouns[k]) < 3;
      var j := IndexOfWord(window, Pronouns[k]);
      assert words[j] == Pronouns[k];
      assert words[j] in Pronouns;
    }
    if exists j :: 0 <= j < 3 && j < |words| && words[j] in Pronouns {
      var j :| 0 <= j < 3 && j < |words| && words[j] in Pronouns;
      var k :| 0 <= k < |Pronouns| && Pronouns[k] == words[j];
      assert window[j] == Pronouns[k];
      assert IndexOfWord(window, Pronouns[k]) <= j;
    }
  }

  /**
   * has_unclear_pronouns fires exactly when one of the pronouns is among the
   * first three words of the text before its first '.'.
   */
  lemma UnclearPronounsInFirstThreeWords(text: string)
    ensures HasUnclearPronouns(text) <==> PronounInFirstThree(Words(Lower(BeforeFirst(text, '.'))))
  {
    PronounTooEarlyInFirstThree(Words(Lower(FirstSentence(text))));
  }

  /** ASCII lowering keeps digits where they are, so a digit in the lowered text was a digit before. */
  lemma LowerKeepsDigits(s: string)
    ensures HasDigit(Lower(s)) ==> HasDigit(s)
  {
    if HasDigit(Lower(s)) {
      var i :| 0 <= i < |s| && IsDigit(Lower(s)[i]);
      assert IsDigit(s[i]);
    }
  }

  lemma SuffixKeepsDigits(s: string, t: string)
    requires HasDigit(t) && |t| <= |s| && t == s[|s| - |t|..]
    ensures HasDigit(s)
  {
    var i :| 0 <= i < |t| && IsDigit(t[i]);
    assert s[|s| - |t| + i] == t[i];
  }

  /**
   * The counted-list patterns (English `^\s*\d+\s+(ways|...)`, Hindi
   * `\d+\s*(तरीके|...)`) never decide the topic rule: they need a digit, and a
   * digit is accepted before any pattern is tried.
   */
  lemma CountedPatternsNeedDigit(text: string)
    ensures NumberThenAt(LStrip(Lower(text)), 0, 1, TopicCounted) ==> HasDigit(text)
    ensures SearchNumberThen(Lower(text), 0, HindiCounted) ==> HasDigit(text)
  {
    var t := Lower(text);
    if NumberThenAt(LStrip(t), 0, 1, TopicCounted) {
      NumberThenHasDigit(LStrip(t), 0, 1, TopicCounted);
      LStripDropsSpace(t);
      SuffixKeepsDigits(t, LStrip(t));
      LowerKeepsDigits(text);
    }
    if SearchNumberThen(t, 0, HindiCounted) {
      var i :| 0 <= i <= |t| && NumberThenAt(t, i, 0, HindiCounted);
      NumberThenHasDigit(t, i, 0, HindiCounted);
      LowerKeepsDigits(text);
    }
  }

  /**
   * For a language without a pattern table the topic rule is the universal
   * checks plus the substantive-statement fallback.
   */
  lemma TopicRuleWithoutTable(text: string, language: string)
    requires language != "english" && language != "hindi" && language != "spanish"
    ensures HasClearTopicOrHook(text, language) <==>
      |Strip(text)| >= 5 && ('?' in text || '？' in text || HasDigit(text) || Substantive(text))
  {
  }

  /** Languages without a pattern table are never rejected by rules 2, 5, 6 and 7. */
  lemma NoTableNoPatternRules(text: string, language: string)
    requires language != "english" && language != "hindi" && language != "spanish"
    ensures !StartsMidThought(text, language) && !RequiresContext(text, language)
    ensures !HasPodcastContextDependency(text, language) && !HasBrandingBeforeInsight(text, language)
  {
  }

  /**
   * The reason list names exactly the rules that fired, each once, and is
   * empty exactly when no rule fired.
   */
  lemma ReasonsNameFiringRules(v: Verdicts)
    ensures ReasonsFor(v) == [] <==>
      !(v.noTopic || v.midThought || v.pronouns || v.explanation || v.context || v.podcast || v.branding)
    ensures ReasonNoTopic in ReasonsFor(v) <==> v.noTopic
    ensures ReasonMidThought in ReasonsFor(v) <==> v.midThought
    ensures ReasonPronouns in ReasonsFor(v) <==> v.pronouns
    ensures ReasonExplanation in ReasonsFor(v) <==> v.explanation
    ensures ReasonContext in ReasonsFor(v) <==> v.context
    ensures ReasonPodcast in ReasonsFor(v) <==> v.podcast
    ensures ReasonBranding in ReasonsFor(v) <==> v.branding
  {
  }

  /** Rule 3 is only applied to English candidates. */
  lemma PronounRuleOnlyForEnglish(m: Moment, transcript: seq<Segment>, language: string)
    requires language != "english"
    ensures ReasonPronouns !in Reasons(m, transcript, language)
  {
    ReasonsNameFiringRules(Judge(m.text, OpeningText(transcript, m.start), language));
  }

  /** The branding rule sees at least the first n characters when none of them is a '.'. */
  lemma BrandingWindowKeepsPrefix(text: string, n: nat)
    requires n <= |text| && n <= 100 && '.' !in text[..n]
    ensures text[..n] <= BrandingWindow(text)
  {
    assert forall k :: 0 <= k < n ==> text[k] != '.' by {
      forall k | 0 <= k < n ensures text[k] != '.' {
        assert text[..n][k] == text[k];
      }
    }
  }

  /**
   * Rule 7 rejects any candidate opening with "Subscribe ", such as
   * "Subscribe to my channel before we continue.".
   */
  lemma SubscribeIsBranding(m: Moment, transcript: seq<Segment>)
    requires |m.text| >= 10 && m.text[..10] == "Subscribe "
    ensures ReasonBranding in Reasons(m, transcript, "english")
  {
    var text := m.text;
    BrandingWindowKeepsPrefix(text, 10);
    var w := BrandingWindow(text);
    assert w[..10] == "Subscribe ";
    var t := Lower(w);
    assert t[..9] == "subscribe" && t[9] == ' ';
    assert BoundedAt(t, 0, BrandingCalls[0]);
    assert HasBrandingBeforeInsight(text, "english");
    ReasonsNameFiringRules(Judge(m.text, OpeningText(transcript, m.start), "english"));
  }

  /** Every character of s is one of those listed. */
  predicate DrawnFrom(s: string, letters: string)
  {
    forall i :: 0 <= i < |s| ==> s[i] in letters
  }

  /** Texts written in these letters hold none of the English problem keywords that need a w, o, y or i. */
  lemma LetterKeywordsAbsent(s: string)
    requires DrawnFrom(s, "abcdehkmrstu. ")
    ensures !Contains(s, "why") && !Contains(s, "how") && !Contains(s, "what") && !Contains(s, "problem")
    ensures !Contains(s, "reason") && !Contains(s, "solution") && !Contains(s, "key") && !Contains(s, "mistake")
  {
    assert 'w' !in s && 'o' !in s && 'y' !in s && 'i' !in s;
    MissingCharNotContained(s, "why", 0);
    MissingCharNotContained(s, "how", 1);
    MissingCharNotContained(s, "what", 0);
    MissingCharNotContained(s, "problem", 2);
    MissingCharNotContained(s, "reason", 4);
    MissingCharNotContained(s, "solution", 1);
    MissingCharNotContained(s, "key", 2);
    MissingCharNotContained(s, "mistake", 1);
  }

  /** Such a text without "re" and "tr" holds no English problem keyword at all. */
  lemma NoProblemKeywordIn(s: string)
    requires DrawnFrom(s, "abcdehkmrstu. ")
    requires forall i :: 0 <= i < |s| - 1 ==> !(s[i] == 'r' && s[i + 1] == 'e')
    requires forall i :: 0 <= i < |s| - 1 ==> !(s[i] == 't' && s[i + 1] == 'r')
    ensures !ContainsAny(s, ProblemKeywords("english"))
  {
    LetterKeywordsAbsent(s);
    MissingPairNotContained(s, "secret", 3);
    MissingPairNotContained(s, "truth", 0);
  }

  const MarketCrash: string := "because the market crashed."

  /** The example sentence has no question mark. */
  lemma MarketCrashNoQuestion()
    ensures '?' !in "Because the market crashed." && '？' !in "Because the market crashed."
  {
  }

  /** Lowering the example sentence gives MarketCrash. */
  lemma MarketCrashLowered()
    ensures Lower("Because the market crashed.") == MarketCrash
  {
  }

  /** The lowered sentence is already stripped. */
  lemma MarketCrashStripped()
    ensures Strip(MarketCrash) == MarketCrash
  {
  }

  /** The lowered sentence opens with "because " and is written in few letters. */
  lemma MarketCrashLetters()
    ensures StartsWithThenSpace(MarketCrash, BareConnectors)
    ensures DrawnFrom(MarketCrash, "abcdehkmrstu. ")
  {
    assert LiteralAt(MarketCrash, 0, BareConnectors[0]) && IsSpace(MarketCrash[7]);
  }

  /** The lowered sentence has no "re" and no "tr". */
  lemma MarketCrashPairs()
    ensures forall i :: 0 <= i < |MarketCrash| - 1 ==> !(MarketCrash[i] == 'r' && MarketCrash[i + 1] == 'e')
    ensures forall i :: 0 <= i < |MarketCrash| - 1 ==> !(MarketCrash[i] == 't' && MarketCrash[i + 1] == 'r')
  {
  }

  /**
   * "Because the market crashed." opens with a bare connector, has no question
   * mark and names no problem keyword, so it is an explanation without a
   * stated question, and an English candidate with that text gets the reason.
   */
  lemma BecauseIsExplanation(m: Moment, transcript: seq<Segment>)
    requires m.text == "Because the market crashed."
    ensures IsExplanationWithoutQuestion(m.text, "english")
    ensures ReasonExplanation in Reasons(m, transcript, "english")
  {
    MarketCrashNoQuestion();
    MarketCrashLowered();
    MarketCrashStripped();
    MarketCrashLetters();
    MarketCrashPairs();
    NoProblemKeywordIn(MarketCrash);
    assert IsExplanationWithoutQuestion(m.text, "english");
    ReasonsNameFiringRules(Judge(m.text, OpeningText(transcript, m.start), "english"));
  }

  /** A regex alternative `(i|we|...)` without a closing \b also matches the start of a longer word. */
  lemma SoItStartsMidThought()
    ensures StartsMidThought("So it goes", "english")
  {
    var lower := Lower("So it goes");
    assert lower == "so it goes";
    assert LStrip(lower) == lower;
    var rest := lower[2..];
    assert rest == " it goes";
    assert LStrip(rest) == "it goes";
    var tail := MidThoughtSoWho[1..];
    assert tail == [["i", "we", "he", "she", "they", "you"]];
    assert tail[0][0] == "i" && "i" <= "it goes";
    assert MatchSpaced("it goes", tail);
    assert MidThoughtSoWho[0][0] == "so" && "so" <= lower;
    assert MatchSpaced(lower, MidThoughtSoWho);
  }
}
