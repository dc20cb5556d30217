# Clipify moment discovery and ranking, modelled in Dafny

Clipify turns a long video into short clips. This project models the part of
it that decides *which* moments become clips, together with the small pure
helpers around that decision. The model covers:

- windowing a timed transcript into candidate moments (`Extractor`);
- the seven-rule rejection filter (`Filter`);
- the four-part scorer and its stable ranking (`Scorer`);
- hook detection on a moment's opening seconds (`HookDetector`);
- statement-strength analysis (`StatementAnalyzer`);
- the offline provider's heuristics (`LocalProvider`);
- the pipeline's quality floor, stage checks and options (`Clipify`).

It also covers the signals that feed the ranking path:

- energy spikes in an audio loudness trace, and the viral-keyword fusion (`EnergyAnalyzer`);
- silence regions and the speech between them (`SilenceDetector`);
- word-level timing, sentences and caption phrases (`WordAligner`).

Finally it covers the helpers:

- transcript summaries and chunked-transcription arithmetic (`Transcriber`);
- SubRip timestamps, aspect-ratio dispatch and metadata defaults (`Formatter`);
- frame-rate parsing, the quality table and clip naming (`ClipProcessor`);
- Netscape cookie-file serialisation (`Downloader`);
- template captions (`Captions`).

Shared modules hold the Python primitives the source relies on:

- `Wrappers`: Option and Result;
- `Strings`: split, strip, lower, join and substring tests;
- `Numbers`: floor division and modulo on reals, `round` with ties to even, `int()` and `float()` on strings, fixed-point formatting;
- `Patterns`: the fixed regular expressions, as predicates;
- `Selection`: comprehensions with an `if`;
- `Sorting`: Python's stable sort with `reverse=True`;
- `Tally`: dictionary counters;
- `Transcript`: segments and moment records.

Loops in the source are methods whose `ensures` tie their results to
specification functions. The properties the code promises are lemmas over
those functions:

- bounds;
- order-preserving subsequences;
- "kept exactly when" rules;
- permutations with stable order;
- tilings;
- round trips.

Seconds and scores are `real`. Text is `string`.

The model keeps the code's behaviour where it differs from what a reader
might expect, and proves it:

- Touching silence regions are not merged. A zero-length region can leave overlapping regions unmerged (`SilenceDetector.PointRegionKeepsOverlap`).
- A first word longer than the phrase limit yields an empty phrase (`WordAligner.LongFirstWordPhrases`).
- The metadata reader of the formatter and the one of the clip processor disagree on a zero frame-rate denominator: 30 against 0 (`Formatter.RateDefaultsDiffer`).
- With a height but no width, the metadata reports the aspect ratio 16 over the height, because 16 is the default for a missing width (`Formatter.AspectDefaults`).
- The ending check in the offline clarity heuristic comes after every return, so it never runs (`LocalProvider.ClaritySpec`).
- `detect_viral_keywords` scores only 0 or 10 (`EnergyAnalyzer.KeywordScoreBinary`).

## Model

| member | source | states |
|---|---|---|
| Clipify.ValidateVideoInfo | clipify.py:78-112 | The issues are listed in the source's order, and the video is valid exactly when it is long enough (60 s), tall enough (480 rows) and has audio |
| Clipify.IssuesExactly | clipify.py:93-110 | No issue exactly when all three checks pass, one issue per failed check |
| Clipify.MissingKeysRejected | clipify.py:89-101 | A missing duration or height reads as 0 and is rejected |
| Clipify.FallbackRejected | clipify.py:89-105 | The fallback metadata fails all three checks |
| Clipify.StatsSpec | clipify.py:241-246 | The stats count the segments, give 0 words and 0 average for an empty transcript, average the word count over max(1, n) segments, and stay within the largest segment's word count |
| Clipify.QualityFloorSpec | clipify.py:318-319 | At most 10 moments, those scoring at least 6.5, in order; a passing moment is left out only when 10 earlier ones were taken |
| Clipify.FirstBelow | clipify.py:318 | The moments before the first one below the floor all pass |
| Clipify.RankedPassersArePrefix | clipify.py:318 | In a list ranked by score the passing moments form a prefix |
| Clipify.RankedFloor | clipify.py:318-319 | For a ranked list the floor keeps the first min(10, passing) moments |
| Clipify.SelectTopSpec | clipify.py:283-325 | The run stops for no candidates, for an empty filter result (never in auto mode), or for nothing at the floor, each exactly then; otherwise it keeps the floor of the scored list with the stage sizes |
| Clipify.ExtractStageSpec | clipify.py:340-364 | Clip extraction stops the run with "Failed to extract any video clips" exactly when the cut of every chosen moment fails; otherwise it hands on between one and as many distinct paths as moments, each the path of a moment whose cut succeeded |
| Clipify.ClampClips | clipify.py:489 | min(10, max(5, n)) lies in [5,10] and keeps n already there |
| Clipify.ParseArguments | clipify.py:470-499 | The argument loop returns ConfigUpTo over all arguments |
| Clipify.TargetClipsRange | clipify.py:475-491 | The target is the default 8 or lies in [5,10] |
| Clipify.NoClipsFlagKeepsDefault | clipify.py:475-491 | Without --clips the target stays 8 |
| Clipify.AutoModeIff | clipify.py:474-482 | Auto mode is on exactly when some argument after the mode is --auto |
| Clipify.ClipsAtEnd | clipify.py:487-491 | A trailing --clips n sets the clamped n, or keeps the earlier target when n is not an integer |
| Extractor.DetectLanguageOrder | moments/extractor.py:344-352 | Each language is reported exactly when its script is present and no earlier-checked script is; pure ASCII text is English; the answer is one of the four languages |
| Extractor.FormatTimeParts | moments/extractor.py:337-341 | The MM:SS text is two zero-padded fields, seconds below 60, minutes*60+seconds lying within one second below the input |
| Extractor.FormatTimeShape | moments/extractor.py:337-341 | Below 100 minutes the text is five characters dd:dd, the tens of seconds at most 5, and reads back to the whole seconds not above the input |
| Extractor.TextBetweenTimes | moments/extractor.py:328-334 | The loop returns GetTextBetweenTimes |
| Extractor.TextBetweenTimesSpec | moments/extractor.py:328-334 | The text is the stripped join of the texts of exactly the segments starting at or after start and ending at or before end, in transcript order |
| Extractor.RowWindows | moments/extractor.py:172 | The inner range yields max(0, e-i-1) windows |
| Extractor.RowWindowsAt | moments/extractor.py:172 | Window k of row i is (i, i+1+k) |
| Extractor.ScanWindows | moments/extractor.py:170-172 | Every window scanned starts before k and ends strictly after its start and before min(start+20, n) |
| Extractor.ScanWindowsComplete | moments/extractor.py:170-172 | Every such window is scanned |
| Extractor.ScanWindowsOrdered | moments/extractor.py:170-172 | Windows are scanned in lexicographic order of (start, end) |
| Extractor.SpanTextsOfSlice | moments/extractor.py:180-182 | The text parts of a window are the texts of the segments i..j |
| Extractor.ExtractCandidateMoments | moments/extractor.py:159-195 | The nested loops return CandidateMoments |
| Extractor.ScanRow | moments/extractor.py:172-193 | The inner loop collects the candidates of row i |
| Extractor.ExtendRow | moments/extractor.py:172-193 | One inner iteration extends the row's candidates by the next window |
| Extractor.ConsiderWindow | moments/extractor.py:173-193 | One window yields a candidate exactly when its duration lies in the limits and its text has more than 20 words |
| Extractor.JoinWindow | moments/extractor.py:180-183 | The text loop returns the stripped, space-joined window text |
| Extractor.CandidateMomentsSpec | moments/extractor.py:159-195 | At most 50 candidates; each from a qualifying window, in scan order; when fewer than 50, every qualifying window is among them |
| Extractor.CandidateFields | moments/extractor.py:173-193 | A candidate's start and end are its window's, its duration their difference and within the limits, more than 20 words, language detected, no score |
| Extractor.MarkerOpensWithNewline | moments/extractor.py:319 | The truncation marker starts with a newline |
| Extractor.ListingLine | moments/extractor.py:315-316 | A listing line starts with '[' |
| Extractor.FitFrom | moments/extractor.py:314-323 | The lines kept are the longest prefix whose total length stays within the budget |
| Extractor.PrepareTranscriptForAi | moments/extractor.py:309-325 | The loop returns PreparedTranscript |
| Extractor.ListWithin | moments/extractor.py:311-323 | The loop returns ListingLines |
| Extractor.ListingLinesSpec | moments/extractor.py:311-323 | The first k segments' lines whose total fits, then the marker exactly when some segment did not fit; the next line would have overflowed |
| Extractor.PreparedTranscriptSpec | moments/extractor.py:309-325 | The prompt listing is the newline join of those lines |
| Extractor.CompositeBounds | moments/extractor.py:119-131 | With viral score and hook strength in [0,10] the composite lies in [1.4,7.3], so the cap at 10 never applies |
| Extractor.BuildEnergyMoment | moments/extractor.py:112-140 | One loop step builds EnergyMoment |
| Extractor.ExtractAutoMoments | moments/extractor.py:22-156 | The energy path returns AutoMoments |
| Extractor.EnergyMomentSpec | moments/extractor.py:114-139 | An energy moment keeps the spike's times, duration and keywords, its text is the text between the times, its fields are in range, and its reason is EnergyReason of the spike's level and keywords |
| Extractor.EnergyReasonSpec | moments/extractor.py:136 | The reason reads "Energy: ", the level rounded half to even, "/100, Keywords: ", then every keyword exactly once joined by ", " (in some order), or "none" when there is no keyword |
| Strings.Listing | moments/extractor.py:136 | A set of strings listed as a sequence: as long as the set, every element of the set exactly once and nothing else |
| Extractor.DetectedLevelsWithin | moments/extractor.py:80-85 | Detected spikes have energy level in [0,100], and before fusion with the transcript no keyword and viral score 0 |
| Extractor.CombinedWithin | moments/extractor.py:96 | Fusing with keywords keeps those bounds |
| Extractor.RankedMomentsSpec | moments/extractor.py:110-143 | The ranked moments are the moments of the spikes reordered by a permutation, each spike's moment exactly once, with duration within the limits, sorted by score descending with equal scores in spike order |
| Extractor.SelectedRanked | moments/extractor.py:102-143 | At most targetClips moments, exactly one for each spike get_top_viral_moments selects from the fused spikes, of suitable duration, highest score first with ties in selection order |
| Extractor.AutoMomentsSpec | moments/extractor.py:87-150 | No spike gives the rule-based candidates; otherwise exactly the moments of the spikes get_top_viral_moments selects from the fused spikes, each once, ranked by score with ties in selection order, in range and tagged as energy moments |
| Filter.TimeWindowText | moments/filter.py:110-128 | An empty transcript or a window with start >= end gives ""; otherwise the stripped space-join, in transcript order, of the texts of the segments with start < end and end > start |
| Filter.TextInTimeWindow | moments/filter.py:116-128 | The one-pass collection loop computes exactly TimeWindowText, empty cases included |
| Filter.IndexOfWord | moments/filter.py:223 | list.index: the position of the first occurrence of the word |
| Filter.BrandingWindow | moments/filter.py:319 | The branding rule looks at a prefix of the text with no '.', of at most 100 characters when the text has no '.' |
| Filter.Judge | moments/filter.py:62-88 | The pronoun rule can only fire for an English candidate |
| Filter.ReasonsFor | moments/filter.py:62-88 | A candidate collects at most seven reasons, one per rule |
| Filter.RejectionLogBy | moments/filter.py:91-98 | Every rejection entry names a candidate position |
| Filter.FilterMomentsAggressively | moments/filter.py:10-107 | No candidates give no survivors and no log; otherwise every candidate is judged in the language of the first candidate (English by default), survivors and rejection log are the spec functions Kept and RejectionLog |
| Filter.KeptExactlyWithoutReasons | moments/filter.py:43-94 | The survivors are an order-preserving subsequence of the candidates (ascending positions), and a candidate survives exactly when its reason list is empty |
| Filter.LogPartition | moments/filter.py:91-98 | Kept and logged candidates add up to all candidates; each log entry carries the reasons of the candidate it names, which are non-empty; the logged ids ascend |
| Filter.KeptAndRejectedPartition | moments/filter.py:91-98 | The same partition for the filter's own reasons: each log entry holds exactly that candidate's non-empty reasons |
| Filter.PronounTooEarlyInFirstThree | moments/filter.py:216-227 | Looking up each pronoun's first index among the first ten words and testing index < 3 is the same as asking whether one of the first three words is a pronoun |
| Filter.UnclearPronounsInFirstThreeWords | moments/filter.py:210-227 | has_unclear_pronouns is true exactly when one of this/that/it/they/them/these/those is among the first three words of the lowered text before the first '.' |
| Filter.CountedPatternsNeedDigit | moments/filter.py:140-165 | The counted-list patterns (English and Hindi) can only match a text with a digit, which the universal check already accepts |
| Filter.TopicRuleWithoutTable | moments/filter.py:136-179 | For a language with no pattern table, rule 1 passes exactly when the stripped text has 5+ characters and has a '?', a '？', a digit, or is substantive (10+ characters, 3+ words, 2+ non-filler words longer than 2) |
| Filter.NoTableNoPatternRules | moments/filter.py:202-207 | Languages without a pattern table never trigger rules 2, 5, 6 and 7 |
| Filter.ReasonsNameFiringRules | moments/filter.py:62-91 | The reason list is empty exactly when no rule fired, and holds each rule's reason exactly when that rule fired |
| Filter.PronounRuleOnlyForEnglish | moments/filter.py:71-72 | A non-English candidate never gets the unclear-pronoun reason |
| Filter.BrandingWindowKeepsPrefix | moments/filter.py:319 | When the first n <= 100 characters hold no '.', the branding rule sees all of them |
| Filter.SubscribeIsBranding | moments/filter.py:86-88 | An English candidate whose text opens with "Subscribe " gets the reason "Branding appears before insight" |
| Filter.BecauseIsExplanation | moments/filter.py:230-255 | "Because the market crashed." is an explanation without a stated question: it has no question mark, holds no English problem keyword, and opens with "because" and a space after lowering and stripping; an English candidate with that text therefore gets the reason "Explanation without stated question/problem" |
| Filter.SoItStartsMidThought | moments/filter.py:189 | "So it goes" starts mid-thought: the pattern's pronoun alternative has no word boundary, so "i" matches the start of "it" |
| Scorer.ScoreContextClarity | moments/scorer.py:60-84 | The method's loop over the vague references computes ContextClarity |
| Scorer.ContextClarityFacts | moments/scorer.py:66-84 | The clarity score lies in [0,10]; it is 10 for every language but English; for English without question or digit bonus it is max(0, 10 - 1.5 per vague reference found); a reference is found exactly when it is one of this/that/it/they/those/these and a substring of the lowered first 20 words |
| Scorer.HookTable | moments/scorer.py:103-121 | Every hook pattern of every language is worth between 2.0 and 3.0 points |
| Scorer.FirstMatching | moments/scorer.py:122-125 | The pattern chosen is the first one in list order that matches |
| Scorer.ScoreHookStrength | moments/scorer.py:87-127 | The method's loop with its break computes HookStrength |
| Scorer.HookStrengthFacts | moments/scorer.py:91-127 | The hook score lies in [5,10]; beyond the base 5, +2 for a '?' and +1.5 for a digit in the first ten words, the pattern bonus is 0 exactly when no pattern matches, and otherwise the points of the first matching pattern only |
| Scorer.StandaloneUnderstanding | moments/scorer.py:130-146 | The standalone score lies in [8,10]; a '?' gives at least 9.5, and 10 with a sentence ending; without '?' it is 9 exactly when the stripped text ends a sentence |
| Scorer.DurationAdjustmentTable | moments/scorer.py:157-165 | The duration term is 0 below 30 s, +2 on [30,45], +1 on (45,55], 0 on (55,60] (the +1 and the -1 cancel) and -1 above 60 |
| Scorer.ScoreRetentionPotential | moments/scorer.py:149-184 | The method's pattern loop computes RetentionPotential |
| Scorer.RetentionFacts | moments/scorer.py:155-184 | The retention score lies in [0,10]; at most four engagement patterns count; with none and no pacing bonus it is 7 plus the duration term; a pattern counts exactly when it matches the lowered text |
| Scorer.ScoreAndRankMoments | moments/scorer.py:9-57 | The method computes ScoreAndRank |
| Scorer.ScoreInRange | moments/scorer.py:46-50 | Each of the four sub-scores lies in [0,10], and so does the rounded mean stored as score |
| Scorer.ScoredCopy | moments/scorer.py:48-50 | A scored moment is the input moment with only scores and score changed, and the score lies in [0,10] |
| Scorer.ScoreAndRankSpec | moments/scorer.py:29-57 | Empty input gives []; otherwise the output is a permutation of the scored inputs (all judged in the first moment's language), every score in [0,10], every other key unchanged, sorted by score descending with equal scores in input order |
| HookDetector.HookTypeNamesFacts | text_signals/hook_detector.py:28 | Every hook type has a name in the list of type names, and the names are distinct |
| HookDetector.CollectOpeningText | text_signals/hook_detector.py:62-78 | The collection loop computes OpeningText over the window [start, end] |
| HookDetector.OpeningTextIsJoined | text_signals/hook_detector.py:65-78 | The opening text is the stripped space-join of the texts of the segments inside or overlapping the window, in transcript order |
| HookDetector.QuestionSignal | text_signals/hook_detector.py:93-114 | A question signal exists exactly when the text holds '?', '？' or '¿' or its lowered form starts with a question word; its strength is 10 and its confidence 1.0 with a mark, else 0.85 |
| HookDetector.FirstFound | text_signals/hook_detector.py:125-136 | A word reported found is in the list and occurs in the text |
| HookDetector.FirstFoundNone | text_signals/hook_detector.py:125-136 | Nothing is found exactly when no word of the list occurs in the text |
| HookDetector.FirstTierHit | text_signals/hook_detector.py:125-138 | A tier hit names a word that occurs in the text |
| HookDetector.FirstTierHitSpec | text_signals/hook_detector.py:125-138 | A hit carries the strength of the tier its word comes from; there is no hit exactly when no tier has a word in the text |
| HookDetector.ScanWords | text_signals/hook_detector.py:126-136 | The inner loop with its break computes FirstFound |
| HookDetector.ScanTiers | text_signals/hook_detector.py:125-138 | The nested loops with their breaks compute FirstTierHit |
| HookDetector.FirstTierDecides | text_signals/hook_detector.py:125-138 | The first tier with a hit decides the result, whatever later tiers hold |
| HookDetector.SurprisingTiers | text_signals/hook_detector.py:117-123 | The surprising tiers are worth between 7 and 9 |
| HookDetector.CtaTiers | text_signals/hook_detector.py:163-168 | The call-to-action categories are worth between 6.5 and 8 |
| HookDetector.SurprisingSignal | text_signals/hook_detector.py:125-138 | A surprising signal has strength in [7,9] and confidence 0.85 |
| HookDetector.CtaSignal | text_signals/hook_detector.py:170-184 | A call-to-action signal has strength in [6.5,8] and confidence 0.75 |
| HookDetector.DataMatchesHasDigit | text_signals/hook_detector.py:142-147 | Every data pattern needs a digit in the text |
| HookDetector.DataPatterns | text_signals/hook_detector.py:141-148 | The data patterns are worth between 7 and 9, and the last one matches any number |
| HookDetector.FirstData | text_signals/hook_detector.py:151-160 | The data pattern chosen is in the table and matches |
| HookDetector.FirstDataNone | text_signals/hook_detector.py:151-160 | No data pattern is chosen exactly when none matches |
| HookDetector.ScanData | text_signals/hook_detector.py:151-160 | The loop with its break computes FirstData |
| HookDetector.DataSignal | text_signals/hook_detector.py:151-160 | A data signal has strength in [7,9] and confidence 0.9 |
| HookDetector.DataSignalIffDigit | text_signals/hook_detector.py:141-160 | A data signal exists exactly when the lowered text holds a digit |
| HookDetector.EmotionalSignal | text_signals/hook_detector.py:187-202 | An emotional signal has strength 7.5 and confidence 0.7 |
| HookDetector.EmotionalSignalIff | text_signals/hook_detector.py:193-202 | An emotional signal exists exactly when some trigger occurs in the lowered text |
| HookDetector.UrgencySignal | text_signals/hook_detector.py:205-215 | An urgency signal has strength 7.0 and confidence 0.7, and exists exactly when some urgency word occurs in the lowered text |
| HookDetector.DetectSignals | text_signals/hook_detector.py:89-215 | The six detector stages append their signals as Signals states |
| HookDetector.Penalize | text_signals/hook_detector.py:225-227 | The vague-start penalty scales a signal's strength × confidence key by 0.8 |
| HookDetector.Penalized | text_signals/hook_detector.py:223-227 | Penalizing keeps one signal per signal |
| HookDetector.ApplyVaguePenalty | text_signals/hook_detector.py:223-227 | The penalty loop computes Penalized |
| HookDetector.BestIndex | text_signals/hook_detector.py:230-232 | max() by strength × confidence picks a maximal signal, the first among equals |
| HookDetector.PenaltyKeepsWinner | text_signals/hook_detector.py:223-232 | The penalty never changes which signal wins |
| HookDetector.AnalyzeOpening3s | text_signals/hook_detector.py:39-241 | analyze_opening_3s computes OpeningSignal, with the window end defaulting to start + 3 |
| HookDetector.SignalsShape | text_signals/hook_detector.py:89-215 | At most six signals, at most one per family, in family order, all detected; a question signal can only be the first and is first exactly when the question detector fired |
| HookDetector.QuestionWins | text_signals/hook_detector.py:93-114 | Whenever the question detector fires the result is a question, of strength 10 (8 after the vague-start penalty) and the question's confidence |
| HookDetector.WinnerStrength | text_signals/hook_detector.py:218-241 | The winning strength lies in [0,10], is 0 exactly for 'none', at least 5.2 otherwise, and 'none' has confidence 1.0 |
| HookDetector.VerdictStrength | text_signals/hook_detector.py:39-241 | The same bounds for analyze_opening_3s on any transcript and window |
| HookDetector.EmptyWindowIsNone | text_signals/hook_detector.py:80-87 | With no segment in the window the result is 'none' with strength 0 and confidence 1 |
| HookDetector.RejectByHookBounds | text_signals/hook_detector.py:259-272 | A threshold above 10 rejects everything; a threshold in (0, 5.2] rejects exactly the moments without a hook |
| HookDetector.PriorityLevel | text_signals/hook_detector.py:312-321 | REJECT exactly below 6, EXCELLENT exactly from 9 |
| HookDetector.PriorityMonotone | text_signals/hook_detector.py:312-321 | The priority level is monotone in the strength |
| HookDetector.ContextualAdjustments | text_signals/hook_detector.py:324-338 | At most one adjustment; a bonus exactly for a question hook in education, a penalty exactly for a hook weaker than 8 in entertainment, within ±0.5 |
| HookDetector.AnalyzeHookWithContext | text_signals/hook_detector.py:275-309 | The verdict is REJECT exactly when the priority is REJECT; an adjusted strength exists exactly for a non-empty context and stays within 0.5 of the strength |
| HookDetector.BatchAnalyzeHooks | text_signals/hook_detector.py:341-389 | batch_analyze_hooks computes BatchSpec |
| HookDetector.BatchAnalyzeWith | text_signals/hook_detector.py:364-389 | The batch loop, for any per-moment analysis, computes BatchOf over the analyzed copies |
| HookDetector.TypeCounts | text_signals/hook_detector.py:382-384 | The hook-type counts add up to the number of moments |
| HookDetector.BatchOfFacts | text_signals/hook_detector.py:364-389 | accepted + rejected = total; the type counts sum to total; accepted are exactly the moments with strength >= threshold, rejected exactly the others; the average lies in [0,10] |
| HookDetector.SplitFacts | text_signals/hook_detector.py:375-378 | The threshold splits the moments into two parts that add up |
| HookDetector.MeanStrengthWithin | text_signals/hook_detector.py:386-387 | The average strength lies in [0,10] |
| HookDetector.AnalyzedByWell | text_signals/hook_detector.py:367-373 | An analyzed moment is a copy of the input with only hook_analysis added |
| HookDetector.AnalyzedWell | text_signals/hook_detector.py:365-373 | The copy carries the detected strength and differs from the input only in hook_analysis |
| HookDetector.BatchSpecFacts | text_signals/hook_detector.py:341-389 | The batch facts for the real detector, and each input moment reappears as a copy differing only in hook_analysis |
| StatementAnalyzer.LengthFactor | text_signals/statement_analyzer.py:76-86 | The length factor lies in [0,10] |
| StatementAnalyzer.LengthFactorShape | text_signals/statement_analyzer.py:76-86 | It is 10 exactly for 50..60 words; it rises below 10 words and on 10..60, falls from 60 on but stays at least 5, and drops from 9 words to 10 |
| StatementAnalyzer.NumberCountZero | text_signals/statement_analyzer.py:92 | No digit run is found exactly when the text has no digit |
| StatementAnalyzer.SpecificityRaw | text_signals/statement_analyzer.py:89-109 | The specificity factor lies in [0,10] |
| StatementAnalyzer.SpecificityParts | text_signals/statement_analyzer.py:89-109 | No number, proper noun, long word or example indicator gives 0; a number with an example indicator gives at least 4; neither gives at most 4 |
| StatementAnalyzer.FillerCount | text_signals/statement_analyzer.py:128-129 | At most six filler words can be counted |
| StatementAnalyzer.Clarity | text_signals/statement_analyzer.py:115-139 | The clarity factor lies in [0,10] |
| StatementAnalyzer.ClarityFacts | text_signals/statement_analyzer.py:115-139 | Clarity is at least 1; it is 10 exactly without vague start, with at most two filler words and no long unbroken sentence; a vague start caps it at 6 |
| StatementAnalyzer.HasSubjectVerbStructure | text_signals/statement_analyzer.py:281-298 | The word loop returns exactly SubjectVerb: at least three words and a common verb strictly between the first and the last word |
| StatementAnalyzer.Completeness | text_signals/statement_analyzer.py:142-164 | The completeness factor lies in [0,10] |
| StatementAnalyzer.CompletenessParts | text_signals/statement_analyzer.py:142-164 | A proper ending gives at least 5 and anything above 5 needs one; 10 exactly for proper ending, no trailing marker in the last 20 characters and subject-verb structure; the value is one of 0, 2, 3, 5, 7, 8, 10 |
| StatementAnalyzer.ActionableRaw | text_signals/statement_analyzer.py:167-190 | The actionable factor lies in [0,10] |
| StatementAnalyzer.ActionableParts | text_signals/statement_analyzer.py:167-190 | Without instructional or outcome words it is at most 4; it is 10 exactly with four or more action verbs and both kinds of words |
| StatementAnalyzer.VocabularyRatio | text_signals/statement_analyzer.py:199-200 | The share of distinct words lies in [0,1] |
| StatementAnalyzer.Engagement | text_signals/statement_analyzer.py:196-223 | The engagement factor lies in [0,10] |
| StatementAnalyzer.Readability | text_signals/statement_analyzer.py:226-241 | The readability factor lies in [6,10] |
| StatementAnalyzer.NoMarkersNotComplex | text_signals/statement_analyzer.py:235-237 | A text without clause markers is never penalised as complex |
| StatementAnalyzer.RawFactors | text_signals/statement_analyzer.py:66-241 | All seven factors lie in their bounds |
| StatementAnalyzer.WeightedWithin | text_signals/statement_analyzer.py:244-256 | Since the weights sum to 1, the weighted score of factors in [0,10] lies in [0,10] and is 10 when every factor is 10 |
| StatementAnalyzer.ContextAdjustment | text_signals/statement_analyzer.py:301-326 | The context adjustment lies in [0, 1] |
| StatementAnalyzer.ContextAdjustmentFacts | text_signals/statement_analyzer.py:301-326 | A bonus needs type educational, entertainment or marketing; the full 1.0 comes exactly from educational with clarity >= 8 and actionable >= 7, or marketing with specificity >= 7 and actionable >= 8; entertainment gives at most 0.5 |
| StatementAnalyzer.TierMonotone | text_signals/statement_analyzer.py:264-271 | The tier is monotone in the score; EXCELLENT exactly from 8.5, WEAK exactly below 4.5 |
| StatementAnalyzer.QualityOfFacts | text_signals/statement_analyzer.py:273-278 | The stored score is the rounded overall score, within 0.005 and in range; the tier comes from the unrounded score; at most the first three recommendations, in order |
| StatementAnalyzer.OverallWithin | text_signals/statement_analyzer.py:254-261 | The overall score lies in [0,11], and in [0,10] without context |
| StatementAnalyzer.AnalyzeFacts | text_signals/statement_analyzer.py:40-278 | analyze_statement_strength: score in [0,11] ([0,10] without context), rounded from the overall score, tier from the unrounded score, factors in range, at most three recommendations taken from the front of those generated |
| StatementAnalyzer.AnalysesAt | text_signals/statement_analyzer.py:338-340 | One analysis per statement, each without context |
| StatementAnalyzer.CompareStatements | text_signals/statement_analyzer.py:329-345 | compare_statements computes Compared |
| StatementAnalyzer.CompareWith | text_signals/statement_analyzer.py:336-345 | The loop and sort give the analyses sorted by descending score (stable) |
| StatementAnalyzer.ComparedFacts | text_signals/statement_analyzer.py:329-345 | One result per statement, a permutation of the analyses, sorted by score descending with ties in input order |
| StatementAnalyzer.SortedByScore | text_signals/statement_analyzer.py:343 | The stable descending sort by score, with the permutation that produces it |
| StatementAnalyzer.GetImprovementSuggestions | text_signals/statement_analyzer.py:348-377 | get_improvement_suggestions computes Suggestions |
| StatementAnalyzer.SuggestFor | text_signals/statement_analyzer.py:361-377 | The suggestions for an analysis are SuggestionsOf |
| StatementAnalyzer.AddTips | text_signals/statement_analyzer.py:364-375 | The tip loop appends FactorTips of the weak factors after the recommendations |
| StatementAnalyzer.FactorTipsKnown | text_signals/statement_analyzer.py:369-375 | Every tip is one of the three factor tips |
| StatementAnalyzer.WeakByValueOrdered | text_signals/statement_analyzer.py:367-369 | The weak factors are factors below 6, in ascending order of value |
| StatementAnalyzer.SuggestionsFacts | text_signals/statement_analyzer.py:348-377 | At most five suggestions; exactly the "already meets target" message when the score reaches the target; otherwise the recommendations first, then tips for weak factors |
| StatementAnalyzer.SuggestionsOfFacts | text_signals/statement_analyzer.py:361-377 | The same for any analysis with at most three recommendations |
| LocalProvider.LiteralMatch | ai/local_provider.py:91-94 | A match of one of the literal alternatives lies within the text |
| LocalProvider.DigitsEnd | ai/local_provider.py:139 | \d+ extends over the maximal run of digits |
| LocalProvider.MatchLength | ai/local_provider.py:91-95 | A match of a counted pattern lies within the text |
| LocalProvider.FindAllFromZero | ai/local_provider.py:100 | The scan from i finds nothing exactly when no position from i starts a match |
| LocalProvider.FindAllFromBound | ai/local_provider.py:100 | Non-overlapping matches from i are at most as many as the characters left |
| LocalProvider.FindAllSpec | ai/local_provider.py:100 | len(re.findall) is 0 exactly when no position starts a match, and at most the text's length |
| LocalProvider.SumMarkers | ai/local_provider.py:98-101 | The marker loop returns the sum of each marker's capped points |
| LocalProvider.CheckEnergySpike | ai/local_provider.py:82-107 | _check_energy_spike returns EnergySpike |
| LocalProvider.MarkerSumBounds | ai/local_provider.py:99-101 | Each marker adds between 0 and its cap of 15 |
| LocalProvider.MarkerSumZero | ai/local_provider.py:99-101 | With positive points the sum is 0 exactly when no marker matches |
| LocalProvider.EnergySpikeSpec | ai/local_provider.py:82-107 | The energy factor lies in [0,30], each marker adds at most 15, and it is 0 exactly when no marker matches and no interruption occurs |
| LocalProvider.SumWords | ai/local_provider.py:151-153 | The word loop adds the weight once per word contained |
| LocalProvider.SumCategories | ai/local_provider.py:146-153 | The category loop returns CategorySum |
| LocalProvider.CheckViralKeywords | ai/local_provider.py:109-155 | _check_viral_keywords returns ViralKeywords |
| LocalProvider.WordHitsBounds | ai/local_provider.py:151-153 | A word list adds between 0 and weight times its length |
| LocalProvider.FoundCount | ai/local_provider.py:151-152 | No more words are found than listed |
| LocalProvider.WordHitsCount | ai/local_provider.py:151-153 | A word list adds its weight times the number of its words found |
| LocalProvider.FoundCountZero | ai/local_provider.py:151-152 | None is found exactly when no word is contained |
| LocalProvider.CategorySumBounds | ai/local_provider.py:146-153 | The category sum is not negative and the counted category adds at most 10 |
| LocalProvider.CategoryPointsSpec | ai/local_provider.py:147-153 | A word category adds its weight per word found; the number pattern adds between 0 and 10 |
| LocalProvider.ViralKeywordsSpec | ai/local_provider.py:109-155 | The keyword factor lies in [0,30], and the numbers category is the counted one with at most 10 |
| LocalProvider.SumHooks | ai/local_provider.py:174-177 | The hook loop adds the points of each pattern found |
| LocalProvider.CheckHookPattern | ai/local_provider.py:157-179 | _check_hook_pattern returns HookScore |
| LocalProvider.HookSumSpec | ai/local_provider.py:175-177 | With positive points the sum is not negative and 0 exactly when no pattern is found |
| LocalProvider.HookScoreSpec | ai/local_provider.py:157-179 | The hook factor lies in [0,20] and is 0 exactly when no hook pattern is found |
| LocalProvider.SentencePieceCount | ai/local_provider.py:189 | re.split always yields at least one piece |
| LocalProvider.PacingSpec | ai/local_provider.py:181-204 | The pacing factor lies in [0,10]; 0 for empty text, at least 5 otherwise; without ! or ? it is the length-based part alone |
| LocalProvider.ClaritySpec | ai/local_provider.py:206-221 | The clarity factor is 2, 5 or 10: 10 exactly for 5 to 150 words, 2 exactly below 5 words (the ending check after the returns is unreachable) |
| LocalProvider.CheckFactors | ai/local_provider.py:62-68 | The method computes the five heuristics (energy, keywords, hooks, pacing, clarity) of Factors for the text |
| LocalProvider.FactorsInRanges | ai/local_provider.py:62-68 | The signals lie in their stated ranges: energy and keywords [0,30], hooks [0,20], pacing [0,10], clarity [2,10] |
| LocalProvider.IsViralWorthyLocal | ai/local_provider.py:55-80 | _is_viral_worthy_local returns ViralWorthy |
| LocalProvider.ViralWorthySignals | ai/local_provider.py:71-80 | A viral-worthy moment has some energy, keyword or hook signal; energy plus keywords of 35 suffice; without hooks, energy plus keywords below 25 never pass |
| LocalProvider.SmartFromBounds | ai/local_provider.py:255-273 | For signals in range the smart score lies in [0, 29.325], the base times the hook boost and the length penalty |
| LocalProvider.SmartScoreSpec | ai/local_provider.py:241-273 | The smart score lies in [0,100], never above 29.325, and is the boosted, penalised weighted base |
| LocalProvider.FilterMoments | ai/local_provider.py:30-53 | filter_moments returns LocalFilter |
| LocalProvider.TopPicksSpec | ai/local_provider.py:47-53 | Empty exactly for an empty list; at most 20, all from the first 20; the viral-worthy among the first 20, or the first 10 when none is |
| LocalProvider.LocalFilterSpec | ai/local_provider.py:30-53 | Empty candidates give nothing; the result is empty only when the aggressive filter keeps nothing; at most 20 moments, each a candidate the aggressive filter kept, the viral-worthy ones among its first 20 or else its first 10 |
| LocalProvider.ScoreMoments | ai/local_provider.py:229-239 | score_moments returns ScoreMomentsResult |
| LocalProvider.LocalScoredCopy | ai/local_provider.py:233-237 | A scored moment gains a score in [0, 29.325], the method tag "local_smart", and scoring factors holding its five signals with the tag "local_smart_analysis"; nothing else changes |
| LocalProvider.ScoreMomentsSpec | ai/local_provider.py:229-239 | The scored moments reordered by a permutation, highest score first with ties in input order, every score in range |
| EnergyAnalyzer.MaxOf | moments/energy_analyzer.py:142 | np.max is an upper bound of every element |
| EnergyAnalyzer.MaxOfAt | moments/energy_analyzer.py:142 | and is attained by some element |
| EnergyAnalyzer.MeanWithinMax | moments/energy_analyzer.py:141-142 | The mean of values at least lo lies between lo and their maximum |
| EnergyAnalyzer.BaselineSlice | moments/energy_analyzer.py:114-116 | The slice bounds Python resolves stay within the trace, a negative end counting from the back |
| EnergyAnalyzer.BaselineDefined | moments/energy_analyzer.py:112-116 | For a window at least 0 the slice is max(0, i - w//2) to min(n, i + w//2), and the mean exists (is not NaN) exactly when w >= 2 |
| EnergyAnalyzer.BaselineNonNegative | moments/energy_analyzer.py:116 | The baseline of a non-negative trace is non-negative |
| EnergyAnalyzer.BaselinesAt | moments/energy_analyzer.py:113-116 | Baseline i is the mean of sample i's slice |
| EnergyAnalyzer.RollingBaseline | moments/energy_analyzer.py:112-116 | The baseline loop returns Baselines |
| EnergyAnalyzer.FlagsAt | moments/energy_analyzer.py:125 | Sample i is flagged exactly when it is strictly above its (defined) baseline times the multiplier |
| EnergyAnalyzer.RunEnd | moments/energy_analyzer.py:133-135 | A spike extends over the flagged samples up to the first unflagged one or the end |
| EnergyAnalyzer.RunsSpec | moments/energy_analyzer.py:124-173 | The runs the scan closes are maximal runs of flagged samples, separated and in trace order, and every flagged sample lies in one |
| EnergyAnalyzer.RunsLoud | moments/energy_analyzer.py:148 | When some run exists the trace's maximum is positive, so the division by np.max is defined |
| EnergyAnalyzer.DetectEnergySpikes | moments/energy_analyzer.py:108-183 | detect_energy_spikes over a given trace returns EnergySpikes |
| EnergyAnalyzer.ScanSpikes | moments/energy_analyzer.py:119-173 | The scan loop with its in_spike state returns the spikes of the runs in trace order |
| EnergyAnalyzer.CloseSpike | moments/energy_analyzer.py:137-173 | Closing a spike at a run's end builds the spike of that run |
| EnergyAnalyzer.RatiosWithin | moments/energy_analyzer.py:148-153 | For 0 <= mean <= max <= trace max, the level lies in [0,100] and the confidence in [0,1] |
| EnergyAnalyzer.SpikeOfBounds | moments/energy_analyzer.py:144-154 | A spike runs from its first sample's time to its stop sample's time, duration their difference, level in [0,100], confidence in [0,1], no keywords and zero scores |
| EnergyAnalyzer.SpikesInOrderSpec | moments/energy_analyzer.py:124-173 | Spike j in trace order is made from run j |
| EnergyAnalyzer.SeparatedSpikes | moments/energy_analyzer.py:145-146 | Spikes of separated runs do not overlap in time |
| EnergyAnalyzer.EnergySpikesSpec | moments/energy_analyzer.py:108-183 | An empty trace has no spike; otherwise one spike per maximal run, reordered by a permutation, loudest first with ties in trace order, no two overlapping |
| EnergyAnalyzer.SortedSpikesSpec | moments/energy_analyzer.py:176 | The stable descending sort by level keeps the runs' spikes up to a permutation |
| EnergyAnalyzer.PermutedSpikesApart | moments/energy_analyzer.py:176 | Reordering keeps spikes pairwise disjoint |
| EnergyAnalyzer.HitTotalIsSeven | moments/energy_analyzer.py:314-322 | The score sum is 7 times the applied weight sum |
| EnergyAnalyzer.HitWeightPositive | moments/energy_analyzer.py:314-326 | With positive weights the applied weight is positive exactly when some category hit |
| EnergyAnalyzer.ViralWeightsPositive | moments/energy_analyzer.py:308 | Every category of the viral keyword table has a positive weight |
| EnergyAnalyzer.ScoreBinary | moments/energy_analyzer.py:325-327 | The normalised score min(10, 7*1.5) is 10 with a hit and 0 without |
| EnergyAnalyzer.KeywordScoreBinary | moments/energy_analyzer.py:325-327 | For the viral table the keyword score is 10 exactly when something hit, else 0 |
| EnergyAnalyzer.SetOfSize | moments/energy_analyzer.py:329 | list(set(...)) has at most as many keywords as were found, and is empty exactly when none were |
| EnergyAnalyzer.TextKeywordsSpec | moments/energy_analyzer.py:298-329 | A keyword is exactly what some category contributes to a nonempty text; at most one per category; score 10 with a keyword, 0 without |
| EnergyAnalyzer.CategoryHitSpec | moments/energy_analyzer.py:309-323 | A word category yields its first word contained in the text, or nothing when none is; the data category yields "data" exactly when a digit occurs |
| EnergyAnalyzer.GatherMomentText | moments/energy_analyzer.py:290-296 | The gathering loop concatenates, each with a leading space, the texts of the segments overlapping the moment |
| EnergyAnalyzer.ScanCategories | moments/energy_analyzer.py:303-323 | The category loop gathers the hits, the score sum and the weight sum |
| EnergyAnalyzer.DetectViralKeywords | moments/energy_analyzer.py:272-329 | detect_viral_keywords returns ViralKeywords |
| EnergyAnalyzer.WithKeywordsSpec | moments/energy_analyzer.py:350-366 | Annotating keeps times, level, delta and confidence, stores the moment's keywords and score, and sets a viral score of at most 10, non-negative for a level in [0,100], equal to 0.06 * level without keywords |
| EnergyAnalyzer.CombinedSpec | moments/energy_analyzer.py:332-371 | The annotated spikes reordered by a permutation, highest viral score first, ties in input order |
| EnergyAnalyzer.AnnotateSpike | moments/energy_analyzer.py:352-364 | One loop step returns WithKeywords |
| EnergyAnalyzer.CombineEnergyAndKeywords | moments/energy_analyzer.py:332-371 | The loop and sort return Combined |
| EnergyAnalyzer.SliceTo | moments/energy_analyzer.py:400 | filtered[:count] is a prefix of min(count, n) items, and for a negative count drops that many from the back |
| EnergyAnalyzer.TopViralMomentsSpec | moments/energy_analyzer.py:374-400 | The result is a prefix of the spikes of suitable duration, at most count of them, all of them when count is large enough |
| EnergyAnalyzer.LinearOf | moments/energy_analyzer.py:220 | The linear value lies in [0,100] and for a finite reading is (dB + 40) * 2.5 clamped there |
| EnergyAnalyzer.ReadVolume | moments/energy_analyzer.py:215-223 | One line's reading, None when it lacks the marker or does not parse |
| EnergyAnalyzer.ParseMeanVolumes | moments/energy_analyzer.py:213-223 | The parsing loop returns MeanVolumes |
| EnergyAnalyzer.MeanVolumesSpec | moments/energy_analyzer.py:213-223 | One value in [0,100] per line holding the marker and a parsable reading, in line order; no other line contributes |
| SilenceDetector.OverlapsSpec | audio_analysis/silence_detector.py:31-33 | Two regions overlap exactly when each starts before the other ends; overlap is symmetric and touching regions do not overlap |
| SilenceDetector.MergeSpec | audio_analysis/silence_detector.py:35-42 | Merging is symmetric, its duration is end minus start, its confidence the smaller one; it contains every instant either region contains, and for overlapping regions nothing more |
| SilenceDetector.ParseLinesPrefix | audio_analysis/silence_detector.py:147 | Parsing one more line is one more step of the line parser |
| SilenceDetector.ReadReportLine | audio_analysis/silence_detector.py:148-176 | One loop step over a line: a start line records a pending start, an end line closes the pending start into a region, any other line or a line that does not parse changes nothing |
| SilenceDetector.ParseReportLines | audio_analysis/silence_detector.py:144-178 | The line loop returns the regions of ParseLines |
| SilenceDetector.ParseReport | audio_analysis/silence_detector.py:142-178 | _parse_silence_output returns ParseSilenceOutput |
| SilenceDetector.ParsedRegionsExact | audio_analysis/silence_detector.py:160-166 | Every parsed region has duration end minus start and confidence 1 |
| SilenceDetector.ParseCounts | audio_analysis/silence_detector.py:147-172 | There are no more regions (plus pending start) than start lines, and no more regions than end lines |
| SilenceDetector.ParseLineCases | audio_analysis/silence_detector.py:148-176 | The three cases of one line: a start line replaces the pending start, an end line with a pending start appends its region, everything else leaves the state as it is |
| SilenceDetector.ParsePairs | audio_analysis/silence_detector.py:147-176 | Each region pairs an earlier start line with a later end line holding its two readings, and a pending start comes from the last start line |
| SilenceDetector.MergeInto | audio_analysis/silence_detector.py:188-192 | One merge step leaves a nonempty list at most one longer |
| SilenceDetector.MergeOverlapping | audio_analysis/silence_detector.py:181-194 | The merged list is no longer than the input and empty exactly when it is |
| SilenceDetector.MergePrefix | audio_analysis/silence_detector.py:187-192 | Merging one more region is one more merge step |
| SilenceDetector.MergeOverlappingRegions | audio_analysis/silence_detector.py:181-194 | The merge loop, which rewrites the last element in place, returns MergeOverlapping |
| SilenceDetector.MergeSorted | audio_analysis/silence_detector.py:130-131 | Start-sorted regions of positive length merge into regions of positive length that lie strictly apart |
| SilenceDetector.MergeIntoApart | audio_analysis/silence_detector.py:188-192 | One merge step keeps a list of separated regions separated |
| SilenceDetector.ApartDisjoint | audio_analysis/silence_detector.py:181-194 | Separated regions pairwise do not overlap and their starts increase |
| SilenceDetector.MergeExact | audio_analysis/silence_detector.py:40 | Merging keeps every duration equal to end minus start |
| SilenceDetector.MergeCovers | audio_analysis/silence_detector.py:181-194 | An instant is covered by the merged regions exactly when it is covered by the input |
| SilenceDetector.MergeIntoCovers | audio_analysis/silence_detector.py:188-192 | One step covers what the list and the new region cover |
| SilenceDetector.PointRegionKeepsOverlap | audio_analysis/silence_detector.py:186-192 | Because only the last merged region is compared, a zero-length region between two overlapping ones keeps them apart in the output |
| SilenceDetector.CheckSilenceParameters | audio_analysis/silence_detector.py:88-92 | The parameters pass exactly when the minimum duration is at least 0.1 and the threshold at most -10 dB; the duration check comes first |
| SilenceDetector.SortByStartSpec | audio_analysis/silence_detector.py:130 | The sort by start is a stable permutation that is sorted by start |
| SilenceDetector.DetectSilenceRegions | audio_analysis/silence_detector.py:52-139 | detect_silence_regions over a given report returns DetectSilence |
| SilenceDetector.DetectSilenceSpec | audio_analysis/silence_detector.py:52-139 | It succeeds exactly when the parameters pass; then no more regions than parsed, durations exact, the same instants covered, and separated regions of positive length when the parsed ones have positive length |
| SilenceDetector.PermutedCovers | audio_analysis/silence_detector.py:130 | Reordering regions covers the same instants |
| SilenceDetector.InnerGaps | audio_analysis/silence_detector.py:233-238 | One gap candidate before each silence |
| SilenceDetector.SpeechScanPrefix | audio_analysis/silence_detector.py:233-238 | One more silence is one more scan step |
| SilenceDetector.GetSpeechRegions | audio_analysis/silence_detector.py:197-246 | get_speech_regions over given silences returns SpeechRegions |
| SilenceDetector.SpeechScanGaps | audio_analysis/silence_detector.py:230-238 | The loop keeps the gaps before each silence that are long enough, and ends at the last silence's end |
| SilenceDetector.SpeechRegionsSpec | audio_analysis/silence_detector.py:227-246 | No silence gives the whole video; otherwise the inner gaps and the final gap that are long enough, in order |
| SilenceDetector.SpeechAvoidsSilence | audio_analysis/silence_detector.py:230-246 | For separated silences of positive length no speech region overlaps a silence |
| SilenceDetector.GapAvoidsSilence | audio_analysis/silence_detector.py:233-244 | Each gap lies outside each silence |
| SilenceDetector.SpeechFromReportSpec | audio_analysis/silence_detector.py:197-246 | Speech regions from a report exist exactly when detection succeeds, and never overlap a detected silence when the parsed regions have positive length |
| SilenceDetector.BestThresholdUnique | audio_analysis/silence_detector.py:324-334 | At most one threshold is the recommended one |
| SilenceDetector.HasSmallest | audio_analysis/silence_detector.py:324 | A nonempty set of thresholds has a smallest, the first visited by the sorted loop |
| SilenceDetector.BestAmongStep | audio_analysis/silence_detector.py:329-334 | Visiting a larger threshold replaces the best only when strictly nearer the target |
| SilenceDetector.ConsiderThreshold | audio_analysis/silence_detector.py:325-334 | One loop step keeps the best threshold seen, its distance and its reason |
| SilenceDetector.VisitSmallest | audio_analysis/silence_detector.py:324 | Taking the smallest remaining threshold keeps the visit in ascending order |
| SilenceDetector.TrackedAll | audio_analysis/silence_detector.py:336-340 | After all thresholds the best seen is the recommended one with its reason |
| SilenceDetector.RecommendThreshold | audio_analysis/silence_detector.py:304-340 | No detection gives -40 with "Default threshold"; otherwise the threshold nearest the target, the smallest on ties, with its "Achieves ..." reason |
| SilenceDetector.Midpoint | audio_analysis/silence_detector.py:411 | The midpoint lies between its ends |
| SilenceDetector.SearchWithin | audio_analysis/silence_detector.py:413-433 | The bisection stays within the initial range |
| SilenceDetector.FindOptimalWithin | audio_analysis/silence_detector.py:391-435 | The found threshold lies within the search range |
| SilenceDetector.SearchOptimalThreshold | audio_analysis/silence_detector.py:407-435 | The loop returns FindOptimalThreshold and probes at most five thresholds |
| SilenceDetector.FirstTrimSpec | audio_analysis/silence_detector.py:498-502 | The forward scan finds the first silence that contains the instant and is longer than the maximum, or none when no silence does |
| SilenceDetector.LastTrimSpec | audio_analysis/silence_detector.py:505-509 | The backward scan finds the last such silence, or none |
| SilenceDetector.TrimClipSpec | audio_analysis/silence_detector.py:493-512 | A kept clip shrinks within its bounds and stays of positive length; a clip no silence trims is kept unchanged exactly when it has positive length |
| SilenceDetector.TrimSilenceSpec | audio_analysis/silence_detector.py:475-514 | The result, in order, is the trimmed value of exactly the clips that keep something, each within its clip |
| SilenceDetector.FindFirstTrim | audio_analysis/silence_detector.py:498-502 | The forward loop returns FirstTrim |
| SilenceDetector.FindLastTrim | audio_analysis/silence_detector.py:505-509 | The reversed loop returns LastTrim |
| SilenceDetector.TrimClips | audio_analysis/silence_detector.py:491-514 | The clip loop returns TrimSilenceFromClips |
| WordAligner.TokenizeText | alignment/word_aligner.py:100-117 | The tokenizer loop returns Tokens |
| WordAligner.FindTokensAreWords | alignment/word_aligner.py:110-111 | The matches of \S+ followed by an optional mark are exactly the whitespace-separated words |
| WordAligner.TokensAreWords | alignment/word_aligner.py:100-117 | The tokens are the whitespace-separated words of the text, each nonempty and without spaces, so stripping changes none |
| WordAligner.Syllables | alignment/word_aligner.py:193-228 | At least one syllable |
| WordAligner.EstimateSyllables | alignment/word_aligner.py:193-228 | The vowel-group loop with the silent-e and -le corrections returns Syllables |
| WordAligner.VowelGroupsBound | alignment/word_aligner.py:206-216 | There are at most about half as many vowel groups as letters, and none exactly when no letter is a vowel |
| WordAligner.SyllablesBounds | alignment/word_aligner.py:200-228 | The estimate lies between 1 and the cleaned word's length, and is 1 for a word without vowels |
| WordAligner.AlignEvenly | alignment/word_aligner.py:120-139 | The even loop returns EvenStamps |
| WordAligner.EvenSpec | alignment/word_aligner.py:120-139 | One stamp per word, with its word and punctuation flag, starting at the rounded slot start; each ends where the next starts; the first starts at the rounded start, the last ends at the rounded end; ordered for a duration at least 0 |
| WordAligner.EvenOrdered | alignment/word_aligner.py:129-135 | For a duration at least 0 every stamp starts no later than it ends |
| WordAligner.DataOf | alignment/word_aligner.py:151-164 | A word's data keeps the word and weighs at least 1 |
| WordAligner.TotalWeightAtLeast | alignment/word_aligner.py:165 | The total weight is at least the number of words, so the division by it is defined |
| WordAligner.WeighWord | alignment/word_aligner.py:152-164 | One weighing step returns DataOf |
| WordAligner.WeighWords | alignment/word_aligner.py:148-165 | The weighing loop returns the word data and their total weight |
| WordAligner.Distributed | alignment/word_aligner.py:168-184 | The distribution loop yields one stamp per word processed |
| WordAligner.Distribute | alignment/word_aligner.py:168-184 | The distribution loop, carrying the current time, returns Distributed |
| WordAligner.WithLastEnd | alignment/word_aligner.py:187-188 | Resetting the last end keeps the number of stamps |
| WordAligner.AlignProportional | alignment/word_aligner.py:142-190 | _align_proportional returns ProportionalStamps |
| WordAligner.ClockTelescopes | alignment/word_aligner.py:173-184 | After k words the clock is start plus the share of the first k weights |
| WordAligner.ClockReachesEnd | alignment/word_aligner.py:173-184 | After every word the clock has reached start plus duration |
| WordAligner.ClockMonotone | alignment/word_aligner.py:173-184 | The clock never runs backwards for a duration at least 0 |
| WordAligner.ProportionalEnds | alignment/word_aligner.py:178-188 | The first stamp starts at the rounded start and the last ends at the rounded start plus duration |
| WordAligner.ProportionalAt | alignment/word_aligner.py:176-182 | Stamp i keeps word i's word, syllables and flag, confidence 1, and starts at the rounded clock |
| WordAligner.ProportionalContiguous | alignment/word_aligner.py:178-184 | Each stamp ends where the next starts |
| WordAligner.ProportionalOrdered | alignment/word_aligner.py:173-188 | Each stamp starts no later than it ends for a duration at least 0 |
| WordAligner.ProportionalSpec | alignment/word_aligner.py:142-190 | Total weight at least the word count; stamp i keeps word i and its data; stamps contiguous from the rounded start to the rounded end; ordered for a duration at least 0 |
| WordAligner.AlignSegmentWords | alignment/word_aligner.py:68-95 | One segment step returns AlignSegment |
| WordAligner.AlignWordsToTimestamps | alignment/word_aligner.py:39-97 | One aligned segment per segment, each AlignSegment of it |
| WordAligner.SpanSpec | alignment/word_aligner.py:85-90 | The stamps of a segment with words and positive length cover it contiguously and in order |
| WordAligner.StrippedHasWords | alignment/word_aligner.py:68-82 | A nonempty stripped text has a token, so the empty-token branch cannot be taken |
| WordAligner.TimedSpec | alignment/word_aligner.py:87-90 | Either timing gives one stamp per word, contiguous, from the rounded start to the rounded end, ordered when the duration is at least 0 |
| WordAligner.AlignSegmentShape | alignment/word_aligner.py:68-95 | A segment is copied unchanged when its stripped text is empty or its end is not after its start; otherwise it gains the timed words of its stripped text |
| WordAligner.AlignSegmentSpec | alignment/word_aligner.py:67-95 | The segment is kept, no boundaries are added, words are added exactly when the text is nonempty and the end is after the start, and then they cover the segment in order |
| WordAligner.Boundaries | alignment/word_aligner.py:264-271 | A nonempty word list has boundaries |
| WordAligner.NearestBoundaries | alignment/word_aligner.py:269-271 | The extend loop returns BothEnds |
| WordAligner.BothEndsAt | alignment/word_aligner.py:269-271 | Boundaries 2i and 2i+1 are word i's start and end |
| WordAligner.BoundariesSpec | alignment/word_aligner.py:264-271 | 'start' lists the starts, 'end' the ends, any other direction both ends of every word in order |
| WordAligner.ClosestIndex | alignment/word_aligner.py:274 | The chosen boundary is an index of the list |
| WordAligner.ClosestIndexSpec | alignment/word_aligner.py:274 | min with a key picks a boundary nearest the timestamp, the first of the nearest |
| WordAligner.SnapToWordBoundary | alignment/word_aligner.py:236-280 | snap_to_word_boundary returns Snap |
| WordAligner.SnapSpec | alignment/word_aligner.py:260-280 | No words leave the timestamp unchanged; the result is the timestamp or a boundary within the maximum distance; when some boundary is within it, the result is a nearest boundary |
| WordAligner.SentenceScan | alignment/word_aligner.py:291-304 | The open sentence starts at or before the words scanned |
| WordAligner.SentenceBoundaries | alignment/word_aligner.py:283-311 | get_sentence_boundaries returns Sentences |
| WordAligner.SentenceScanSpec | alignment/word_aligner.py:294-304 | The closed sentences tile the scanned words up to the open one, each closed at a sentence end, and no word between the open start and the scan ends a sentence |
| WordAligner.SentencesWithSpec | alignment/word_aligner.py:291-311 | Sentences are contiguous, each timed by its first and last word with no sentence end inside; all but the last end at a sentence end |
| WordAligner.SentencesSpec | alignment/word_aligner.py:283-311 | The same for the end marks . ! ? : ; |
| WordAligner.BreakFrom | alignment/word_aligner.py:349-352 | The look-back yields a break point after its floor and at most i |
| WordAligner.BreakPoint | alignment/word_aligner.py:345-352 | The break point lies between the phrase start and i |
| WordAligner.FindBreakPoint | alignment/word_aligner.py:345-352 | The look-back loop returns BreakPoint |
| WordAligner.BreakPointSpec | alignment/word_aligner.py:345-352 | Without preference or with at most one word in the phrase the break is at i; otherwise the loop looks back at most three words: it breaks after the nearest punctuated word there, or at i when there is none |
| WordAligner.BreakFromSpec | alignment/word_aligner.py:349-352 | The look-back finds the nearest punctuated word in its range, or gives i |
| WordAligner.PhraseScan | alignment/word_aligner.py:338-359 | The open phrase starts at or before the words scanned, strictly before once one word is scanned |
| WordAligner.PhraseBoundaries | alignment/word_aligner.py:314-367 | get_phrase_boundaries returns Phrases |
| WordAligner.PhraseScanSpec | alignment/word_aligner.py:338-359 | The closed phrases are contiguous up to the open one, each timed by its first word's start and the end of the word before its limit (words[-1] for limit 0) |
| WordAligner.PhrasesSpec | alignment/word_aligner.py:332-367 | No words give no phrase; otherwise contiguous phrases from 0 to n, the last nonempty, and an empty phrase only where a single word exceeds the maximum |
| WordAligner.LongFirstWordPhrases | alignment/word_aligner.py:340-359 | A first word longer than the maximum yields an empty (0, 0) phrase timed with words[-1], the last word |
| WordAligner.WithSentences | alignment/word_aligner.py:393-396 | Adding sentence boundaries keeps the segment, its words and its phrases |
| WordAligner.WithPhrases | alignment/word_aligner.py:399-406 | Adding phrase boundaries keeps the segment, its words and its sentences |
| WordAligner.AddSentenceBoundaries | alignment/word_aligner.py:393-396 | The sentence loop annotates every segment |
| WordAligner.AddPhraseBoundaries | alignment/word_aligner.py:399-406 | The phrase loop annotates every segment |
| WordAligner.AlignTranscript | alignment/word_aligner.py:370-408 | One result per segment: its alignment, annotated as requested |
| WordAligner.AnnotatedSpec | alignment/word_aligner.py:390-408 | Segment and words are kept; sentences are added exactly when requested and the segment has words; phrases likewise, with maximum 4 seconds and punctuation preferred |
| WordAligner.FindWordsInRange | alignment/word_aligner.py:437-467 | The loop returns WordsInRange |
| WordAligner.WithinOverlaps | alignment/word_aligner.py:458-465 | A word of positive length within the range overlaps it |
| WordAligner.FullWithinAny | alignment/word_aligner.py:437-467 | For words of positive length the fully contained words are the overlapping words that lie within the range |
| WordAligner.ZeroLengthWordContainedNotOverlapping | alignment/word_aligner.py:458-465 | A zero-length word at the range's end is contained but does not overlap |
| WordAligner.ExtractTextAtTime | alignment/word_aligner.py:411-434 | The loop returns TextAtTime |
| WordAligner.OverlapTextsAreFound | alignment/word_aligner.py:429-432 | The words selected are the words of find_words_in_range without full overlap |
| WordAligner.TextAtTimeSpec | alignment/word_aligner.py:411-434 | The text is the words overlapping the range, joined by spaces |
| WordAligner.GetWordAtTime | alignment/word_aligner.py:470-485 | The loop returns WordAt |
| WordAligner.WordAtSpec | alignment/word_aligner.py:470-485 | None exactly when no word is spoken at the instant; otherwise the first such word |
| Transcriber.TextAtTime | core/transcriber.py:296-302 | The loop returns the stripped, space-joined texts of the segments overlapping the range |
| Transcriber.SummarySpec | core/transcriber.py:305-325 | An empty transcript gives zeros and no start or end; otherwise the segment count, the word total, an average with average times count equal to the total, the first start, the last end, and a duration of last end minus first start |
| Transcriber.SummaryDurationNonNegative | core/transcriber.py:316 | A transcript whose first segment starts no later than its last one has a duration at least 0 |
| Transcriber.ChunkCountCeiling | core/transcriber.py:136 | The chunk count is the ceiling of the duration over 300 s: 0 for an empty file, otherwise the chunks just cover the duration |
| Transcriber.ChunksTile | core/transcriber.py:143-145 | The chunks start at 0, are nonempty, follow each other without gap, and the last ends at the total duration |
| Transcriber.TranscribeChunks | core/transcriber.py:119-187 | The chunk loop, with failures skipped, returns the segments of ScanChunks over all chunks |
| Transcriber.LastSuccess | core/transcriber.py:187 | The last successful chunk before k is a successful chunk before k |
| Transcriber.LastSuccessIsLast | core/transcriber.py:187 | and no later chunk before k succeeded |
| Transcriber.OffsetIsLastSuccessEnd | core/transcriber.py:177-187 | The offset after k chunks is the end of the last successful chunk, 0 if none succeeded |
| Transcriber.ScanSegmentOrigin | core/transcriber.py:174-181 | Each collected segment is some answer segment of a successful chunk, shifted by the offset in force then |
| Transcriber.PlacedSegmentOrigin | core/transcriber.py:143-181 | In the corrected placement each segment is shifted by its own chunk's start |
| Transcriber.AllSucceededPlacesChunks | core/transcriber.py:143-187 | When every chunk succeeds the written loop and the corrected placement agree, and the offset is the previous chunk's end |
| Transcriber.SkippedChunkMisplacesLaterOnes | core/transcriber.py:156-187 | With 900 s, chunk 1's cut failing and each answer one segment, the loop places chunk 2's segment at +300 s while its chunk starts at 600 s |
| Formatter.SrtClockSpec | core/formatter.py:226-231 | The hour, minute, second and millisecond fields are in range and the time they denote is the input rounded down to the millisecond |
| Formatter.PadThreeDigits | core/formatter.py:234 | Padding a number below 1000 to three places gives its hundreds, tens and units digits |
| Formatter.ClockShape | core/formatter.py:234 | Joining two-digit hours, minutes and seconds and three-digit milliseconds gives a 12-character HH:MM:SS,mmm text |
| Formatter.ClockTextShape | core/formatter.py:234 | An in-range clock prints as HH:MM:SS,mmm with a comma before the milliseconds |
| Formatter.SrtTimestampShape | core/formatter.py:226-234 | Any time from 0 up to 100 hours prints as 12 characters, digits apart from the colons and the comma |
| Formatter.Dimensions | core/formatter.py:129-136 | A known aspect ratio has a positive target height |
| Formatter.DimensionsSpec | core/formatter.py:129-136 | Exactly the four ratios 9:16, 16:9, 1:1 and 4:5 have target sizes, and each size has its ratio's proportions |
| Formatter.Abs | core/formatter.py:140 | The absolute value is non-negative and equals the input or its negation |
| Formatter.ChooseFilterSpec | core/formatter.py:137-148 | Scaling exactly when the ratios are within 0.01, a letterbox exactly for a wider source, a blurred pad exactly for a taller one |
| Formatter.FilterFor | core/formatter.py:129-148 | A filter is chosen exactly when the aspect ratio is known; otherwise the lookup fails |
| Formatter.WideSourceFilters | core/formatter.py:137-148 | A 16:9 source is only scaled for 16:9 and letterboxed for 9:16, 1:1 and 4:5 |
| Formatter.FirstVideoFinds | core/formatter.py:81-84 | The first stream typed 'video' is chosen when every earlier stream has another type |
| Formatter.FirstVideoMissingType | core/formatter.py:81-84 | A stream with no codec type before any video stream makes the lookup fail |
| Formatter.AspectDefaults | core/formatter.py:106 | With no width and height the ratio is 16/9; with only a height it is 16 over the height, not 1920 over it |
| Formatter.MissingRateIsThirty | core/formatter.py:87-88 | A stream without r_frame_rate reads as 30 fps |
| Formatter.RateDefaultsDiffer | core/formatter.py:89-95 | A zero denominator gives 30 fps here but 0 fps in the clip processor's parser |
| Formatter.MetadataDefaults | core/formatter.py:102-108 | The metadata falls back to 1920 by 1080 and 30 fps field by field, and the ratio is computed from the raw width and height |
| Formatter.MetadataFallback | core/formatter.py:76-117 | A failed probe, a stream missing its type, or a duration that does not parse all give the fixed fallback metadata |
| Formatter.RatioTag | core/formatter.py:40 | The aspect ratio's tag in an output name has the same length and no colon |
| Formatter.FirstUnknownKept | core/formatter.py:39-54 | Once an unknown format is met in the list, the first unknown format of the whole list is that one |
| Formatter.FirstUnknownNone | core/formatter.py:39-54 | No format is unknown exactly when every format has target dimensions |
| Formatter.FormatOneClip | core/formatter.py:39-57 | The inner loop fails at the first unknown format, and otherwise appends the clip's rendered path to the list of each format it rendered in |
| Formatter.FormatAll | core/formatter.py:34-57 | The clip loop fails exactly when there is a clip and an unknown format, and otherwise leaves the lists of the first n clips |
| Formatter.FormatClipsMultiPlatform | core/formatter.py:22-59 | The whole operation, with 9:16 and 16:9 as the default formats, zipped to the shorter of clips and moments, equals Formatted |
| Formatter.UnknownFormatFails | core/formatter.py:136 | An unknown format fails the operation whenever there is a clip to format |
| Formatter.NoClipsNoPaths | core/formatter.py:32-34 | With no clips or no moments, every format maps to an empty list |
| Formatter.ClipOutputsOnce | core/formatter.py:39-54 | With distinct formats a clip adds its path to format f once if it rendered there and never otherwise |
| Formatter.ListedSpec | core/formatter.py:32-54 | A format's list holds, in clip order, the paths clip_NN_tag.mp4 of exactly the clips that rendered in that format |
| Formatter.DuplicateFormatListedTwice | core/formatter.py:32-54 | A format given twice gets each rendered clip listed twice under one key |
| ClipProcessor.SplitFraction | core/clip_processor.py:183 | A rate with one slash splits into its numerator and denominator |
| ClipProcessor.ParseFraction | core/clip_processor.py:181-189 | A fraction of two finite numbers gives their ratio, or the default for a zero denominator |
| ClipProcessor.ParseRateDefaults | core/clip_processor.py:179-194 | An empty rate, one with two or more slashes, or a fraction with an unparsable part gives the default; a rate without slash gives its float value or the default |
| ClipProcessor.DigitsFraction | core/clip_processor.py:181-187 | A fraction of digit strings gives the ratio of their values, or the default for a zero denominator |
| ClipProcessor.MissingRateIsZero | core/clip_processor.py:180 | A missing rate reads as 0/1, which is 0 |
| ClipProcessor.FallbackVideoInfo | core/clip_processor.py:209-222 | The fallback metadata has every number 0 and both codecs "unknown" |
| ClipProcessor.QualityFallback | core/clip_processor.py:101-107 | An unknown quality uses the medium settings (CRF 23, preset fast); every quality gives one of the three table entries |
| ClipProcessor.PadIntValue | core/clip_processor.py:31 | The zero-padded index reads back as the index |
| ClipProcessor.ClipNameInjective | core/clip_processor.py:31 | Distinct indices give distinct clip names |
| ClipProcessor.ClipNameTwoDigits | core/clip_processor.py:31 | Below 100 the name is clip_ followed by the two decimal digits and _raw.mp4 |
| ClipProcessor.ExtractClips | core/clip_processor.py:14-51 | The clip loop returns Extracted |
| ClipProcessor.ExtractedSpec | core/clip_processor.py:28-51 | At most one path per moment, in moment order; clip k's path is the output directory with name k+1, and it is listed exactly when the stream copy or the re-encode succeeded |
| ClipProcessor.ExtractedDistinct | core/clip_processor.py:30-46 | No two extracted clips share a path |
| Downloader.Expires | core/downloader.py:156-164 | A present expiry that converts to a non-negative number is written as that number; a missing or negative one as 0 |
| Downloader.ConvertCookies | core/downloader.py:125-180 | The conversion loop gives the lines of Converted: failure for a document that is not a list or holds a non-record, the header and the cookie lines otherwise |
| Downloader.CookieLinesFailed | core/downloader.py:151 | Once a prefix of the list fails to convert, the whole list fails |
| Downloader.ConvertedFails | core/downloader.py:139-140 | A document that is not a list fails, and a list fails exactly when some entry is not a record |
| Downloader.CookieLinesCollect | core/downloader.py:150-174 | On a list of records, the cookie lines are the lines of the usable cookies in list order |
| Downloader.Records | core/downloader.py:150 | A list of records has one record entry per cookie, in order |
| Downloader.ConvertedSpec | core/downloader.py:147-174 | The file is the two comment lines and a blank line, then in list order the tab-joined fields of exactly the cookies with a name and a domain |
| Downloader.LineFields | core/downloader.py:174 | When no text field holds a tab, a cookie line splits back on tabs into its seven fields |
| Downloader.FieldsSpec | core/downloader.py:151-154 | A flag reads TRUE exactly when it is present and truthy and FALSE otherwise; a missing path is "/"; the expiry field is a non-negative number |
| Downloader.ExpiresSpec | core/downloader.py:156-164 | An integer expiry is kept unless negative, an integer string reads as its value, and unparsable, null and missing expiries give 0 |
| Captions.CaptionTextSpec | captions/generator.py:24 | A text of at most 150 characters is its own caption; a longer one becomes its first 150 characters and "...", so a caption never exceeds 153 |
| Captions.CaptionTextIdempotent | captions/generator.py:24 | Captioning a caption changes nothing |
| Captions.FormatTimestampSpec | captions/generator.py:50-54 | MM:SS shows whole minutes and seconds below 60 whose total is the input rounded down; the seconds field always reads back as its number, and for a non-negative time the minutes field does too |
| Captions.NumberedSpec | captions/generator.py:20 | Numbering from 1 keeps the length and gives element k the number k + 1 |
| Captions.CaptionLoop | captions/generator.py:18-47 | The loop's records and writes are the moments numbered from 1 under the record and the write of a clip |
| Captions.GenerateCaptions | captions/generator.py:9-47 | One record and one pair of files per moment, in order: record k holds number k + 1, the caption and the two paths, and the caption and timestamp files hold the texts for that moment |
| Captions.ClipFileInjective | captions/generator.py:27-33 | Within one directory two clip numbers give the same file name only when they are equal |
| Captions.MissingScoreShowsZero | captions/generator.py:38 | A moment without a score shows "Score: 0.00/10" |
| Captions.TimestampChars | captions/generator.py:35-36 | A MM:SS time holds only digits, minus signs and colons |
| Captions.TimestampFileLines | captions/generator.py:34-38 | The timestamp file splits on newlines into its four lines (start, end, duration, score) and an empty tail |
| Sorting.SortDescendingSpec | moments/energy_analyzer.py:176 | The sort with reverse=True is a permutation of its input, ordered by non-increasing key, and stable: equal keys keep their input order |
| Transcript.WindowTextsSpec | moments/extractor.py:328-334 | The texts kept are those of exactly the segments in the window, in transcript order |

## Left out

- Processes: runs of ffmpeg and ffprobe, including silence detection, loudness extraction with its raw-PCM fallback, duration probes, cutting, encoding, audio extraction, and the `build_*` filter strings. Their results enter the model as values or as function parameters (`fast`/`reencode`, `render`, `cut`/`answer`, `detect`), because they are external programs.
- Language models and speech services: the groq, deepseek and openai providers, model-based candidate extraction, Whisper and OpenAI transcription, and the provider selector. They are network clients, or depend on the environment and stdin.
- Filesystem and threads: the folder watcher, parallel clip extraction, the health check, the processing report, output-directory setup and the cache stubs. They are I/O, concurrency or placeholders.
- File writes: the caption and timestamp files are modelled as (path, text) values and the cookie file as the lines it holds. Neither the temporary file name nor the file handle is modelled.
- JSON decoding: ffprobe output and cookie files come in already decoded.
- Floating point: seconds and scores are exact reals. `round(x, n)` is exact rounding with ties to even. Binary-float representation error is not modelled.
- Non-finite floats: in ClipProcessor.ParseRate, Formatter.DurationOf and Formatter.StreamFps and the SilenceDetector report parser, a `float()` result that is infinite or NaN is treated as a parse failure. The energy parser (Numbers.ParseFloat and EnergyAnalyzer.LinearOf) models infinities and NaN exactly.
- Mean of an empty slice: numpy's NaN is modelled as None.
- Regular expressions: each fixed pattern is a hand-written predicate. Case folding and digits are ASCII only. `\w` is approximated by ASCII letters, digits and `_`, plus non-ASCII characters other than the listed punctuation.
- Keyword set: the keywords of `detect_viral_keywords` are a set, because Python's set order is unspecified. Where an energy moment's reason lists them, the model lists them in lexicographic order, one of the orders the set may take; Extractor.EnergyReasonSpec promises only some order.
- In-place updates: the source writes fields into dictionaries it was given. This happens in `score_moments`, `combine_energy_and_keywords`, `align_transcript` and the overwrite of `merged[-1]`, and in-place `list.sort()` works the same way. The model returns updated copies, so aliasing with the caller's objects is not captured.
- Console output: printing and logging.
- Errors: the exception classes become error results or `Failure` values.
- Downloader.ConvertCookies: text keys are strings. A JSON `null` or a non-string value in `domain`, `name`, `path` or `value` is not modelled. Neither is the `OverflowError` that `int()` of an infinite expiry would raise.
- Transcriber.TranscribeChunks: the chunk files and their names in the temporary directory are not modelled. Whether a chunk was cut, and the segments the speech service returned for it, are given as functions of the chunk number.
- Clipify: the mode dispatch (`--watch`, `--batch`, `--show-providers`) is not modelled, because it only chooses which I/O loop runs. The stages' side effects (download, transcription, cutting, formatting) are not part of this model either, nor is the "Clip extraction failed" error raised when the extraction call itself throws.

## Findings

| source | as written | input that shows it | evidently intended | confidence | as-written member | corrected member |
|---|---|---|---|---|---|---|
| core/transcriber.py:156-187 | A chunk's segments are shifted by `chunk_offset`, and it advances only after a chunk was cut and transcribed. After a failed chunk the later chunks are therefore shifted by the end of the last successful chunk, not by their own start. | A 900 s recording whose chunk 1 cannot be cut, each chunk answering one segment: chunk 2's segment is shifted by 300 s, although chunk 2 starts at 600 s. | Each chunk's segments are shifted by that chunk's start `i * 300`. | not executed | Transcriber.SkippedChunkMisplacesLaterOnes | Transcriber.PlacedSegmentOrigin |
