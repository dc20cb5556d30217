/**
 * Word-level alignment: splitting a timed transcript segment into words,
 * spreading the segment's time over them (evenly, or in proportion to an
 * estimated syllable count), cutting the word list into sentences and
 * caption phrases, snapping times to word boundaries and the time-range
 * queries over word lists.
 *
 * Seconds are `real`; Python's round(x, 3) is Numbers.RoundTo(x, 1000.0).
 */
module WordAligner {
  import opened Wrappers
  import opened Strings
  import opened Numbers
  import opened Selection
  import opened Patterns
  import opened Transcript

  /** One word with its time span and metadata (the WordTimestamp dataclass). */
  datatype WordTimestamp = WordTimestamp(word: string, start: real, end: real, confidence: real,
                                         syllableCount: int, isPunctuated: bool)
  {
    function Duration(): real { end - start }
  }

  /** round(x, 3). */
  function Round3(x: real): real { RoundTo(x, 1000.0) }

  // ---------------------------------------------------------------------------
  // Punctuation
  // ---------------------------------------------------------------------------

  /** The character class [.!?;:,] of the pause test. */
  predicate IsPauseMark(c: char) { c == '.' || c == '!' || c == '?' || c == ';' || c == ':' || c == ',' }

  /** The character class [.!?:;] of the sentence-end test. */
  predicate IsSentenceMark(c: char) { c == '.' || c == '!' || c == '?' || c == ':' || c == ';' }

  /**
   * re.search(r'[class]$', s): `$` matches at the very end and also just
   * before a final newline.
   */
  predicate EndsWithMark(s: string, mark: char -> bool)
  {
    (|s| >= 1 && mark(s[|s| - 1])) || (|s| >= 2 && s[|s| - 1] == '\n' && mark(s[|s| - 2]))
  }

  predicate HasPunctuation(word: string) { EndsWithMark(word, IsPauseMark) }

  predicate EndsSentence(word: string) { EndsWithMark(word, IsSentenceMark) }

  // ---------------------------------------------------------------------------
  // Tokenizing
  // ---------------------------------------------------------------------------

  /** The optional trailing class [.,!?;:—–\-] of the token pattern. */
  predicate IsTokenTail(c: char)
  {
    c == '.' || c == ',' || c == '!' || c == '?' || c == ';' || c == ':'
    || c == '—' || c == '–' || c == '-'
  }

  /** re.findall(r'\S+[.,!?;:—–\-]?', s): greedy runs of non-space, each with an optional tail. */
  function FindTokens(s: string): seq<string>
    decreases |s|
  {
    if |s| == 0 then []
    else if IsSpace(s[0]) then FindTokens(s[1..])
    else
      var n := NonSpaceSpan(s);
      var m := if n < |s| && IsTokenTail(s[n]) then n + 1 else n;
      [s[..m]] + FindTokens(s[m..])
  }

  /** A match kept by the tokenizer: its stripped text, when that is not empty. */
  function StrippedToken(m: string): Option<string>
  {
    var t := Strip(m);
    if |t| > 0 then Some(t) else None
  }

  /** _tokenize_text. */
  function Tokens(text: string): seq<string>
  {
    Collect(FindTokens(text), StrippedToken)
  }

  method TokenizeText(text: string) returns (tokens: seq<string>)
    ensures tokens == Tokens(text)
  {
    var matches := FindTokens(text);
    tokens := [];
    for i := 0 to |matches|
      invariant tokens == Collect(matches[..i], StrippedToken)
    {
      CollectPrefix(matches, i, StrippedToken);
      var t := Strip(matches[i]);
      if |t| > 0 {
        tokens := tokens + [t];
      }
    }
    assert matches[..|matches|] == matches;
  }

  /** The optional tail never matches: greedy \S+ already stopped at whitespace or the end. */
  lemma {:induction false} FindTokensAreWords(s: string)
    ensures FindTokens(s) == Words(s)
    decreases |s|
  {
    if |s| > 0 {
      if IsSpace(s[0]) {
        FindTokensAreWords(s[1..]);
      } else {
        var n := NonSpaceSpan(s);
        assert LStrip(s) == s;
        FindTokensAreWords(s[n..]);
      }
    }
  }

  lemma StripNoSpace(w: string)
    requires NoSpace(w)
    ensures Strip(w) == w
  {
    assert LStrip(w) == w;
    assert RStrip(w) == w;
  }

  lemma {:induction false} CollectStrippedWords(ws: seq<string>)
    requires forall k :: 0 <= k < |ws| ==> |ws[k]| > 0 && NoSpace(ws[k])
    ensures Collect(ws, StrippedToken) == ws
  {
    if |ws| > 0 {
      var init := ws[..|ws| - 1];
      CollectStrippedWords(init);
      StripNoSpace(ws[|ws| - 1]);
      assert init + [ws[|ws| - 1]] == ws;
    }
  }

  /** Tokenizing is exactly a whitespace split (str.split()). */
  lemma TokensAreWords(text: string)
    ensures Tokens(text) == Words(text)
    ensures forall k :: 0 <= k < |Tokens(text)| ==> |Tokens(text)[k]| > 0 && NoSpace(Tokens(text)[k])
  {
    FindTokensAreWords(text);
    CollectStrippedWords(Words(text));
  }

  // ---------------------------------------------------------------------------
  // Syllables
  // ---------------------------------------------------------------------------

  predicate IsVowel(c: char) { c == 'a' || c == 'e' || c == 'i' || c == 'o' || c == 'u' || c == 'y' }

  /** Characters kept by re.sub(r'[^\w\s-]', '', word): word characters, whitespace and '-'. */
  predicate KeptInClean(c: char) { IsWordChar(c) || IsSpace(c) || c == '-' }

  /** The word without punctuation, lowered. */
  function CleanWord(word: string): string
  {
    if |word| == 0 then ""
    else
      var init := CleanWord(word[..|word| - 1]);
      var c := word[|word| - 1];
      if KeptInClean(c) then init + [LowerChar(c)] else init
  }

  /** Position i starts a run of vowels. */
  predicate StartsGroup(s: string, i: nat)
    requires i < |s|
  {
    IsVowel(s[i]) && (i == 0 || !IsVowel(s[i - 1]))
  }

  /** Number of maximal runs of vowels in s. */
  function VowelGroups(s: string): nat
  {
    if |s| == 0 then 0
    else VowelGroups(s[..|s| - 1]) + (if StartsGroup(s, |s| - 1) then 1 else 0)
  }

  /** The silent-e and consonant-le corrections applied to a vowel-group count of a cleaned word. */
  function Corrected(w: string, groups: int): int
  {
    var n := |w|;
    var c1 := if n > 2 && w[n - 1] == 'e' then (if groups - 1 < 1 then 1 else groups - 1) else groups;
    var c2 := if n > 2 && w[n - 2] == 'l' && w[n - 1] == 'e' && !IsVowel(w[n - 3]) then c1 + 1 else c1;
    if c2 < 1 then 1 else c2
  }

  /** estimate_syllables. */
  function Syllables(word: string): (r: int)
    ensures r >= 1
  {
    var w := CleanWord(word);
    if |w| == 0 then 1 else Corrected(w, VowelGroups(w))
  }

  method EstimateSyllables(word: string) returns (count: int)
    ensures count == Syllables(word)
  {
    var w := CleanWord(word);
    if |w| == 0 {
      return 1;
    }
    count := 0;
    var previousWasVowel := false;
    for i := 0 to |w|
      invariant count == VowelGroups(w[..i])
      invariant previousWasVowel == (i > 0 && IsVowel(w[i - 1]))
    {
      assert w[..i + 1][..i] == w[..i];
      var isVowel := IsVowel(w[i]);
      if isVowel && !previousWasVowel {
        count := count + 1;
      }
      previousWasVowel := isVowel;
    }
    assert w[..|w|] == w;
    var n := |w|;
    if n > 2 && w[n - 1] == 'e' {
      count := if count - 1 < 1 then 1 else count - 1;
    }
    if n > 2 && w[n - 2] == 'l' && w[n - 1] == 'e' && !IsVowel(w[n - 3]) {
      count := count + 1;
    }
    count := if count < 1 then 1 else count;
  }

  /** Runs of vowels are separated, so they number at most half the length, rounded up. */
  lemma {:induction false} VowelGroupsBound(s: string)
    ensures 2 * VowelGroups(s) <= |s| + (if |s| > 0 && IsVowel(s[|s| - 1]) then 1 else 0)
    ensures VowelGroups(s) == 0 <==> forall i :: 0 <= i < |s| ==> !IsVowel(s[i])
  {
    if |s| > 0 {
      var init := s[..|s| - 1];
      VowelGroupsBound(init);
      assert forall i :: 0 <= i < |init| ==> init[i] == s[i];
    }
  }

  /**
   * The estimate is at least one and, for a word with something left after
   * cleaning, at most the cleaned length; without a vowel it is one
   * (zero groups, floored), unless a consonant-le ending adds one.
   */
  lemma SyllablesBounds(word: string)
    ensures var w := CleanWord(word);
      1 <= Syllables(word) <= (if |w| == 0 then 1 else |w|)
    ensures var w := CleanWord(word);
      (forall i :: 0 <= i < |w| ==> !IsVowel(w[i])) ==> Syllables(word) == 1
  {
    var w := CleanWord(word);
    VowelGroupsBound(w);
  }

  // ---------------------------------------------------------------------------
  // Even timing
  // ---------------------------------------------------------------------------

  /** Where slot i starts when every slot lasts `slot` seconds. */
  function SlotStart(start: real, slot: real, i: nat): real { start + i as real * slot }

  lemma SlotStartNext(start: real, slot: real, i: nat)
    ensures SlotStart(start, slot, i) + slot == SlotStart(start, slot, i + 1)
  {
  }

  /** Word i of an even split: its slot, rounded to milliseconds. */
  function EvenStamp(word: string, i: nat, start: real, slot: real): WordTimestamp
  {
    var ws := SlotStart(start, slot, i);
    WordTimestamp(word, Round3(ws), Round3(ws + slot), 1.0, 1, HasPunctuation(word))
  }

  /** _align_evenly. */
  function EvenStamps(words: seq<string>, start: real, duration: real): (r: seq<WordTimestamp>)
    requires |words| > 0
  {
    var slot := duration / |words| as real;
    seq(|words|, i requires 0 <= i < |words| => EvenStamp(words[i], i, start, slot))
  }

  method AlignEvenly(words: seq<string>, start: real, duration: real) returns (stamps: seq<WordTimestamp>)
    requires |words| > 0
    ensures stamps == EvenStamps(words, start, duration)
  {
    var timePerWord := duration / |words| as real;
    stamps := [];
    for i := 0 to |words|
      invariant |stamps| == i
      invariant forall j :: 0 <= j < i ==> stamps[j] == EvenStamp(words[j], j, start, timePerWord)
    {
      var wordStart := SlotStart(start, timePerWord, i);
      var wordEnd := wordStart + timePerWord;
      stamps := stamps + [WordTimestamp(words[i], Round3(wordStart), Round3(wordEnd), 1.0, 1, HasPunctuation(words[i]))];
    }
  }

  lemma SlotsFill(duration: real, n: nat)
    requires n > 0
    ensures n as real * (duration / n as real) == duration
  {
  }

  /**
   * The even split: one word per input word, in order, each lasting
   * duration/n before rounding; word i starts at start + i·duration/n, each
   * word ends where the next starts, and the words run from round(start)
   * to round(start + duration).
   */
  lemma {:induction false} EvenSpec(words: seq<string>, start: real, duration: real)
    requires |words| > 0
    ensures var r, n := EvenStamps(words, start, duration), |words|;
      |r| == n
      && (forall i :: 0 <= i < n ==>
            (r[i].word == words[i] && r[i].isPunctuated == HasPunctuation(words[i])
             && r[i].start == Round3(SlotStart(start, duration / n as real, i))))
      && (forall i :: 0 <= i < n - 1 ==> r[i].end == r[i + 1].start)
      && r[0].start == Round3(start)
      && r[n - 1].end == Round3(start + duration)
      && (duration >= 0.0 ==> forall i :: 0 <= i < n ==> r[i].start <= r[i].end)
  {
    var r, n := EvenStamps(words, start, duration), |words|;
    var slot := duration / n as real;
    forall i | 0 <= i < n - 1
      ensures r[i].end == r[i + 1].start
    {
      SlotStartNext(start, slot, i);
    }
    SlotStartNext(start, slot, n - 1);
    SlotsFill(duration, n);
    assert SlotStart(start, slot, n) == start + duration;
    if duration >= 0.0 {
      EvenOrdered(words, start, duration);
    }
  }

  lemma {:induction false} EvenOrdered(words: seq<string>, start: real, duration: real)
    requires |words| > 0 && duration >= 0.0
    ensures forall i :: 0 <= i < |words| ==>
      EvenStamps(words, start, duration)[i].start <= EvenStamps(words, start, duration)[i].end
  {
    var slot := duration / |words| as real;
    DivLe(0.0, duration, |words| as real);
    forall i | 0 <= i < |words|
      ensures EvenStamps(words, start, duration)[i].start <= EvenStamps(words, start, duration)[i].end
    {
      RoundMonotone(SlotStart(start, slot, i), SlotStart(start, slot, i) + slot, 1000.0);
    }
  }

  // ---------------------------------------------------------------------------
  // Proportional timing
  // ---------------------------------------------------------------------------

  /** The per-word record of the first pass. */
  datatype WordData = WordData(word: string, syllables: int, weight: real, isPunctuated: bool)

  /** The syllable count, with a 1.2 bonus for a word ending in pause punctuation. */
  function Weight(syllables: int, punctuated: bool): real
  {
    if punctuated then syllables as real * 1.2 else syllables as real
  }

  /** The syllables, the weight and the punctuation flag of one word. */
  function DataOf(word: string): (d: WordData)
    ensures d.word == word && d.weight >= 1.0
  {
    var syllables := Syllables(word);
    WordData(word, syllables, Weight(syllables, HasPunctuation(word)), HasPunctuation(word))
  }

  function TotalWeight(data: seq<WordData>): real
  {
    if |data| == 0 then 0.0 else TotalWeight(data[..|data| - 1]) + data[|data| - 1].weight
  }

  /** Every word weighs at least one, so n words weigh at least n. */
  lemma {:induction false} TotalWeightAtLeast(words: seq<string>)
    ensures TotalWeight(MapAll(words, DataOf)) >= |words| as real
  {
    if |words| > 0 {
      var init := words[..|words| - 1];
      TotalWeightAtLeast(init);
      SyllablesBounds(words[|words| - 1]);
      assert MapAll(words, DataOf)[..|words| - 1] == MapAll(init, DataOf);
    }
  }

  lemma TotalWeightSnoc(data: seq<WordData>, d: WordData)
    ensures TotalWeight(data + [d]) == TotalWeight(data) + d.weight
  {
    assert (data + [d])[..|data|] == data;
  }

  /** One word of the first pass. */
  method WeighWord(word: string) returns (d: WordData)
    ensures d == DataOf(word)
  {
    var syllables := EstimateSyllables(word);
    var weight := syllables as real;
    if HasPunctuation(word) {
      weight := weight * 1.2;
    }
    d := WordData(word, syllables, weight, HasPunctuation(word));
  }

  /** The first pass of _align_proportional: per-word data and the running total weight. */
  method WeighWords(words: seq<string>) returns (data: seq<WordData>, total: real)
    ensures data == MapAll(words, DataOf)
    ensures total == TotalWeight(data)
  {
    data := [];
    total := 0.0;
    for i := 0 to |words|
      invariant data == MapAll(words[..i], DataOf)
      invariant total == TotalWeight(data)
    {
      MapAllPrefix(words, i, DataOf);
      var d := WeighWord(words[i]);
      TotalWeightSnoc(data, d);
      data := data + [d];
      total := total + d.weight;
    }
    assert words[..|words|] == words;
  }

  /** A word's share of the segment: its fraction of the total weight, times the duration. */
  function Share(weight: real, total: real, duration: real): real
    requires total != 0.0
  {
    (weight / total) * duration
  }

  lemma ShareAdd(a: real, b: real, total: real, duration: real)
    requires total != 0.0
    ensures Share(a, total, duration) + Share(b, total, duration) == Share(a + b, total, duration)
  {
  }

  lemma ShareWhole(total: real, duration: real)
    requires total != 0.0
    ensures Share(total, total, duration) == duration
  {
  }

  lemma ShareNonNegative(weight: real, total: real, duration: real)
    requires weight >= 0.0 && total > 0.0 && duration >= 0.0
    ensures Share(weight, total, duration) >= 0.0
  {
    MulLe(0.0, weight / total, duration);
  }

  /** current_time before word i: the start plus the shares of the words before it. */
  function Clock(data: seq<WordData>, total: real, start: real, duration: real, i: nat): real
    requires i <= |data|
    requires i == 0 || total != 0.0
  {
    if i == 0 then start
    else Clock(data, total, start, duration, i - 1) + Share(data[i - 1].weight, total, duration)
  }

  /** Word i of the second pass, before the last end is forced. */
  function StampAt(data: seq<WordData>, total: real, start: real, duration: real, i: nat): WordTimestamp
    requires i < |data| && total != 0.0
  {
    WordTimestamp(data[i].word, Round3(Clock(data, total, start, duration, i)),
                  Round3(Clock(data, total, start, duration, i + 1)), 1.0,
                  data[i].syllables, data[i].isPunctuated)
  }

  /** The stamps of the first k words of the second pass. */
  function Distributed(data: seq<WordData>, total: real, start: real, duration: real, k: nat): (r: seq<WordTimestamp>)
    requires k <= |data|
    requires k == 0 || total != 0.0
    ensures |r| == k
  {
    if k == 0 then [] else Distributed(data, total, start, duration, k - 1) + [StampAt(data, total, start, duration, k - 1)]
  }

  lemma {:induction false} DistributedAt(data: seq<WordData>, total: real, start: real, duration: real, k: nat)
    requires k <= |data| && total != 0.0
    ensures forall i :: 0 <= i < k ==> Distributed(data, total, start, duration, k)[i] == StampAt(data, total, start, duration, i)
  {
    if k > 0 {
      DistributedAt(data, total, start, duration, k - 1);
    }
  }

  /** The second pass of _align_proportional: each word runs from current_time for its share. */
  method Distribute(data: seq<WordData>, total: real, start: real, duration: real) returns (stamps: seq<WordTimestamp>)
    requires |data| == 0 || total != 0.0
    ensures stamps == Distributed(data, total, start, duration, |data|)
  {
    stamps := [];
    var currentTime := start;
    for i := 0 to |data|
      invariant stamps == Distributed(data, total, start, duration, i)
      invariant currentTime == Clock(data, total, start, duration, i)
    {
      var wordDuration := Share(data[i].weight, total, duration);
      var wordEnd := currentTime + wordDuration;
      stamps := stamps + [WordTimestamp(data[i].word, Round3(currentTime), Round3(wordEnd), 1.0,
                                        data[i].syllables, data[i].isPunctuated)];
      currentTime := wordEnd;
    }
  }

  /** The last word's end replaced by `end` (word_timestamps[-1].end = end). */
  function WithLastEnd(stamps: seq<WordTimestamp>, end: real): (r: seq<WordTimestamp>)
    ensures |r| == |stamps|
  {
    if |stamps| == 0 then stamps else stamps[|stamps| - 1 := stamps[|stamps| - 1].(end := end)]
  }

  /** Every word weighs at least one. */
  predicate Weighed(data: seq<WordData>)
  {
    forall k :: 0 <= k < |data| ==> data[k].weight >= 1.0
  }

  lemma WeighedWords(words: seq<string>)
    ensures Weighed(MapAll(words, DataOf))
    ensures TotalWeight(MapAll(words, DataOf)) >= |words| as real
  {
    MapAllAt(words, DataOf);
    TotalWeightAtLeast(words);
  }

  lemma DataWords(words: seq<string>)
    ensures forall i :: 0 <= i < |words| ==> MapAll(words, DataOf)[i].word == words[i]
  {
    MapAllAt(words, DataOf);
  }

  /** The second pass with the last end forced to round(start + duration). */
  function Proportional(data: seq<WordData>, start: real, duration: real): (r: seq<WordTimestamp>)
    requires |data| == 0 || TotalWeight(data) != 0.0
    ensures |r| == |data|
  {
    WithLastEnd(Distributed(data, TotalWeight(data), start, duration, |data|), Round3(start + duration))
  }

  /** _align_proportional. */
  function ProportionalStamps(words: seq<string>, start: real, duration: real): (r: seq<WordTimestamp>)
    ensures |r| == |words|
  {
    WeighedWords(words);
    Proportional(MapAll(words, DataOf), start, duration)
  }

  method AlignProportional(words: seq<string>, start: real, duration: real) returns (stamps: seq<WordTimestamp>)
    ensures stamps == ProportionalStamps(words, start, duration)
  {
    var data, total := WeighWords(words);
    WeighedWords(words);
    stamps := Distribute(data, total, start, duration);
    if |stamps| > 0 {
      stamps := stamps[|stamps| - 1 := stamps[|stamps| - 1].(end := Round3(start + duration))];
    }
  }

  /** The shares telescope: current_time before word k is the start plus the share of the first k weights. */
  lemma {:induction false} ClockTelescopes(data: seq<WordData>, total: real, start: real, duration: real, k: nat)
    requires k <= |data| && total != 0.0
    ensures Clock(data, total, start, duration, k) == start + Share(TotalWeight(data[..k]), total, duration)
  {
    if k > 0 {
      ClockTelescopes(data, total, start, duration, k - 1);
      assert data[..k][..k - 1] == data[..k - 1];
      ShareAdd(TotalWeight(data[..k - 1]), data[k - 1].weight, total, duration);
    } else {
      assert Share(0.0, total, duration) == 0.0;
    }
  }

  /** The shares of all words add up to the duration: the forced last end only undoes rounding drift. */
  lemma ClockReachesEnd(data: seq<WordData>, start: real, duration: real)
    requires TotalWeight(data) != 0.0
    ensures Clock(data, TotalWeight(data), start, duration, |data|) == start + duration
  {
    ClockTelescopes(data, TotalWeight(data), start, duration, |data|);
    assert data[..|data|] == data;
    ShareWhole(TotalWeight(data), duration);
  }

  lemma {:induction false} ClockMonotone(data: seq<WordData>, total: real, start: real, duration: real, i: nat)
    requires i < |data| && total > 0.0 && duration >= 0.0 && Weighed(data)
    ensures Clock(data, total, start, duration, i) <= Clock(data, total, start, duration, i + 1)
  {
    ShareNonNegative(data[i].weight, total, duration);
  }

  /** The words run from round(start) to round(start + duration). */
  lemma {:induction false} ProportionalEnds(data: seq<WordData>, start: real, duration: real)
    requires |data| > 0 && TotalWeight(data) != 0.0
    ensures Proportional(data, start, duration)[0].start == Round3(start)
    ensures Proportional(data, start, duration)[|data| - 1].end == Round3(start + duration)
  {
    ProportionalAt(data, start, duration, 0);
    ProportionalAt(data, start, duration, |data| - 1);
    ClockReachesEnd(data, start, duration);
  }

  /** Word i keeps its data and runs from the rounded clock before it to the rounded clock after it. */
  lemma {:induction false} ProportionalAt(data: seq<WordData>, start: real, duration: real, i: nat)
    requires i < |data| && TotalWeight(data) != 0.0
    ensures var w := Proportional(data, start, duration)[i];
      w.word == data[i].word && w.syllableCount == data[i].syllables
      && w.isPunctuated == data[i].isPunctuated && w.confidence == 1.0
      && w.start == Round3(Clock(data, TotalWeight(data), start, duration, i))
      && w.end == Round3(Clock(data, TotalWeight(data), start, duration, i + 1))
  {
    DistributedAt(data, TotalWeight(data), start, duration, |data|);
    if i == |data| - 1 {
      ClockReachesEnd(data, start, duration);
    }
  }

  lemma {:induction false} ProportionalFields(data: seq<WordData>, start: real, duration: real)
    requires TotalWeight(data) != 0.0
    ensures forall i :: 0 <= i < |data| ==>
      (Proportional(data, start, duration)[i].word == data[i].word
       && Proportional(data, start, duration)[i].syllableCount == data[i].syllables
       && Proportional(data, start, duration)[i].isPunctuated == data[i].isPunctuated
       && Proportional(data, start, duration)[i].confidence == 1.0)
  {
    forall i | 0 <= i < |data|
      ensures Proportional(data, start, duration)[i].word == data[i].word
      ensures Proportional(data, start, duration)[i].syllableCount == data[i].syllables
      ensures Proportional(data, start, duration)[i].isPunctuated == data[i].isPunctuated
      ensures Proportional(data, start, duration)[i].confidence == 1.0
    {
      ProportionalAt(data, start, duration, i);
    }
  }

  lemma {:induction false} ProportionalStarts(data: seq<WordData>, start: real, duration: real)
    requires TotalWeight(data) != 0.0
    ensures forall i :: 0 <= i < |data| ==>
      Proportional(data, start, duration)[i].start
        == Round3(start + Share(TotalWeight(data[..i]), TotalWeight(data), duration))
  {
    forall i | 0 <= i < |data|
      ensures Proportional(data, start, duration)[i].start
        == Round3(start + Share(TotalWeight(data[..i]), TotalWeight(data), duration))
    {
      ProportionalAt(data, start, duration, i);
      ClockTelescopes(data, TotalWeight(data), start, duration, i);
    }
  }

  lemma {:induction false} ProportionalContiguous(data: seq<WordData>, start: real, duration: real)
    requires TotalWeight(data) != 0.0
    ensures forall i :: 0 <= i < |data| - 1 ==>
      Proportional(data, start, duration)[i].end == Proportional(data, start, duration)[i + 1].start
  {
    forall i | 0 <= i < |data| - 1
      ensures Proportional(data, start, duration)[i].end == Proportional(data, start, duration)[i + 1].start
    {
      ProportionalAt(data, start, duration, i);
      ProportionalAt(data, start, duration, i + 1);
    }
  }

  lemma {:induction false} ProportionalOrdered(data: seq<WordData>, start: real, duration: real)
    requires Weighed(data) && TotalWeight(data) > 0.0 && duration >= 0.0
    ensures forall i :: 0 <= i < |data| ==>
      Proportional(data, start, duration)[i].start <= Proportional(data, start, duration)[i].end
  {
    forall i | 0 <= i < |data|
      ensures Proportional(data, start, duration)[i].start <= Proportional(data, start, duration)[i].end
    {
      ProportionalOrderedAt(data, start, duration, i);
    }
  }

  lemma {:induction false} ProportionalOrderedAt(data: seq<WordData>, start: real, duration: real, i: nat)
    requires i < |data| && Weighed(data) && TotalWeight(data) > 0.0 && duration >= 0.0
    ensures Proportional(data, start, duration)[i].start <= Proportional(data, start, duration)[i].end
  {
    var total := TotalWeight(data);
    ProportionalAt(data, start, duration, i);
    ClockMonotone(data, total, start, duration, i);
    RoundMonotone(Clock(data, total, start, duration, i), Clock(data, total, start, duration, i + 1), 1000.0);
  }

  /**
   * The proportional split: one word per input word, in order, carrying its
   * first-pass syllables and punctuation flag (whose shares are described by
   * ProportionalStarts); each word ends where the next starts; the words
   * run from round(start) to round(start + duration); and with a duration
   * that is not negative no word ends before it starts.
   */
  lemma ProportionalSpec(words: seq<string>, start: real, duration: real)
    ensures var r, n, data := ProportionalStamps(words, start, duration), |words|, MapAll(words, DataOf);
      TotalWeight(data) >= n as real
      && (forall i :: 0 <= i < n ==>
            (r[i].word == words[i] && r[i].syllableCount == data[i].syllables
             && r[i].isPunctuated == data[i].isPunctuated && r[i].confidence == 1.0))
      && (forall i :: 0 <= i < n - 1 ==> r[i].end == r[i + 1].start)
      && (n > 0 ==> r[0].start == Round3(start) && r[n - 1].end == Round3(start + duration))
      && (duration >= 0.0 ==> forall i :: 0 <= i < n ==> r[i].start <= r[i].end)
  {
    WeighedWords(words);
    var data := MapAll(words, DataOf);
    if |words| > 0 {
      DataWords(words);
      ProportionalFields(data, start, duration);
      ProportionalContiguous(data, start, duration);
      ProportionalEnds(data, start, duration);
      if duration >= 0.0 {
        ProportionalOrdered(data, start, duration);
      }
    }
  }

  // ---------------------------------------------------------------------------
  // Segments
  // ---------------------------------------------------------------------------

  /**
   * A segment after alignment: its original fields, and the keys the aligner
   * adds (`words`, `sentence_boundaries`, `phrase_boundaries`) when present.
   */
  datatype AlignedSegment = AlignedSegment(segment: Segment, words: Option<seq<WordTimestamp>>,
                                           sentences: Option<seq<Boundary>>, phrases: Option<seq<Boundary>>)

  /** A segment passed through unchanged. */
  function Unaligned(seg: Segment): AlignedSegment { AlignedSegment(seg, None, None, None) }

  /** The words of a segment timed by one of the two methods. */
  function Timed(words: seq<string>, start: real, duration: real, proportional: bool): (r: seq<WordTimestamp>)
    requires |words| > 0
  {
    if proportional then ProportionalStamps(words, start, duration) else EvenStamps(words, start, duration)
  }

  /** One segment of align_words_to_timestamps. */
  function AlignSegment(seg: Segment, proportional: bool): AlignedSegment
  {
    var text := Strip(seg.text);
    if |text| == 0 || seg.end <= seg.start then Unaligned(seg)
    else
      var words := Tokens(text);
      if |words| == 0 then Unaligned(seg)
      else AlignedSegment(seg, Some(Timed(words, seg.start, seg.end - seg.start, proportional)), None, None)
  }

  method AlignSegmentWords(seg: Segment, proportional: bool) returns (aligned: AlignedSegment)
    ensures aligned == AlignSegment(seg, proportional)
  {
    var text := Strip(seg.text);
    if |text| == 0 || seg.end <= seg.start {
      return Unaligned(seg);
    }
    var words := TokenizeText(text);
    if |words| == 0 {
      return Unaligned(seg);
    }
    var segmentDuration := seg.end - seg.start;
    var stamps;
    if proportional {
      stamps := AlignProportional(words, seg.start, segmentDuration);
    } else {
      stamps := AlignEvenly(words, seg.start, segmentDuration);
    }
    aligned := AlignedSegment(seg, Some(stamps), None, None);
  }

  /** align_words_to_timestamps. */
  method AlignWordsToTimestamps(transcript: seq<Segment>, useProportionalTiming: bool)
    returns (aligned: seq<AlignedSegment>)
    ensures |aligned| == |transcript|
    ensures forall i :: 0 <= i < |transcript| ==> aligned[i] == AlignSegment(transcript[i], useProportionalTiming)
  {
    aligned := [];
    for i := 0 to |transcript|
      invariant |aligned| == i
      invariant forall j :: 0 <= j < i ==> aligned[j] == AlignSegment(transcript[j], useProportionalTiming)
    {
      var a := AlignSegmentWords(transcript[i], useProportionalTiming);
      aligned := aligned + [a];
    }
  }

  /**
   * Timed words for the given tokens over [start, end]: one per token, in
   * order, each ending where the next starts, from round(start) to
   * round(end), none ending before it starts.
   */
  predicate TimedOver(ws: seq<WordTimestamp>, toks: seq<string>, start: real, end: real)
  {
    |ws| == |toks| > 0
    && (forall k :: 0 <= k < |ws| ==> ws[k].word == toks[k])
    && (forall k :: 0 <= k < |ws| - 1 ==> ws[k].end == ws[k + 1].start)
    && ws[0].start == Round3(start) && ws[|ws| - 1].end == Round3(end)
    && (forall k :: 0 <= k < |ws| ==> ws[k].start <= ws[k].end)
  }

  /** TimedSpec for words timed over the span from start to end. */
  lemma {:induction false} SpanSpec(ws: seq<WordTimestamp>, toks: seq<string>, start: real, end: real, proportional: bool)
    requires |toks| > 0 && start < end && ws == Timed(toks, start, end - start, proportional)
    ensures TimedOver(ws, toks, start, end)
  {
    TimedSpec(toks, start, end - start, proportional);
    assert start + (end - start) == end;
  }

  /** Text with something left after stripping has at least one word. */
  lemma {:induction false} StrippedHasWords(text: string)
    requires |Strip(text)| > 0
    ensures |Words(Strip(text))| > 0
  {
    var t := Strip(text);
    assert LStrip(t) == t;
  }

  /**
   * Both timing methods give one word per token, in order, each ending where
   * the next starts, running from round(start) to round(start + duration),
   * and none ending before it starts when the duration is not negative.
   */
  lemma {:induction false} TimedSpec(words: seq<string>, start: real, duration: real, proportional: bool)
    requires |words| > 0
    ensures var r, n := Timed(words, start, duration, proportional), |words|;
      |r| == n
      && (forall i :: 0 <= i < n ==> r[i].word == words[i])
      && (forall i :: 0 <= i < n - 1 ==> r[i].end == r[i + 1].start)
      && r[0].start == Round3(start) && r[n - 1].end == Round3(start + duration)
      && (duration >= 0.0 ==> forall i :: 0 <= i < n ==> r[i].start <= r[i].end)
  {
    if proportional {
      ProportionalSpec(words, start, duration);
    } else {
      EvenSpec(words, start, duration);
    }
  }

  /** The shape of an aligned segment: which segments gain words, and what they gain. */
  lemma {:induction false} AlignSegmentShape(seg: Segment, proportional: bool)
    ensures var a := AlignSegment(seg, proportional);
      a.segment == seg && a.sentences.None? && a.phrases.None?
      && (a.words.None? <==> |Strip(seg.text)| == 0 || seg.end <= seg.start)
    ensures |Strip(seg.text)| > 0 && seg.start < seg.end ==>
      (|Words(Strip(seg.text))| > 0
       && AlignSegment(seg, proportional).words
            == Some(Timed(Words(Strip(seg.text)), seg.start, seg.end - seg.start, proportional)))
  {
    var text := Strip(seg.text);
    if |text| > 0 && seg.start < seg.end {
      StrippedHasWords(seg.text);
      TokensAreWords(text);
    }
  }

  /**
   * A segment is passed through unchanged exactly when its stripped text is
   * empty or it does not end after it starts. Otherwise it keeps its fields
   * and gains one timed word per whitespace-separated word of its text, in
   * order, contiguous, from round(start) to round(end).
   */
  lemma {:induction false} AlignSegmentSpec(seg: Segment, proportional: bool)
    ensures AlignSegment(seg, proportional).segment == seg
    ensures AlignSegment(seg, proportional).sentences.None? && AlignSegment(seg, proportional).phrases.None?
    ensures AlignSegment(seg, proportional).words.None? <==> |Strip(seg.text)| == 0 || seg.end <= seg.start
    ensures AlignSegment(seg, proportional).words.Some? ==>
      TimedOver(AlignSegment(seg, proportional).words.value, Words(Strip(seg.text)), seg.start, seg.end)
  {
    AlignSegmentShape(seg, proportional);
    if |Strip(seg.text)| > 0 && seg.start < seg.end {
      AlignedWordsTimed(seg, proportional);
    }
  }

  /** A segment with text that ends after it starts gains its words timed over its span. */
  lemma {:induction false} AlignedWordsTimed(seg: Segment, proportional: bool)
    requires |Strip(seg.text)| > 0 && seg.start < seg.end
    ensures AlignSegment(seg, proportional).words.Some?
    ensures TimedOver(AlignSegment(seg, proportional).words.value, Words(Strip(seg.text)), seg.start, seg.end)
  {
    AlignSegmentShape(seg, proportional);
    var toks := Words(Strip(seg.text));
    SpanSpec(Timed(toks, seg.start, seg.end - seg.start, proportional), toks, seg.start, seg.end, proportional);
  }

  // ---------------------------------------------------------------------------
  // Snapping
  // ---------------------------------------------------------------------------

  function StartOf(w: WordTimestamp): real { w.start }

  function EndOf(w: WordTimestamp): real { w.end }

  /** Every word's start, then its end, in word order. */
  function BothEnds(words: seq<WordTimestamp>): (r: seq<real>)
    ensures |r| == 2 * |words|
  {
    if |words| == 0 then []
    else BothEnds(words[..|words| - 1]) + [words[|words| - 1].start, words[|words| - 1].end]
  }

  /** The candidate boundaries for a direction: 'start', 'end', or anything else for both. */
  function Boundaries(words: seq<WordTimestamp>, direction: string): (r: seq<real>)
    ensures |words| > 0 ==> |r| > 0
  {
    if direction == "start" then MapAll(words, StartOf)
    else if direction == "end" then MapAll(words, EndOf)
    else BothEnds(words)
  }

  /** The boundaries loop of the 'nearest' direction. */
  method NearestBoundaries(words: seq<WordTimestamp>) returns (boundaries: seq<real>)
    ensures boundaries == BothEnds(words)
  {
    boundaries := [];
    for i := 0 to |words|
      invariant boundaries == BothEnds(words[..i])
    {
      assert words[..i + 1][..i] == words[..i];
      boundaries := boundaries + [words[i].start, words[i].end];
    }
    assert words[..|words|] == words;
  }

  lemma {:induction false} BothEndsAt(words: seq<WordTimestamp>)
    ensures forall i :: 0 <= i < |words| ==> BothEnds(words)[2 * i] == words[i].start && BothEnds(words)[2 * i + 1] == words[i].end
  {
    if |words| > 0 {
      var init := words[..|words| - 1];
      BothEndsAt(init);
      assert forall i :: 0 <= i < |init| ==> init[i] == words[i];
    }
  }

  /** The boundaries are exactly the starts, the ends, or each word's start followed by its end. */
  lemma {:induction false} BoundariesSpec(words: seq<WordTimestamp>, direction: string)
    ensures var b := Boundaries(words, direction);
      (direction == "start" ==> |b| == |words| && forall i :: 0 <= i < |words| ==> b[i] == words[i].start)
      && (direction == "end" ==> |b| == |words| && forall i :: 0 <= i < |words| ==> b[i] == words[i].end)
      && (direction != "start" && direction != "end" ==>
            (|b| == 2 * |words|
             && forall i :: 0 <= i < |words| ==> b[2 * i] == words[i].start && b[2 * i + 1] == words[i].end))
  {
    MapAllAt(words, StartOf);
    MapAllAt(words, EndOf);
    BothEndsAt(words);
  }

  function Gap(b: real, t: real): real { if b >= t then b - t else t - b }

  /** min(boundaries, key=lambda b: abs(b - t)): the first boundary at the smallest distance. */
  function ClosestIndex(bs: seq<real>, t: real): (k: nat)
    requires |bs| > 0
    ensures k < |bs|
  {
    if |bs| == 1 then 0
    else
      var k := ClosestIndex(bs[..|bs| - 1], t);
      if Gap(bs[|bs| - 1], t) < Gap(bs[k], t) then |bs| - 1 else k
  }

  /** The chosen boundary is no farther than any other, and every earlier one is strictly farther. */
  lemma {:induction false} ClosestIndexSpec(bs: seq<real>, t: real)
    requires |bs| > 0
    ensures var k := ClosestIndex(bs, t);
      (forall j :: 0 <= j < |bs| ==> Gap(bs[k], t) <= Gap(bs[j], t))
      && (forall j :: 0 <= j < k ==> Gap(bs[k], t) < Gap(bs[j], t))
  {
    if |bs| > 1 {
      var init := bs[..|bs| - 1];
      ClosestIndexSpec(init, t);
      assert forall j :: 0 <= j < |init| ==> init[j] == bs[j];
    }
  }

  /** snap_to_word_boundary. */
  function Snap(timestamp: real, words: seq<WordTimestamp>, direction: string, maxDistance: real): real
  {
    if |words| == 0 then timestamp
    else
      var bs := Boundaries(words, direction);
      var closest := bs[ClosestIndex(bs, timestamp)];
      if Gap(closest, timestamp) <= maxDistance then closest else timestamp
  }

  method SnapToWordBoundary(timestamp: real, words: seq<WordTimestamp>, direction: string, maxDistance: real)
    returns (snapped: real)
    ensures snapped == Snap(timestamp, words, direction, maxDistance)
  {
    if |words| == 0 {
      return timestamp;
    }
    var boundaries;
    if direction == "start" {
      boundaries := MapAll(words, StartOf);
    } else if direction == "end" {
      boundaries := MapAll(words, EndOf);
    } else {
      boundaries := NearestBoundaries(words);
    }
    var closest := boundaries[ClosestIndex(boundaries, timestamp)];
    if Gap(closest, timestamp) <= maxDistance {
      snapped := closest;
    } else {
      snapped := timestamp;
    }
  }

  /**
   * Snapping leaves the time alone when there are no words. Otherwise the
   * result is the time itself or a boundary of the requested kind within
   * max_distance; and whenever some boundary is within max_distance, the
   * result is a boundary at the smallest distance.
   */
  lemma {:induction false} SnapSpec(timestamp: real, words: seq<WordTimestamp>, direction: string, maxDistance: real)
    ensures |words| == 0 ==> Snap(timestamp, words, direction, maxDistance) == timestamp
    ensures var r, bs := Snap(timestamp, words, direction, maxDistance), Boundaries(words, direction);
      r == timestamp || (r in bs && Gap(r, timestamp) <= maxDistance)
    ensures var r, bs := Snap(timestamp, words, direction, maxDistance), Boundaries(words, direction);
      (exists j :: 0 <= j < |bs| && Gap(bs[j], timestamp) <= maxDistance) ==>
        (r in bs && forall j :: 0 <= j < |bs| ==> Gap(r, timestamp) <= Gap(bs[j], timestamp))
  {
    if |words| > 0 {
      ClosestIndexSpec(Boundaries(words, direction), timestamp);
    }
  }

  // ---------------------------------------------------------------------------
  // Sentences and phrases
  // ---------------------------------------------------------------------------

  /** (start_idx, end_idx, start_time, end_time): words first..limit-1. */
  datatype Boundary = Boundary(first: nat, limit: nat, startTime: real, endTime: real)

  /** Pieces that follow each other without gap or overlap from 0 to n. */
  predicate Contiguous(bs: seq<Boundary>, n: nat)
  {
    (|bs| == 0 ==> n == 0)
    && (|bs| > 0 ==> bs[0].first == 0 && bs[|bs| - 1].limit == n)
    && (forall j :: 0 <= j < |bs| ==> bs[j].first <= bs[j].limit)
    && (forall j :: 0 <= j < |bs| - 1 ==> bs[j].limit == bs[j + 1].first)
  }

  /** A piece that starts where the previous ones stop extends them to its own limit. */
  lemma {:induction false} ContiguousSnoc(bs: seq<Boundary>, s: nat, b: Boundary)
    requires Contiguous(bs, s) && b.first == s <= b.limit
    ensures Contiguous(bs + [b], b.limit)
  {
    var r := bs + [b];
    assert forall j :: 0 <= j < |bs| ==> r[j] == bs[j];
  }

  /** A scan in progress: the pieces emitted so far and where the open piece starts. */
  datatype Scan = Scan(pieces: seq<Boundary>, open: nat)

  /**
   * The sentence pieces after the first k words, and where the open sentence
   * starts, for a given end-of-sentence test on words.
   */
  function SentenceScan(words: seq<WordTimestamp>, ends: string -> bool, k: nat): (r: Scan)
    requires k <= |words|
    ensures r.open <= k
  {
    if k == 0 then Scan([], 0)
    else
      var prev := SentenceScan(words, ends, k - 1);
      if ends(words[k - 1].word) then Scan(prev.pieces + [Boundary(prev.open, k, words[prev.open].start, words[k - 1].end)], k)
      else prev
  }

  /** The sentences for a given end-of-sentence test: the scan plus the incomplete last sentence. */
  function SentencesWith(words: seq<WordTimestamp>, ends: string -> bool): seq<Boundary>
  {
    var sc := SentenceScan(words, ends, |words|);
    if sc.open < |words| then sc.pieces + [Boundary(sc.open, |words|, words[sc.open].start, words[|words| - 1].end)]
    else sc.pieces
  }

  /** get_sentence_boundaries: a sentence ends at a word ending in . ! ? : or ; */
  function Sentences(words: seq<WordTimestamp>): seq<Boundary>
  {
    SentencesWith(words, EndsSentence)
  }

  method SentenceBoundaries(words: seq<WordTimestamp>) returns (sentences: seq<Boundary>)
    ensures sentences == Sentences(words)
  {
    sentences := [];
    var sentenceStart: nat := 0;
    for i := 0 to |words|
      invariant Scan(sentences, sentenceStart) == SentenceScan(words, EndsSentence, i)
    {
      if EndsSentence(words[i].word) {
        sentences := sentences + [Boundary(sentenceStart, i + 1, words[sentenceStart].start, words[i].end)];
        sentenceStart := i + 1;
      }
    }
    if sentenceStart < |words| {
      sentences := sentences + [Boundary(sentenceStart, |words|, words[sentenceStart].start, words[|words| - 1].end)];
    }
  }

  /**
   * A sentence: words first..limit-1, not empty, timed from its first word's
   * start to its last word's end, and with no sentence end before its last word.
   */
  predicate SentencePiece(b: Boundary, words: seq<WordTimestamp>, ends: string -> bool)
  {
    b.first < b.limit <= |words|
    && b.startTime == words[b.first].start && b.endTime == words[b.limit - 1].end
    && forall q :: b.first <= q < b.limit - 1 ==> !ends(words[q].word)
  }

  /** Every piece is a sentence. */
  predicate SentencePieces(bs: seq<Boundary>, words: seq<WordTimestamp>, ends: string -> bool)
  {
    forall j :: 0 <= j < |bs| ==> SentencePiece(bs[j], words, ends)
  }

  /** Every piece ends at a word that passes the end-of-sentence test. */
  predicate Closed(bs: seq<Boundary>, words: seq<WordTimestamp>, ends: string -> bool)
  {
    forall j :: 0 <= j < |bs| ==> 0 < bs[j].limit <= |words| && ends(words[bs[j].limit - 1].word)
  }

  lemma {:induction false} SentencePiecesSnoc(bs: seq<Boundary>, b: Boundary, words: seq<WordTimestamp>, ends: string -> bool)
    requires SentencePieces(bs, words, ends) && SentencePiece(b, words, ends)
    ensures SentencePieces(bs + [b], words, ends)
  {
    SnocAt(bs, b);
  }

  lemma {:induction false} ClosedSnoc(bs: seq<Boundary>, b: Boundary, words: seq<WordTimestamp>, ends: string -> bool)
    requires Closed(bs, words, ends) && 0 < b.limit <= |words| && ends(words[b.limit - 1].word)
    ensures Closed(bs + [b], words, ends)
  {
    SnocAt(bs, b);
  }

  lemma {:induction false} ClosedPrefix(bs: seq<Boundary>, m: nat, words: seq<WordTimestamp>, ends: string -> bool)
    requires Closed(bs, words, ends) && m <= |bs|
    ensures Closed(bs[..m], words, ends)
  {
    assert forall j :: 0 <= j < m ==> bs[..m][j] == bs[j];
  }

  lemma {:induction false} SentenceScanSpec(words: seq<WordTimestamp>, ends: string -> bool, k: nat)
    requires k <= |words|
    ensures Contiguous(SentenceScan(words, ends, k).pieces, SentenceScan(words, ends, k).open)
    ensures SentencePieces(SentenceScan(words, ends, k).pieces, words, ends)
    ensures Closed(SentenceScan(words, ends, k).pieces, words, ends)
    ensures forall q :: SentenceScan(words, ends, k).open <= q < k ==> !ends(words[q].word)
  {
    if k > 0 {
      SentenceScanSpec(words, ends, k - 1);
      var prev := SentenceScan(words, ends, k - 1);
      if ends(words[k - 1].word) {
        var b := Boundary(prev.open, k, words[prev.open].start, words[k - 1].end);
        assert SentencePiece(b, words, ends);
        ContiguousSnoc(prev.pieces, prev.open, b);
        SentencePiecesSnoc(prev.pieces, b, words, ends);
        ClosedSnoc(prev.pieces, b, words, ends);
      }
    }
  }

  lemma {:induction false} SentencesWithSpec(words: seq<WordTimestamp>, ends: string -> bool)
    ensures Contiguous(SentencesWith(words, ends), |words|)
    ensures SentencePieces(SentencesWith(words, ends), words, ends)
    ensures |words| > 0 ==>
      Closed(SentencesWith(words, ends)[..|SentencesWith(words, ends)| - 1], words, ends)
  {
    SentenceScanSpec(words, ends, |words|);
    var sc := SentenceScan(words, ends, |words|);
    if sc.open < |words| {
      var b := Boundary(sc.open, |words|, words[sc.open].start, words[|words| - 1].end);
      assert SentencePiece(b, words, ends);
      ContiguousSnoc(sc.pieces, sc.open, b);
      SentencePiecesSnoc(sc.pieces, b, words, ends);
      assert (sc.pieces + [b])[..|sc.pieces|] == sc.pieces;
    } else if |words| > 0 {
      ClosedPrefix(sc.pieces, |sc.pieces| - 1, words, ends);
    }
  }

  /**
   * Sentences tile the word list: contiguous, non-empty pieces from 0 to
   * len(words) (none for no words), each timed by its first and last word;
   * every piece but the last ends at a word ending in . ! ? : or ; and no
   * other word inside a piece does.
   */
  lemma {:induction false} SentencesSpec(words: seq<WordTimestamp>)
    ensures Contiguous(Sentences(words), |words|)
    ensures SentencePieces(Sentences(words), words, EndsSentence)
    ensures |words| > 0 ==> Closed(Sentences(words)[..|Sentences(words)| - 1], words, EndsSentence)
  {
    SentencesWithSpec(words, EndsSentence);
  }

  /** The end time of the word before index bp, with Python's words[-1] for bp = 0. */
  function EndBefore(words: seq<WordTimestamp>, bp: nat): real
    requires |words| > 0 && bp <= |words|
  {
    if bp == 0 then words[|words| - 1].end else words[bp - 1].end
  }

  /** The look-back from word j down to (but not including) lo for a pause mark; i when there is none. */
  function BreakFrom(words: seq<WordTimestamp>, j: int, lo: int, i: nat): (bp: nat)
    requires j < i <= |words| && -1 <= lo < i
    ensures lo < bp <= i
    decreases j - lo
  {
    if j <= lo then i
    else if HasPunctuation(words[j].word) then j + 1
    else BreakFrom(words, j - 1, lo, i)
  }

  /** The break point for a phrase from ps that overflows at word i. */
  function BreakPoint(words: seq<WordTimestamp>, ps: nat, i: nat, preferPunctuation: bool): (bp: nat)
    requires ps <= i < |words|
    ensures ps <= bp <= i
  {
    if preferPunctuation && i > ps + 1 then BreakFrom(words, i - 1, if ps > i - 4 then ps else i - 4, i) else i
  }

  /** The inner look-back loop: range(i - 1, max(ps, i - 4), -1) with a break at the first pause mark. */
  method FindBreakPoint(words: seq<WordTimestamp>, ps: nat, i: nat, preferPunctuation: bool) returns (breakPoint: nat)
    requires ps <= i < |words|
    ensures breakPoint == BreakPoint(words, ps, i, preferPunctuation)
  {
    breakPoint := i;
    if preferPunctuation && i > ps + 1 {
      var lo := if ps > i - 4 then ps else i - 4;
      var j := i - 1;
      while j > lo
        invariant lo <= j < i
        invariant BreakFrom(words, j, lo, i) == BreakFrom(words, i - 1, lo, i)
        decreases j - lo
      {
        if HasPunctuation(words[j].word) {
          breakPoint := j + 1;
          break;
        }
        j := j - 1;
      }
    }
  }

  /**
   * The look-back: when prefer_punctuation applies (i > ps + 1) it examines
   * only the words strictly between max(ps, i - 4) and i, so at most the
   * three before i. If one of them ends in a pause mark, the break follows
   * the last such word; otherwise the break is at i. The break never moves
   * before ps + 2 or i - 2.
   */
  lemma {:induction false} BreakPointSpec(words: seq<WordTimestamp>, ps: nat, i: nat, preferPunctuation: bool)
    requires ps <= i < |words|
    ensures var bp, lo := BreakPoint(words, ps, i, preferPunctuation), (if ps > i - 4 then ps else i - 4);
      (!(preferPunctuation && i > ps + 1) ==> bp == i)
      && (preferPunctuation && i > ps + 1 ==>
            (i - 3 <= lo + 1 && ps + 1 <= lo + 1
             && ((forall q :: lo < q < i ==> !HasPunctuation(words[q].word)) ==> bp == i)
             && ((exists q :: lo < q < i && HasPunctuation(words[q].word)) ==>
                   (lo < bp - 1 && HasPunctuation(words[bp - 1].word)
                    && forall q :: bp - 1 < q < i ==> !HasPunctuation(words[q].word)))))
  {
    if preferPunctuation && i > ps + 1 {
      var lo := if ps > i - 4 then ps else i - 4;
      BreakFromSpec(words, i - 1, lo, i);
    }
  }

  lemma {:induction false} BreakFromSpec(words: seq<WordTimestamp>, j: int, lo: int, i: nat)
    requires lo <= j < i <= |words| && -1 <= lo
    ensures var bp := BreakFrom(words, j, lo, i);
      lo + 1 <= bp <= i
      && ((forall q :: lo < q <= j ==> !HasPunctuation(words[q].word)) ==> bp == i)
      && ((exists q :: lo < q <= j && HasPunctuation(words[q].word)) ==>
            (lo < bp - 1 <= j && HasPunctuation(words[bp - 1].word)
             && forall q :: bp - 1 < q <= j ==> !HasPunctuation(words[q].word)))
    decreases j - lo
  {
    if j > lo && !HasPunctuation(words[j].word) {
      if j - 1 > lo {
        BreakFromSpec(words, j - 1, lo, i);
      }
    }
  }

  /** The phrases emitted after the first k words, and where the open phrase starts. */
  function PhraseScan(words: seq<WordTimestamp>, maxPhraseDuration: real, preferPunctuation: bool, k: nat): (r: Scan)
    requires k <= |words|
    ensures r.open <= k && (k > 0 ==> r.open < k)
  {
    if k == 0 then Scan([], 0)
    else
      var prev := PhraseScan(words, maxPhraseDuration, preferPunctuation, k - 1);
      var ps, i := prev.open, k - 1;
      if words[i].end - words[ps].start > maxPhraseDuration then
        var bp := BreakPoint(words, ps, i, preferPunctuation);
        Scan(prev.pieces + [Boundary(ps, bp, words[ps].start, EndBefore(words, bp))], bp)
      else prev
  }

  /** get_phrase_boundaries. */
  function Phrases(words: seq<WordTimestamp>, maxPhraseDuration: real, preferPunctuation: bool): seq<Boundary>
  {
    if |words| == 0 then []
    else
      var sc := PhraseScan(words, maxPhraseDuration, preferPunctuation, |words|);
      if sc.open < |words| then sc.pieces + [Boundary(sc.open, |words|, words[sc.open].start, words[|words| - 1].end)]
      else sc.pieces
  }

  method PhraseBoundaries(words: seq<WordTimestamp>, maxPhraseDuration: real, preferPunctuation: bool)
    returns (phrases: seq<Boundary>)
    ensures phrases == Phrases(words, maxPhraseDuration, preferPunctuation)
  {
    if |words| == 0 {
      return [];
    }
    phrases := [];
    var phraseStart: nat := 0;
    for i := 0 to |words|
      invariant Scan(phrases, phraseStart) == PhraseScan(words, maxPhraseDuration, preferPunctuation, i)
    {
      var duration := words[i].end - words[phraseStart].start;
      if duration > maxPhraseDuration {
        var breakPoint := FindBreakPoint(words, phraseStart, i, preferPunctuation);
        phrases := phrases + [Boundary(phraseStart, breakPoint, words[phraseStart].start, EndBefore(words, breakPoint))];
        phraseStart := breakPoint;
      }
    }
    if phraseStart < |words| {
      phrases := phrases + [Boundary(phraseStart, |words|, words[phraseStart].start, words[|words| - 1].end)];
    }
  }

  /**
   * A phrase: words first..limit-1, timed from its first word's start to the
   * end of the word before its limit (the last word for limit 0); it is empty
   * only when it was cut at a single word that alone lasts longer than the
   * maximum.
   */
  predicate PhrasePiece(b: Boundary, words: seq<WordTimestamp>, maxPhraseDuration: real)
  {
    b.first < |words| && b.limit <= |words|
    && b.startTime == words[b.first].start && b.endTime == EndBefore(words, b.limit)
    && (b.first == b.limit ==> words[b.first].end - words[b.first].start > maxPhraseDuration)
  }

  /** Every piece is a phrase. */
  predicate PhrasePieces(bs: seq<Boundary>, words: seq<WordTimestamp>, maxPhraseDuration: real)
  {
    forall j :: 0 <= j < |bs| ==> PhrasePiece(bs[j], words, maxPhraseDuration)
  }

  lemma {:induction false} PhrasePiecesSnoc(bs: seq<Boundary>, b: Boundary, words: seq<WordTimestamp>, maxPhraseDuration: real)
    requires PhrasePieces(bs, words, maxPhraseDuration) && PhrasePiece(b, words, maxPhraseDuration)
    ensures PhrasePieces(bs + [b], words, maxPhraseDuration)
  {
    SnocAt(bs, b);
  }

  lemma {:induction false} PhraseScanSpec(words: seq<WordTimestamp>, maxPhraseDuration: real, preferPunctuation: bool, k: nat)
    requires k <= |words|
    ensures Contiguous(PhraseScan(words, maxPhraseDuration, preferPunctuation, k).pieces,
                       PhraseScan(words, maxPhraseDuration, preferPunctuation, k).open)
    ensures PhrasePieces(PhraseScan(words, maxPhraseDuration, preferPunctuation, k).pieces, words, maxPhraseDuration)
  {
    if k > 0 {
      PhraseScanSpec(words, maxPhraseDuration, preferPunctuation, k - 1);
      var prev := PhraseScan(words, maxPhraseDuration, preferPunctuation, k - 1);
      var ps, i := prev.open, k - 1;
      if words[i].end - words[ps].start > maxPhraseDuration {
        BreakPointSpec(words, ps, i, preferPunctuation);
        var bp := BreakPoint(words, ps, i, preferPunctuation);
        var b := Boundary(ps, bp, words[ps].start, EndBefore(words, bp));
        assert PhrasePiece(b, words, maxPhraseDuration);
        ContiguousSnoc(prev.pieces, ps, b);
        PhrasePiecesSnoc(prev.pieces, b, words, maxPhraseDuration);
      }
    }
  }

  /**
   * No words give no phrases. Otherwise the phrases are contiguous from 0 to
   * len(words), the last one is not empty, and every phrase is as
   * PhrasePiece says, an empty one marking a single over-long word.
   */
  lemma {:induction false} PhrasesSpec(words: seq<WordTimestamp>, maxPhraseDuration: real, preferPunctuation: bool)
    ensures |words| == 0 ==> Phrases(words, maxPhraseDuration, preferPunctuation) == []
    ensures |words| > 0 ==> Contiguous(Phrases(words, maxPhraseDuration, preferPunctuation), |words|)
    ensures PhrasePieces(Phrases(words, maxPhraseDuration, preferPunctuation), words, maxPhraseDuration)
    ensures |words| > 0 ==>
      Phrases(words, maxPhraseDuration, preferPunctuation)[|Phrases(words, maxPhraseDuration, preferPunctuation)| - 1].first
        < Phrases(words, maxPhraseDuration, preferPunctuation)[|Phrases(words, maxPhraseDuration, preferPunctuation)| - 1].limit
  {
    if |words| > 0 {
      PhraseScanSpec(words, maxPhraseDuration, preferPunctuation, |words|);
      var sc := PhraseScan(words, maxPhraseDuration, preferPunctuation, |words|);
      var b := Boundary(sc.open, |words|, words[sc.open].start, words[|words| - 1].end);
      assert PhrasePiece(b, words, maxPhraseDuration);
      ContiguousSnoc(sc.pieces, sc.open, b);
      PhrasePiecesSnoc(sc.pieces, b, words, maxPhraseDuration);
      SnocAt(sc.pieces, b);
    }
  }

  /**
   * A first word that alone exceeds the maximum yields an empty (0, 0)
   * phrase whose end time is read from words[-1], the last word; the same
   * word then starts the next phrase again.
   */
  lemma LongFirstWordPhrases()
    ensures var w, v := WordTimestamp("so", 0.0, 6.0, 1.0, 1, false), WordTimestamp("yes", 6.0, 7.0, 1.0, 1, false);
      Phrases([w, v], 5.0, true)
        == [Boundary(0, 0, 0.0, 7.0), Boundary(0, 1, 0.0, 6.0), Boundary(1, 2, 6.0, 7.0)]
  {
    var w, v := WordTimestamp("so", 0.0, 6.0, 1.0, 1, false), WordTimestamp("yes", 6.0, 7.0, 1.0, 1, false);
    var words := [w, v];
    assert PhraseScan(words, 5.0, true, 0) == Scan([], 0);
    assert BreakPoint(words, 0, 0, true) == 0 && EndBefore(words, 0) == 7.0;
    assert PhraseScan(words, 5.0, true, 1) == Scan([Boundary(0, 0, 0.0, 7.0)], 0);
    assert BreakPoint(words, 0, 1, true) == 1 && EndBefore(words, 1) == 6.0;
    assert PhraseScan(words, 5.0, true, 2) == Scan([Boundary(0, 0, 0.0, 7.0), Boundary(0, 1, 0.0, 6.0)], 1);
  }

  // ---------------------------------------------------------------------------
  // Whole transcripts
  // ---------------------------------------------------------------------------

  /** A segment with words gains its sentence boundaries. */
  function WithSentences(a: AlignedSegment): (r: AlignedSegment)
    ensures r.segment == a.segment && r.words == a.words && r.phrases == a.phrases
  {
    if a.words.Some? then a.(sentences := Some(Sentences(a.words.value))) else a
  }

  /** A segment with words gains its phrase boundaries: phrases of at most 4 s, broken at punctuation. */
  function WithPhrases(a: AlignedSegment): (r: AlignedSegment)
    ensures r.segment == a.segment && r.words == a.words && r.sentences == a.sentences
  {
    if a.words.Some? then a.(phrases := Some(Phrases(a.words.value, 4.0, true))) else a
  }

  /** The boundary keys align_transcript adds to an aligned segment. */
  function Annotated(a: AlignedSegment, addSentences: bool, addPhrases: bool): AlignedSegment
  {
    var m := if addSentences then WithSentences(a) else a;
    if addPhrases then WithPhrases(m) else m
  }

  /** Step 2 of align_transcript. */
  method AddSentenceBoundaries(segments: seq<AlignedSegment>) returns (annotated: seq<AlignedSegment>)
    ensures |annotated| == |segments|
    ensures forall i :: 0 <= i < |segments| ==> annotated[i] == WithSentences(segments[i])
  {
    annotated := segments;
    for i := 0 to |annotated|
      invariant |annotated| == |segments|
      invariant forall j :: 0 <= j < i ==> annotated[j] == WithSentences(segments[j])
      invariant forall j :: i <= j < |annotated| ==> annotated[j] == segments[j]
    {
      var segment := annotated[i];
      if segment.words.Some? {
        var sentences := SentenceBoundaries(segment.words.value);
        annotated := annotated[i := segment.(sentences := Some(sentences))];
      }
    }
  }

  /** Step 3 of align_transcript. */
  method AddPhraseBoundaries(segments: seq<AlignedSegment>) returns (annotated: seq<AlignedSegment>)
    ensures |annotated| == |segments|
    ensures forall i :: 0 <= i < |segments| ==> annotated[i] == WithPhrases(segments[i])
  {
    annotated := segments;
    for i := 0 to |annotated|
      invariant |annotated| == |segments|
      invariant forall j :: 0 <= j < i ==> annotated[j] == WithPhrases(segments[j])
      invariant forall j :: i <= j < |annotated| ==> annotated[j] == segments[j]
    {
      var segment := annotated[i];
      if segment.words.Some? {
        var phrases := PhraseBoundaries(segment.words.value, 4.0, true);
        annotated := annotated[i := segment.(phrases := Some(phrases))];
      }
    }
  }

  /** align_transcript: align, then add sentence and phrase boundaries to the segments that have words. */
  method AlignTranscript(transcript: seq<Segment>, useProportionalTiming: bool, addSentenceBoundaries: bool,
                         addPhraseBoundaries: bool)
    returns (aligned: seq<AlignedSegment>)
    ensures |aligned| == |transcript|
    ensures forall i :: 0 <= i < |transcript| ==>
      aligned[i] == Annotated(AlignSegment(transcript[i], useProportionalTiming), addSentenceBoundaries, addPhraseBoundaries)
  {
    aligned := AlignWordsToTimestamps(transcript, useProportionalTiming);
    if addSentenceBoundaries {
      aligned := AddSentenceBoundaries(aligned);
    }
    if addPhraseBoundaries {
      aligned := AddPhraseBoundaries(aligned);
    }
  }

  /**
   * align_transcript keeps each segment's fields and words and adds exactly
   * the requested boundary keys, to the segments that have words.
   */
  lemma {:induction false} AnnotatedSpec(a: AlignedSegment, addSentences: bool, addPhrases: bool)
    ensures var r := Annotated(a, addSentences, addPhrases);
      r.segment == a.segment && r.words == a.words
      && (r.sentences == if addSentences && a.words.Some? then Some(Sentences(a.words.value)) else a.sentences)
      && (r.phrases == if addPhrases && a.words.Some? then Some(Phrases(a.words.value, 4.0, true)) else a.phrases)
  {
  }

  // ---------------------------------------------------------------------------
  // Range queries
  // ---------------------------------------------------------------------------

  /** The word overlaps [startTime, endTime] by a positive amount. */
  predicate Overlaps(w: WordTimestamp, startTime: real, endTime: real) { w.start < endTime && w.end > startTime }

  /** The word lies inside [startTime, endTime]. */
  predicate Within(w: WordTimestamp, startTime: real, endTime: real) { w.start >= startTime && w.end <= endTime }

  function InRangeTest(startTime: real, endTime: real, requireFullOverlap: bool): WordTimestamp -> bool
  {
    (w: WordTimestamp) => if requireFullOverlap then Within(w, startTime, endTime) else Overlaps(w, startTime, endTime)
  }

  /** find_words_in_range. */
  function WordsInRange(words: seq<WordTimestamp>, startTime: real, endTime: real, requireFullOverlap: bool)
    : seq<WordTimestamp>
  {
    Select(words, InRangeTest(startTime, endTime, requireFullOverlap))
  }

  method FindWordsInRange(words: seq<WordTimestamp>, startTime: real, endTime: real, requireFullOverlap: bool)
    returns (matching: seq<WordTimestamp>)
    ensures matching == WordsInRange(words, startTime, endTime, requireFullOverlap)
  {
    var keep := InRangeTest(startTime, endTime, requireFullOverlap);
    matching := [];
    for i := 0 to |words|
      invariant matching == Select(words[..i], keep)
    {
      SelectPrefix(words, i, keep);
      var w := words[i];
      if requireFullOverlap {
        if w.start >= startTime && w.end <= endTime {
          matching := matching + [w];
        }
      } else {
        if w.start < endTime && w.end > startTime {
          matching := matching + [w];
        }
      }
    }
    assert words[..|words|] == words;
  }

  /** A word of positive length inside the range also overlaps it. */
  lemma WithinOverlaps(w: WordTimestamp, startTime: real, endTime: real)
    requires w.start < w.end
    ensures Within(w, startTime, endTime) ==> Overlaps(w, startTime, endTime)
  {
  }

  /**
   * With words of positive length, the fully-contained words are the
   * overlapping words that are fully contained, in the same order: a
   * subsequence of the overlap result.
   */
  lemma {:induction false} FullWithinAny(words: seq<WordTimestamp>, startTime: real, endTime: real)
    requires forall i :: 0 <= i < |words| ==> words[i].start < words[i].end
    ensures WordsInRange(words, startTime, endTime, true)
      == Select(WordsInRange(words, startTime, endTime, false), InRangeTest(startTime, endTime, true))
  {
    SelectNested(words, InRangeTest(startTime, endTime, true), InRangeTest(startTime, endTime, false));
  }

  /** A zero-length word at the end of the range is fully contained in it but does not overlap it. */
  lemma ZeroLengthWordContainedNotOverlapping()
    ensures var w := WordTimestamp("uh", 1.0, 1.0, 1.0, 1, false);
      WordsInRange([w], 0.5, 1.0, true) == [w] && WordsInRange([w], 0.5, 1.0, false) == []
  {
    var w := WordTimestamp("uh", 1.0, 1.0, 1.0, 1, false);
    assert [w][..0] == [];
  }

  /** The text of a word that overlaps the range. */
  function OverlapText(startTime: real, endTime: real): WordTimestamp -> Option<string>
  {
    (w: WordTimestamp) => if Overlaps(w, startTime, endTime) then Some(w.word) else None
  }

  function WordOf(w: WordTimestamp): string { w.word }

  /** extract_text_at_time. */
  function TextAtTime(words: seq<WordTimestamp>, startTime: real, endTime: real): string
  {
    Join(" ", Collect(words, OverlapText(startTime, endTime)))
  }

  method ExtractTextAtTime(words: seq<WordTimestamp>, startTime: real, endTime: real) returns (text: string)
    ensures text == TextAtTime(words, startTime, endTime)
  {
    var selectedWords := [];
    for i := 0 to |words|
      invariant selectedWords == Collect(words[..i], OverlapText(startTime, endTime))
    {
      CollectPrefix(words, i, OverlapText(startTime, endTime));
      if words[i].start < endTime && words[i].end > startTime {
        selectedWords := selectedWords + [words[i].word];
      }
    }
    assert words[..|words|] == words;
    text := Join(" ", selectedWords);
  }

  lemma {:induction false} OverlapTextsAreFound(words: seq<WordTimestamp>, startTime: real, endTime: real)
    ensures Collect(words, OverlapText(startTime, endTime))
      == MapAll(WordsInRange(words, startTime, endTime, false), WordOf)
  {
    if |words| > 0 {
      var init := words[..|words| - 1];
      OverlapTextsAreFound(init, startTime, endTime);
      var found := WordsInRange(init, startTime, endTime, false);
      var last := words[|words| - 1];
      assert words == init + [last];
      CollectSnoc(init, last, OverlapText(startTime, endTime));
      SelectPrefix(words, |words| - 1, InRangeTest(startTime, endTime, false));
      assert words[..|words|] == words;
      if Overlaps(last, startTime, endTime) {
        MapAllPrefix(found + [last], |found|, WordOf);
        assert (found + [last])[..|found|] == found;
        assert (found + [last])[..|found| + 1] == found + [last];
      }
    }
  }

  /** The extracted text is the overlapping words of find_words_in_range joined by single spaces. */
  lemma {:induction false} TextAtTimeSpec(words: seq<WordTimestamp>, startTime: real, endTime: real)
    ensures TextAtTime(words, startTime, endTime)
      == Join(" ", MapAll(WordsInRange(words, startTime, endTime, false), WordOf))
  {
    OverlapTextsAreFound(words, startTime, endTime);
  }

  /** The word is being spoken at t: start <= t <= end. */
  predicate SpokenAt(w: WordTimestamp, t: real) { w.start <= t <= w.end }

  /** get_word_at_time. */
  function WordAt(words: seq<WordTimestamp>, t: real): Option<WordTimestamp>
  {
    if |words| == 0 then None
    else if SpokenAt(words[0], t) then Some(words[0])
    else WordAt(words[1..], t)
  }

  method GetWordAtTime(words: seq<WordTimestamp>, timestamp: real) returns (found: Option<WordTimestamp>)
    ensures found == WordAt(words, timestamp)
  {
    for i := 0 to |words|
      invariant WordAt(words[i..], timestamp) == WordAt(words, timestamp)
    {
      assert words[i..][1..] == words[i + 1..];
      if words[i].start <= timestamp <= words[i].end {
        return Some(words[i]);
      }
    }
    return None;
  }

  /**
   * The word found is the first one spoken at t; there is none exactly when
   * no word is spoken at t.
   */
  lemma {:induction false} WordAtSpec(words: seq<WordTimestamp>, t: real) returns (k: nat)
    ensures WordAt(words, t).None? <==> forall j :: 0 <= j < |words| ==> !SpokenAt(words[j], t)
    ensures WordAt(words, t).Some? ==>
      (k < |words| && WordAt(words, t) == Some(words[k]) && SpokenAt(words[k], t)
       && forall j :: 0 <= j < k ==> !SpokenAt(words[j], t))
  {
    if |words| == 0 || SpokenAt(words[0], t) {
      k := 0;
    } else {
      var k' := WordAtSpec(words[1..], t);
      k := k' + 1;
      assert forall j :: 1 <= j < |words| ==> words[1..][j - 1] == words[j];
    }
  }
}
