/**
 * Rule-based discovery of candidate moments, and the helpers beside it:
 * language sniffing, MM:SS formatting, the text of a time range, the
 * timestamped listing of a transcript handed to a language model, and the
 * composite score of the moments found by energy analysis.
 */
module Extractor {
  import opened Wrappers
  import opened Strings
  import opened Numbers
  import opened Selection
  import opened Transcript
  import opened Sorting
  import opened HookDetector
  import opened EnergyAnalyzer

  // ---------------------------------------------------------------------------
  // Language sniffing
  // ---------------------------------------------------------------------------

  /** A regex search for one character class [lo-hi]. */
  predicate HasCharIn(s: string, lo: char, hi: char)
  {
    exists i :: 0 <= i < |s| && lo <= s[i] <= hi
  }

  predicate HasDevanagari(s: string) { HasCharIn(s, '\U{0900}', '\U{097F}') }

  predicate HasCjk(s: string) { HasCharIn(s, '\U{4E00}', '\U{9FFF}') }

  predicate HasArabic(s: string) { HasCharIn(s, '\U{0600}', '\U{06FF}') }

  /** The languages the sniffer can report. */
  const DetectedLanguages: seq<string> := ["hindi", "chinese", "arabic", "english"]

  /** detect_language: the first script found, in the order Devanagari, CJK, Arabic. */
  function DetectLanguage(text: string): string
  {
    if HasDevanagari(text) then "hindi"
    else if HasCjk(text) then "chinese"
    else if HasArabic(text) then "arabic"
    else "english"
  }

  /**
   * Each language is reported exactly when its script is present and no
   * script checked earlier is; text made of ASCII characters is English.
   */
  lemma DetectLanguageOrder(text: string)
    ensures DetectLanguage(text) == "hindi" <==> HasDevanagari(text)
    ensures DetectLanguage(text) == "chinese" <==> !HasDevanagari(text) && HasCjk(text)
    ensures DetectLanguage(text) == "arabic" <==> !HasDevanagari(text) && !HasCjk(text) && HasArabic(text)
    ensures DetectLanguage(text) == "english" <==> !HasDevanagari(text) && !HasCjk(text) && !HasArabic(text)
    ensures (forall i :: 0 <= i < |text| ==> text[i] as int < 128) ==> DetectLanguage(text) == "english"
    ensures DetectLanguage(text) in DetectedLanguages && DetectLanguage(text) != "spanish"
  {
  }

  // ---------------------------------------------------------------------------
  // MM:SS
  // ---------------------------------------------------------------------------

  /** format_time: f"{int(s // 60):02d}:{int(s % 60):02d}". */
  function FormatTime(seconds: real): string
  {
    var minutes := (seconds / 60.0).Floor;
    var secs := Trunc(PyMod(seconds, 60.0));
    PadInt(minutes, 2) + ":" + PadInt(secs, 2)
  }

  /**
   * The time is written as whole minutes, a colon and whole seconds, where
   * the seconds lie in [0, 60) and minutes*60 + seconds is the time with its
   * fraction dropped.
   */
  lemma FormatTimeParts(seconds: real)
    ensures exists minutes: int, secs: int ::
      FormatTime(seconds) == PadInt(minutes, 2) + ":" + PadInt(secs, 2)
      && 0 <= secs < 60
      && (minutes * 60 + secs) as real <= seconds < (minutes * 60 + secs + 1) as real
  {
    var minutes := (seconds / 60.0).Floor;
    var m := PyMod(seconds, 60.0);
    var secs := Trunc(m);
    assert m == seconds - 60.0 * minutes as real;
    assert 0 <= secs < 60;
    assert FormatTime(seconds) == PadInt(minutes, 2) + ":" + PadInt(secs, 2);
  }

  /** Below 100 minutes the result is exactly MM:SS: five characters, digits around a colon. */
  lemma FormatTimeShape(seconds: real)
    requires 0.0 <= seconds < 6000.0
    ensures var r := FormatTime(seconds);
      |r| == 5 && r[2] == ':'
      && IsDigit(r[0]) && IsDigit(r[1]) && IsDigit(r[3]) && IsDigit(r[4])
      && '0' <= r[3] <= '5'
      && ((DigitValue(r[0]) * 10 + DigitValue(r[1])) * 60 + DigitValue(r[3]) * 10 + DigitValue(r[4])) as real <= seconds
  {
    var minutes := (seconds / 60.0).Floor;
    var m := PyMod(seconds, 60.0);
    var secs := Trunc(m);
    assert m == seconds - 60.0 * minutes as real;
    assert 0 <= minutes < 100 by {
      assert seconds / 60.0 < 100.0;
    }
    PadTwoDigits(minutes);
    PadTwoDigits(secs);
    assert (minutes * 60 + secs) as real <= seconds;
  }

  // ---------------------------------------------------------------------------
  // Text of a time range
  // ---------------------------------------------------------------------------

  /** get_text_between_times: the segments lying fully inside [start, end], joined. */
  function GetTextBetweenTimes(transcript: seq<Segment>, start: real, end: real): string
  {
    JoinedText(WindowTexts(transcript, Inside, start, end))
  }

  /** The loop of get_text_between_times: the texts of the segments inside the range, then the join. */
  method TextBetweenTimes(transcript: seq<Segment>, start: real, end: real) returns (text: string)
    ensures text == GetTextBetweenTimes(transcript, start, end)
  {
    var textParts: seq<string> := [];
    for i := 0 to |transcript|
      invariant textParts == WindowTexts(transcript[..i], Inside, start, end)
    {
      var segment := transcript[i];
      WindowTextsSnoc(transcript[..i], segment, Inside, start, end);
      assert transcript[..i + 1] == transcript[..i] + [segment];
      if segment.start >= start && segment.end <= end {
        textParts := textParts + [segment.text];
      }
    }
    assert transcript[..|transcript|] == transcript;
    text := JoinedText(textParts);
  }

  /**
   * The text is the stripped join of the texts of exactly those segments
   * that start at or after start and end at or before end, in transcript order.
   */
  lemma TextBetweenTimesSpec(transcript: seq<Segment>, start: real, end: real)
    returns (texts: seq<string>, p: seq<nat>)
    ensures GetTextBetweenTimes(transcript, start, end) == JoinedText(texts)
    ensures |texts| == |p|
    ensures forall j :: 0 <= j < |p| ==> p[j] < |transcript| && texts[j] == transcript[p[j]].text
    ensures forall i, j :: 0 <= i < j < |p| ==> p[i] < p[j]
    ensures forall k :: 0 <= k < |transcript| ==>
      (k in p <==> transcript[k].start >= start && transcript[k].end <= end)
  {
    WindowTextsSpec(transcript, Inside, start, end);
    p := SelectedPositions(transcript, (seg: Segment) => InWindow(seg, Inside, start, end));
    texts := WindowTexts(transcript, Inside, start, end);
  }

  // ---------------------------------------------------------------------------
  // Candidate windows
  // ---------------------------------------------------------------------------

  /** The window of segments first..last, both included. */
  datatype Window = Window(first: nat, last: nat)

  /** min(i + 20, n): the exclusive bound on the last segment of a window opened at i. */
  function EndLimit(n: nat, i: nat): nat
  {
    if i + 20 < n then i + 20 else n
  }

  /** Scan order: by first segment, then by last segment. */
  predicate Before(a: Window, b: Window)
  {
    a.first < b.first || (a.first == b.first && a.last < b.last)
  }

  /** The windows opened at i whose last segment lies in [i + 1, e), by ascending last segment. */
  function RowWindows(i: nat, e: nat): (r: seq<Window>)
    ensures |r| == if e > i + 1 then e - i - 1 else 0
  {
    if e <= i + 1 then [] else RowWindows(i, e - 1) + [Window(i, e - 1)]
  }

  /** Row i lists the windows ending at i+1, i+2, ... in that order. */
  lemma {:induction false} RowWindowsAt(i: nat, e: nat)
    ensures forall k :: 0 <= k < |RowWindows(i, e)| ==> RowWindows(i, e)[k] == Window(i, i + 1 + k)
    decreases e
  {
    if e > i + 1 {
      RowWindowsAt(i, e - 1);
    }
  }

  /** The windows the scan visits for the opening segments 0..k-1, in scan order. */
  function ScanWindows(n: nat, k: nat): (r: seq<Window>)
    ensures forall j :: 0 <= j < |r| ==> r[j].first < k && r[j].first < r[j].last < EndLimit(n, r[j].first)
  {
    if k == 0 then []
    else
      RowWindowsAt(k - 1, EndLimit(n, k - 1));
      ScanWindows(n, k - 1) + RowWindows(k - 1, EndLimit(n, k - 1))
  }

  /** The scan visits every window that opens before segment k and spans two to twenty segments. */
  lemma {:induction false} ScanWindowsComplete(n: nat, k: nat)
    ensures forall w: Window :: w.first < k && w.first < w.last < EndLimit(n, w.first) ==> w in ScanWindows(n, k)
  {
    if k > 0 {
      ScanWindowsComplete(n, k - 1);
      var prev := ScanWindows(n, k - 1);
      var row := RowWindows(k - 1, EndLimit(n, k - 1));
      RowWindowsAt(k - 1, EndLimit(n, k - 1));
      assert ScanWindows(n, k) == prev + row;
      forall w: Window | w.first < k && w.first < w.last < EndLimit(n, w.first) ensures w in prev + row {
        if w.first < k - 1 {
          assert w in prev;
        } else {
          assert row[w.last - k] == w;
          assert (prev + row)[|prev| + w.last - k] == w;
        }
      }
    }
  }

  /** The scan visits the windows in scan order, so each at most once. */
  lemma {:induction false} ScanWindowsOrdered(n: nat, k: nat)
    ensures forall a, b :: 0 <= a < b < |ScanWindows(n, k)| ==> Before(ScanWindows(n, k)[a], ScanWindows(n, k)[b])
  {
    if k > 0 {
      ScanWindowsOrdered(n, k - 1);
      var prev := ScanWindows(n, k - 1);
      var row := RowWindows(k - 1, EndLimit(n, k - 1));
      RowWindowsAt(k - 1, EndLimit(n, k - 1));
      var all := ScanWindows(n, k);
      assert all == prev + row;
      forall a, b | 0 <= a < b < |all| ensures Before(all[a], all[b]) {
        if b < |prev| {
          assert all[a] == prev[a] && all[b] == prev[b];
        } else if a >= |prev| {
          assert all[a] == row[a - |prev|] == Window(k - 1, k + a - |prev|);
          assert all[b] == row[b - |prev|] == Window(k - 1, k + b - |prev|);
        } else {
          assert all[a] == prev[a] && prev[a].first < k - 1;
          assert all[b] == row[b - |prev|] && row[b - |prev|].first == k - 1;
        }
      }
    }
  }

  /** Every window lies in a transcript of n segments. */
  predicate InTranscript(transcript: seq<Segment>, ws: seq<Window>)
  {
    forall k :: 0 <= k < |ws| ==> ws[k].first <= ws[k].last < |transcript|
  }

  /** ' '.join of the texts of segments first..last, stripped. */
  function WindowText(transcript: seq<Segment>, w: Window): string
    requires w.first <= w.last < |transcript|
  {
    JoinedText(SpanTexts(transcript, w.first, w.last + 1))
  }

  /** The texts of segments i..j-1, in transcript order. */
  function SpanTexts(transcript: seq<Segment>, i: nat, j: nat): seq<string>
    requires i <= j <= |transcript|
    decreases j
  {
    if j == i then [] else SpanTexts(transcript, i, j - 1) + [transcript[j - 1].text]
  }

  /** A span's texts are the texts of the transcript slice. */
  lemma {:induction false} SpanTextsOfSlice(transcript: seq<Segment>, i: nat, j: nat)
    requires i <= j <= |transcript|
    ensures SpanTexts(transcript, i, j) == Texts(transcript[i..j])
    decreases j
  {
    if j > i {
      SpanTextsOfSlice(transcript, i, j - 1);
      assert transcript[i..j] == transcript[i..j - 1] + [transcript[j - 1]];
    }
  }

  /** The duration test and the word-count test a window must pass. */
  predicate Qualifies(transcript: seq<Segment>, w: Window, minLength: real, maxLength: real)
    requires w.first <= w.last < |transcript|
  {
    var duration := transcript[w.last].end - transcript[w.first].start;
    minLength <= duration <= maxLength && WordCount(WindowText(transcript, w)) > 20
  }

  /** The candidate a window yields. */
  function CandidateOf(transcript: seq<Segment>, w: Window): Moment
    requires w.first <= w.last < |transcript|
  {
    var text := WindowText(transcript, w);
    Candidate(transcript[w.first].start, transcript[w.last].end, text, DetectLanguage(text))
  }

  /** The candidate a window yields, if it lies in the transcript and qualifies. */
  function Emit(transcript: seq<Segment>, minLength: real, maxLength: real): Window -> Option<Moment>
  {
    (w: Window) =>
      if w.first <= w.last < |transcript| && Qualifies(transcript, w, minLength, maxLength)
      then Some(CandidateOf(transcript, w)) else None
  }

  /** extract_candidate_moments: the first 50 candidates of the scan. */
  function CandidateMoments(transcript: seq<Segment>, minLength: real, maxLength: real): seq<Moment>
  {
    var n := |transcript|;
    Prefix(Collect(ScanWindows(n, n), Emit(transcript, minLength, maxLength)), 50)
  }

  method ExtractCandidateMoments(transcript: seq<Segment>, minLength: real, maxLength: real)
    returns (candidates: seq<Moment>)
    ensures candidates == CandidateMoments(transcript, minLength, maxLength)
  {
    var n := |transcript|;
    ghost var emit := Emit(transcript, minLength, maxLength);
    candidates := [];
    for i := 0 to n
      invariant candidates == Collect(ScanWindows(n, i), emit)
    {
      var row := ScanRow(transcript, i, minLength, maxLength);
      CollectAppend(ScanWindows(n, i), RowWindows(i, EndLimit(n, i)), emit);
      candidates := candidates + row;
    }
    candidates := Prefix(candidates, 50);
  }

  /** The windows opened at segment i: window_end from i + 1 up to min(i + 20, n) - 1. */
  method ScanRow(transcript: seq<Segment>, i: nat, minLength: real, maxLength: real)
    returns (row: seq<Moment>)
    requires i < |transcript|
    ensures row == Collect(RowWindows(i, EndLimit(|transcript|, i)), Emit(transcript, minLength, maxLength))
  {
    var n := |transcript|;
    var limit := if i + 20 < n then i + 20 else n;
    row := [];
    RowStart(i, Emit(transcript, minLength, maxLength));
    for windowEnd := i + 1 to limit
      invariant row == Collect(RowWindows(i, windowEnd), Emit(transcript, minLength, maxLength))
    {
      row := ExtendRow(transcript, i, windowEnd, minLength, maxLength, row);
    }
  }

  /** One pass of the window_end loop: the window i..windowEnd adds its candidate, if it has one. */
  method ExtendRow(transcript: seq<Segment>, i: nat, windowEnd: nat, minLength: real, maxLength: real, row: seq<Moment>)
    returns (extended: seq<Moment>)
    requires i < windowEnd < |transcript|
    requires row == Collect(RowWindows(i, windowEnd), Emit(transcript, minLength, maxLength))
    ensures extended == Collect(RowWindows(i, windowEnd + 1), Emit(transcript, minLength, maxLength))
  {
    var candidate := ConsiderWindow(transcript, i, windowEnd, minLength, maxLength);
    RowStep(i, windowEnd, Emit(transcript, minLength, maxLength), row, candidate);
    extended := row + OptionList(candidate);
  }

  /** No window ends before the one after the opening segment. */
  lemma RowStart<X>(i: nat, f: Window -> Option<X>)
    ensures Collect(RowWindows(i, i + 1), f) == []
  {
  }

  /** A step of the window_end loop appends the candidate of the window it considers, if any. */
  lemma RowStep<X>(i: nat, windowEnd: nat, f: Window -> Option<X>, row: seq<X>, candidate: Option<X>)
    requires row == Collect(RowWindows(i, windowEnd), f)
    requires candidate == f(Window(i, windowEnd))
    requires i < windowEnd
    ensures row + OptionList(candidate) == Collect(RowWindows(i, windowEnd + 1), f)
  {
    assert RowWindows(i, windowEnd + 1) == RowWindows(i, windowEnd) + [Window(i, windowEnd)];
    CollectSnoc(RowWindows(i, windowEnd), Window(i, windowEnd), f);
  }

  /** The body of the scan for one window: the duration test, the text, the word-count test. */
  method ConsiderWindow(transcript: seq<Segment>, i: nat, windowEnd: nat, minLength: real, maxLength: real)
    returns (candidate: Option<Moment>)
    requires i < windowEnd < |transcript|
    ensures candidate == Emit(transcript, minLength, maxLength)(Window(i, windowEnd))
  {
    candidate := None;
    var startTime := transcript[i].start;
    var endTime := transcript[windowEnd].end;
    var duration := endTime - startTime;
    if minLength <= duration <= maxLength {
      var text := JoinWindow(transcript, i, windowEnd);
      if WordCount(text) > 20 {
        candidate := Some(Candidate(startTime, endTime, text, DetectLanguage(text)));
      }
    }
  }

  /** ' '.join(transcript[j]['text'] for j in range(i, window_end + 1)).strip() */
  method JoinWindow(transcript: seq<Segment>, i: nat, windowEnd: nat) returns (text: string)
    requires i <= windowEnd < |transcript|
    ensures text == WindowText(transcript, Window(i, windowEnd))
  {
    var textParts: seq<string> := [];
    for j := i to windowEnd + 1
      invariant textParts == SpanTexts(transcript, i, j)
    {
      textParts := textParts + [transcript[j].text];
    }
    text := JoinedText(textParts);
  }

  /** A candidate's window spans two to twenty segments and passes both tests. */
  predicate FromWindow(transcript: seq<Segment>, m: Moment, w: Window, minLength: real, maxLength: real)
  {
    w.first < w.last < EndLimit(|transcript|, w.first)
    && m == CandidateOf(transcript, w)
    && Qualifies(transcript, w, minLength, maxLength)
  }

  /**
   * What extract_candidate_moments returns: at most 50 candidates, each made
   * from a window of two to twenty consecutive segments that starts at its
   * first segment's start, ends at its last segment's end, lasts between
   * minLength and maxLength, has more than 20 words and carries the language
   * of its text; the windows come in scan order, and when fewer than 50 are
   * returned every qualifying window is among them.
   */
  lemma CandidateMomentsSpec(transcript: seq<Segment>, minLength: real, maxLength: real)
    returns (ws: seq<Window>)
    ensures |CandidateMoments(transcript, minLength, maxLength)| <= 50
    ensures |ws| == |CandidateMoments(transcript, minLength, maxLength)|
    ensures forall j :: 0 <= j < |ws| ==>
      FromWindow(transcript, CandidateMoments(transcript, minLength, maxLength)[j], ws[j], minLength, maxLength)
    ensures forall i, j :: 0 <= i < j < |ws| ==> Before(ws[i], ws[j])
    ensures |ws| < 50 ==> forall w: Window ::
      (w.first < w.last < EndLimit(|transcript|, w.first)
       && Qualifies(transcript, w, minLength, maxLength)) ==> w in ws
  {
    var n := |transcript|;
    var emit := Emit(transcript, minLength, maxLength);
    var r := CandidateMoments(transcript, minLength, maxLength);
    ws := ScanFound(n, emit);
    forall j | 0 <= j < |ws| ensures FromWindow(transcript, r[j], ws[j], minLength, maxLength) {
      assert emit(ws[j]) == Some(r[j]);
    }
    if |ws| < 50 {
      forall w: Window | w.first < w.last < EndLimit(n, w.first) && Qualifies(transcript, w, minLength, maxLength)
        ensures w in ws
      {
        assert emit(w).Some?;
      }
    }
  }

  /**
   * The first 50 results a window function yields along the scan: what each
   * comes from, in scan order, and when fewer than 50, all of them.
   */
  lemma ScanFound<X>(n: nat, f: Window -> Option<X>) returns (ws: seq<Window>)
    ensures |Prefix(Collect(ScanWindows(n, n), f), 50)| <= 50
    ensures |ws| == |Prefix(Collect(ScanWindows(n, n), f), 50)|
    ensures forall j :: 0 <= j < |ws| ==>
      ws[j].first < ws[j].last < EndLimit(n, ws[j].first) && f(ws[j]) == Some(Prefix(Collect(ScanWindows(n, n), f), 50)[j])
    ensures forall i, j :: 0 <= i < j < |ws| ==> Before(ws[i], ws[j])
    ensures |ws| < 50 ==> forall w: Window ::
      (w.first < w.last < EndLimit(n, w.first) && f(w).Some?) ==> w in ws
  {
    var all := ScanWindows(n, n);
    ScanWindowsOrdered(n, n);
    ScanWindowsComplete(n, n);
    ws := FirstPicked(n, all, f);
    if |ws| < 50 {
      forall w: Window | w.first < w.last < EndLimit(n, w.first) && f(w).Some? ensures w in ws {
        assert w in all;
      }
    }
  }

  /** The first 50 results of f along any ordered list of windows, with the windows yielding them. */
  lemma FirstPicked<X>(n: nat, all: seq<Window>, f: Window -> Option<X>) returns (ws: seq<Window>)
    requires forall k :: 0 <= k < |all| ==> all[k].first < all[k].last < EndLimit(n, all[k].first)
    requires forall a, b :: 0 <= a < b < |all| ==> Before(all[a], all[b])
    ensures |ws| == |Prefix(Collect(all, f), 50)|
    ensures forall j :: 0 <= j < |ws| ==>
      ws[j].first < ws[j].last < EndLimit(n, ws[j].first) && f(ws[j]) == Some(Prefix(Collect(all, f), 50)[j])
    ensures forall i, j :: 0 <= i < j < |ws| ==> Before(ws[i], ws[j])
    ensures |ws| < 50 ==> forall w :: w in all && f(w).Some? ==> w in ws
  {
    var found := Collect(all, f);
    var p := CollectSpec(all, f);
    var r := Prefix(found, 50);
    ws := seq(|r|, j requires 0 <= j < |r| => all[p[j]]);
    PickedValues(n, all, f, p, found, r, ws);
    PickedOrdered(all, p, ws);
    if |r| < 50 {
      assert r == found;
      PickedComplete(all, f, p, ws);
    }
  }

  /** Windows picked at the positions of the first results are scan windows yielding those results. */
  lemma PickedValues<X>(n: nat, all: seq<Window>, f: Window -> Option<X>, p: seq<nat>, found: seq<X>, r: seq<X>, ws: seq<Window>)
    requires forall k :: 0 <= k < |all| ==> all[k].first < all[k].last < EndLimit(n, all[k].first)
    requires |p| == |found| && r <= found && |ws| == |r|
    requires forall j :: 0 <= j < |p| ==> p[j] < |all| && f(all[p[j]]) == Some(found[j])
    requires forall j :: 0 <= j < |ws| ==> ws[j] == all[p[j]]
    ensures forall j :: 0 <= j < |ws| ==>
      ws[j].first < ws[j].last < EndLimit(n, ws[j].first) && f(ws[j]) == Some(r[j])
  {
    forall j | 0 <= j < |ws|
      ensures ws[j].first < ws[j].last < EndLimit(n, ws[j].first) && f(ws[j]) == Some(r[j])
    {
      assert r[j] == found[j];
    }
  }

  /** Windows picked from an ordered list at ascending positions are ordered. */
  lemma PickedOrdered(all: seq<Window>, p: seq<nat>, ws: seq<Window>)
    requires forall a, b :: 0 <= a < b < |all| ==> Before(all[a], all[b])
    requires |p| >= |ws|
    requires forall j :: 0 <= j < |ws| ==> p[j] < |all| && ws[j] == all[p[j]]
    requires forall i, j :: 0 <= i < j < |p| ==> p[i] < p[j]
    ensures forall i, j :: 0 <= i < j < |ws| ==> Before(ws[i], ws[j])
  {
    forall i, j | 0 <= i < j < |ws| ensures Before(ws[i], ws[j]) {
      assert p[i] < p[j];
    }
  }

  /** Picking every position f accepts picks every accepted window of the list. */
  lemma PickedComplete<X>(all: seq<Window>, f: Window -> Option<X>, p: seq<nat>, ws: seq<Window>)
    requires |p| == |ws|
    requires forall j :: 0 <= j < |ws| ==> p[j] < |all| && ws[j] == all[p[j]]
    requires forall k :: 0 <= k < |all| && f(all[k]).Some? ==> k in p
    ensures forall w :: w in all && f(w).Some? ==> w in ws
  {
    forall w | w in all && f(w).Some? ensures w in ws {
      var k :| 0 <= k < |all| && all[k] == w;
      var j :| 0 <= j < |p| && p[j] == k;
      assert ws[j] == w;
    }
  }

  /** The fields of a candidate, read off its window. */
  lemma CandidateFields(transcript: seq<Segment>, m: Moment, w: Window, minLength: real, maxLength: real)
    requires FromWindow(transcript, m, w, minLength, maxLength)
    ensures m.start == transcript[w.first].start && m.end == transcript[w.last].end
    ensures m.duration == m.end - m.start && minLength <= m.duration <= maxLength
    ensures WordCount(m.text) > 20 && m.language == Some(DetectLanguage(m.text))
    ensures m.score.None?
  {
  }

  // ---------------------------------------------------------------------------
  // Timestamped listing for a language model
  // ---------------------------------------------------------------------------

  const TruncationNote: string := "... (transcript truncated to fit context) ..."

  /** The line that closes a truncated listing: a newline, then the note. */
  const TruncationMarker: string := "\n" + TruncationNote

  lemma MarkerOpensWithNewline()
    ensures |TruncationMarker| > 0 && TruncationMarker[0] == '\n'
  {
  }

  /** One listing line: "[MM:SS] text". */
  function ListingLine(seg: Segment): (r: string)
    ensures |r| > 0 && r[0] == '['
  {
    "[" + FormatTime(seg.start) + "] " + seg.text
  }

  /** The summed length of the lines of segs. */
  function ListingLength(segs: seq<Segment>, lineOf: Segment -> string): nat
  {
    if |segs| == 0 then 0 else ListingLength(segs[..|segs| - 1], lineOf) + |lineOf(segs[|segs| - 1])|
  }

  /**
   * The number of segments listed: the first position k at or after from
   * whose line would carry the running length past maxChars, or |t| when
   * there is none.
   */
  function FitFrom(t: seq<Segment>, lineOf: Segment -> string, maxChars: int, from: nat): (k: nat)
    requires from <= |t|
    ensures from <= k <= |t|
    ensures forall j :: from < j <= k ==> ListingLength(t[..j], lineOf) <= maxChars
    ensures k < |t| ==> ListingLength(t[..k + 1], lineOf) > maxChars
    decreases |t| - from
  {
    if from == |t| || ListingLength(t[..from + 1], lineOf) > maxChars then from
    else FitFrom(t, lineOf, maxChars, from + 1)
  }

  /** The lines of the listing: the lines that fit, then the marker when something was cut. */
  function ListingLines(t: seq<Segment>, lineOf: Segment -> string, maxChars: int): seq<string>
  {
    var k := FitFrom(t, lineOf, maxChars, 0);
    MapAll(t[..k], lineOf) + (if k < |t| then [TruncationMarker] else [])
  }

  /** prepare_transcript_for_ai */
  function PreparedTranscript(t: seq<Segment>, maxChars: int): string
  {
    Join("\n", ListingLines(t, ListingLine, maxChars))
  }

  method PrepareTranscriptForAi(transcript: seq<Segment>, maxChars: int) returns (listing: string)
    ensures listing == PreparedTranscript(transcript, maxChars)
  {
    var lines := ListWithin(transcript, ListingLine, maxChars);
    listing := Join("\n", lines);
  }

  /** The loop of prepare_transcript_for_ai, for any way of writing a line. */
  method ListWithin(transcript: seq<Segment>, lineOf: Segment -> string, maxChars: int)
    returns (lines: seq<string>)
    ensures lines == ListingLines(transcript, lineOf, maxChars)
  {
    lines := [];
    var charCount := 0;
    var i := 0;
    while i < |transcript|
      invariant 0 <= i <= |transcript|
      invariant lines == MapAll(transcript[..i], lineOf)
      invariant charCount == ListingLength(transcript[..i], lineOf)
      invariant FitFrom(transcript, lineOf, maxChars, i) == FitFrom(transcript, lineOf, maxChars, 0)
    {
      var segment := transcript[i];
      var line := lineOf(segment);
      assert transcript[..i + 1][..i] == transcript[..i];
      if charCount + |line| > maxChars {
        lines := lines + [TruncationMarker];
        break;
      }
      MapAllPrefix(transcript, i, lineOf);
      lines := lines + [line];
      charCount := charCount + |line|;
      i := i + 1;
    }
    assert transcript[..|transcript|] == transcript;
  }

  /**
   * What the listing holds, for lines that start with '[': the lines of a
   * prefix of the transcript whose summed length stays within maxChars (when
   * it is not empty), followed by the truncation marker exactly when a
   * segment was left out, which is when the next line would have passed the
   * limit; the marker appears at most once, as the last line.
   */
  lemma ListingLinesSpec(t: seq<Segment>, lineOf: Segment -> string, maxChars: int)
    returns (k: nat)
    requires forall seg :: |lineOf(seg)| > 0 && lineOf(seg)[0] == '['
    ensures k <= |t|
    ensures |ListingLines(t, lineOf, maxChars)| == k + (if k < |t| then 1 else 0)
    ensures forall j :: 0 <= j < k ==> ListingLines(t, lineOf, maxChars)[j] == lineOf(t[j])
    ensures k > 0 ==> ListingLength(t[..k], lineOf) <= maxChars
    ensures k < |t| ==> ListingLength(t[..k + 1], lineOf) > maxChars
    ensures k < |t| ==> ListingLines(t, lineOf, maxChars)[k] == TruncationMarker
    ensures forall j ::
      (0 <= j < |ListingLines(t, lineOf, maxChars)| && ListingLines(t, lineOf, maxChars)[j] == TruncationMarker)
      ==> j == k == |ListingLines(t, lineOf, maxChars)| - 1
  {
    k := FitFrom(t, lineOf, maxChars, 0);
    var ls := ListingLines(t, lineOf, maxChars);
    MapAllAt(t[..k], lineOf);
    forall j | 0 <= j < |ls| && ls[j] == TruncationMarker ensures j == k == |ls| - 1 {
      if j < k {
        assert ls[j] == lineOf(t[j]);
        assert ls[j][0] == '[';
        MarkerOpensWithNewline();
      }
    }
  }

  /** The repository's own listing lines start with '[', so the facts above hold for it. */
  lemma PreparedTranscriptSpec(t: seq<Segment>, maxChars: int) returns (k: nat)
    ensures PreparedTranscript(t, maxChars) == Join("\n", ListingLines(t, ListingLine, maxChars))
    ensures k <= |t|
    ensures |ListingLines(t, ListingLine, maxChars)| == k + (if k < |t| then 1 else 0)
    ensures forall j :: 0 <= j < k ==> ListingLines(t, ListingLine, maxChars)[j] == ListingLine(t[j])
    ensures k > 0 ==> ListingLength(t[..k], ListingLine) <= maxChars
    ensures k < |t| ==> ListingLength(t[..k + 1], ListingLine) > maxChars
    ensures forall j ::
      (0 <= j < |ListingLines(t, ListingLine, maxChars)| && ListingLines(t, ListingLine, maxChars)[j] == TruncationMarker)
      ==> j == k
  {
    k := ListingLinesSpec(t, ListingLine, maxChars);
  }

  // ---------------------------------------------------------------------------
  // Moments from energy analysis
  // ---------------------------------------------------------------------------

  /** The settings extract_auto_moments passes to the spike detector. */
  const AutoSegmentSize: real := 0.5
  const AutoThresholdMultiplier: real := 1.5
  const AutoWindowSize: int := 10

  /** 50% the viral score, 30% the hook strength scaled to 3, 20% a baseline of 7. */
  function CompositeScore(viralScore: real, hookStrength: real): real
  {
    viralScore * 0.5 + hookStrength / 10.0 * 3.0 * 0.3 + 7.0 * 0.2
  }

  /**
   * With a viral score and a hook strength in [0, 10], the composite lies in
   * [1.4, 7.3], so the cap at 10 never applies.
   */
  lemma CompositeBounds(viralScore: real, hookStrength: real)
    requires 0.0 <= viralScore <= 10.0 && 0.0 <= hookStrength <= 10.0
    ensures 1.4 <= CompositeScore(viralScore, hookStrength) <= 7.3
    ensures Min(10.0, CompositeScore(viralScore, hookStrength)) == CompositeScore(viralScore, hookStrength)
  {
  }

  /** The moment built for one selected spike: its times, its text, the composite score, the hook verdict. */
  function EnergyMoment(transcript: seq<Segment>, spike: EnergySpike): Moment
  {
    var hookSignal := OpeningSignal(transcript, spike.start, Some(spike.end));
    var text := GetTextBetweenTimes(transcript, spike.start, spike.end);
    Moment(spike.start, spike.end, spike.duration, text, Some(DetectLanguage(text)),
           Some(Min(10.0, CompositeScore(spike.viralScore, hookSignal.strength))), None, None, None, None,
           Some(EnergyInfo(spike.energyLevel, spike.keywords, hookSignal.hookType.Name(), hookSignal.strength,
                           EnergyReason(spike.energyLevel, spike.keywords), "energy_analysis")))
  }

  /**
   * The `reason` of an energy moment: the level to no decimals out of 100, then
   * the keywords joined by ", ", or "none" when there are none. The keywords are
   * a set, so they are listed in lexicographic order, one of the orders a set
   * may present them in.
   */
  function EnergyReason(energyLevel: real, keywords: set<string>): string
  {
    "Energy: " + FormatFixed(energyLevel, 0) + "/100, Keywords: "
    + Join(", ", if keywords == {} then ["none"] else Listing(keywords))
  }

  /**
   * The reason names the level rounded half to even and lists every keyword
   * exactly once, in some order, or "none" for no keyword.
   */
  lemma EnergyReasonSpec(energyLevel: real, keywords: set<string>) returns (listed: seq<string>)
    requires 0.0 <= energyLevel
    ensures EnergyReason(energyLevel, keywords)
            == "Energy: " + NatToString(RoundToInt(energyLevel)) + "/100, Keywords: " + Join(", ", listed)
    ensures keywords == {} ==> listed == ["none"]
    ensures keywords != {} ==> |listed| == |keywords| && (forall k :: 0 <= k < |listed| ==> listed[k] in keywords)
    ensures keywords != {} ==> forall y :: y in keywords ==> y in listed
    ensures forall a, b :: 0 <= a < b < |listed| ==> listed[a] != listed[b]
  {
    listed := if keywords == {} then ["none"] else Listing(keywords);
    assert Pow10(0) == 1;
  }

  function EnergyMomentOf(transcript: seq<Segment>): EnergySpike -> Moment
  {
    (spike: EnergySpike) => EnergyMoment(transcript, spike)
  }

  /** The sort key of the final list. */
  function ScoreKey(m: Moment): real
  {
    if m.score.Some? then m.score.value else 0.0
  }

  /**
   * extract_auto_moments over an energy trace: with no spike, the rule-based
   * candidates; otherwise the spikes fused with keywords, the first
   * `targetClips` of suitable duration, each turned into a moment, highest
   * score first.
   */
  function AutoMoments(energies: seq<real>, transcript: seq<Segment>, minLength: real, maxLength: real, targetClips: int)
    : seq<Moment>
    requires NonNegative(energies)
  {
    var spikes := EnergySpikes(energies, AutoSegmentSize, AutoThresholdMultiplier, AutoWindowSize);
    if |spikes| == 0 then CandidateMoments(transcript, minLength, maxLength)
    else
      var viral := TopViralMoments(Combined(spikes, transcript), targetClips, minLength, maxLength);
      var ms := MapAll(viral, EnergyMomentOf(transcript));
      SortDescending(ms, MapAll(ms, ScoreKey))
  }

  /** One step of the final loop: the moment for one spike. */
  method BuildEnergyMoment(transcript: seq<Segment>, spike: EnergySpike) returns (moment: Moment)
    ensures moment == EnergyMoment(transcript, spike)
  {
    var hookSignal := AnalyzeOpening3s(transcript, spike.start, Some(spike.end));
    var text := TextBetweenTimes(transcript, spike.start, spike.end);
    var combinedScore := CompositeScore(spike.viralScore, hookSignal.strength);
    moment := Moment(spike.start, spike.end, spike.duration, text, Some(DetectLanguage(text)),
                     Some(Min(10.0, combinedScore)), None, None, None, None,
                     Some(EnergyInfo(spike.energyLevel, spike.keywords, hookSignal.hookType.Name(), hookSignal.strength,
                                     EnergyReason(spike.energyLevel, spike.keywords), "energy_analysis")));
  }

  /** extract_auto_moments, for a trace read from the audio. */
  method ExtractAutoMoments(energies: seq<real>, transcript: seq<Segment>, minLength: real, maxLength: real, targetClips: int)
    returns (moments: seq<Moment>)
    requires NonNegative(energies)
    ensures moments == AutoMoments(energies, transcript, minLength, maxLength, targetClips)
  {
    var energySpikes := DetectEnergySpikes(energies, AutoSegmentSize, AutoThresholdMultiplier, AutoWindowSize);
    if |energySpikes| == 0 {
      moments := ExtractCandidateMoments(transcript, minLength, maxLength);
      return;
    }
    var combinedSpikes := CombineEnergyAndKeywords(energySpikes, transcript);
    var viralMoments := TopViralMoments(combinedSpikes, targetClips, minLength, maxLength);
    var finalMoments: seq<Moment> := [];
    for i := 0 to |viralMoments|
      invariant finalMoments == MapAll(viralMoments[..i], EnergyMomentOf(transcript))
    {
      var moment := BuildEnergyMoment(transcript, viralMoments[i]);
      MapAllPrefix(viralMoments, i, EnergyMomentOf(transcript));
      finalMoments := finalMoments + [moment];
    }
    assert viralMoments[..|viralMoments|] == viralMoments;
    moments := SortDescending(finalMoments, MapAll(finalMoments, ScoreKey));
  }

  /** What a moment built from a spike with level in [0, 100] and viral score in [0, 10] holds. */
  predicate EnergyMomentShape(m: Moment)
  {
    m.score.Some? && 1.4 <= m.score.value <= 7.3
    && m.language == Some(DetectLanguage(m.text))
    && m.energy.Some? && m.energy.value.source == "energy_analysis"
    && 0.0 <= m.energy.value.energyLevel <= 100.0
    && 0.0 <= m.energy.value.hookStrength <= 10.0
  }

  lemma EnergyMomentSpec(transcript: seq<Segment>, spike: EnergySpike)
    requires 0.0 <= spike.energyLevel <= 100.0 && 0.0 <= spike.viralScore <= 10.0
    ensures EnergyMomentShape(EnergyMoment(transcript, spike))
    ensures EnergyMoment(transcript, spike).start == spike.start && EnergyMoment(transcript, spike).end == spike.end
    ensures EnergyMoment(transcript, spike).duration == spike.duration
    ensures EnergyMoment(transcript, spike).text == GetTextBetweenTimes(transcript, spike.start, spike.end)
    ensures EnergyMoment(transcript, spike).energy.value.viralKeywords == spike.keywords
    ensures EnergyMoment(transcript, spike).energy.value.reason == EnergyReason(spike.energyLevel, spike.keywords)
  {
    VerdictStrength(transcript, spike.start, Some(spike.end));
    CompositeBounds(spike.viralScore, OpeningSignal(transcript, spike.start, Some(spike.end)).strength);
  }

  predicate LevelsWithin(spikes: seq<EnergySpike>)
  {
    forall k :: 0 <= k < |spikes| ==> 0.0 <= spikes[k].energyLevel <= 100.0
  }

  /**
   * Every detected spike has a level in [0, 100] and, before fusion with the
   * transcript, no keyword and a viral score of 0.
   */
  lemma DetectedLevelsWithin(energies: seq<real>)
    requires NonNegative(energies)
    ensures LevelsWithin(EnergySpikes(energies, AutoSegmentSize, AutoThresholdMultiplier, AutoWindowSize))
    ensures forall k :: 0 <= k < |EnergySpikes(energies, AutoSegmentSize, AutoThresholdMultiplier, AutoWindowSize)| ==>
      EnergySpikes(energies, AutoSegmentSize, AutoThresholdMultiplier, AutoWindowSize)[k].viralScore == 0.0
      && EnergySpikes(energies, AutoSegmentSize, AutoThresholdMultiplier, AutoWindowSize)[k].keywords == {}
  {
    var p := EnergySpikesSpec(energies, AutoSegmentSize, AutoThresholdMultiplier, AutoWindowSize);
  }

  /** Fusion with keywords keeps the levels and gives viral scores in [0, 10]. */
  lemma CombinedWithin(spikes: seq<EnergySpike>, transcript: seq<Segment>)
    requires LevelsWithin(spikes)
    ensures forall s :: s in Combined(spikes, transcript) ==> 0.0 <= s.energyLevel <= 100.0 && 0.0 <= s.viralScore <= 10.0
  {
    var p := CombinedSpec(spikes, transcript);
    forall s | s in Combined(spikes, transcript) ensures 0.0 <= s.energyLevel <= 100.0 && 0.0 <= s.viralScore <= 10.0 {
      var j :| 0 <= j < |spikes| && Combined(spikes, transcript)[j] == s;
      WithKeywordsSpec(spikes[p[j]], transcript);
    }
  }

  /** The moments built from some spikes, highest score first. */
  function RankedMoments(viral: seq<EnergySpike>, transcript: seq<Segment>): seq<Moment>
  {
    var ms := MapAll(viral, EnergyMomentOf(transcript));
    SortDescending(ms, MapAll(ms, ScoreKey))
  }

  /**
   * The ranked moments are the moments of the spikes reordered by the
   * permutation p, each spike's moment exactly once, highest score first and
   * equal scores in spike order (list.sort is stable).
   */
  lemma RankedMomentsSpec(viral: seq<EnergySpike>, transcript: seq<Segment>, minLength: real, maxLength: real)
    returns (p: seq<nat>)
    requires forall s :: s in viral ==>
      0.0 <= s.energyLevel <= 100.0 && 0.0 <= s.viralScore <= 10.0 && minLength <= s.duration <= maxLength
    ensures |RankedMoments(viral, transcript)| == |viral| && IsPermutation(p, |viral|)
    ensures forall j :: 0 <= j < |viral| ==> RankedMoments(viral, transcript)[j] == EnergyMoment(transcript, viral[p[j]])
    ensures forall j :: 0 <= j < |viral| ==>
      EnergyMomentShape(RankedMoments(viral, transcript)[j])
      && minLength <= RankedMoments(viral, transcript)[j].duration <= maxLength
    ensures forall i, j :: 0 <= i < j < |viral| ==>
      ScoreKey(RankedMoments(viral, transcript)[i]) >= ScoreKey(RankedMoments(viral, transcript)[j])
    ensures forall i, j ::
      (0 <= i < j < |viral| && ScoreKey(RankedMoments(viral, transcript)[i]) == ScoreKey(RankedMoments(viral, transcript)[j]))
      ==> p[i] < p[j]
  {
    p := RankedPermuted(viral, transcript);
    var r := RankedMoments(viral, transcript);
    forall j | 0 <= j < |viral|
      ensures EnergyMomentShape(r[j]) && minLength <= r[j].duration <= maxLength
    {
      assert viral[p[j]] in viral;
      EnergyMomentSpec(transcript, viral[p[j]]);
    }
  }

  /** The ranking reorders the spikes' moments by the stable descending order of their scores. */
  lemma RankedPermuted(viral: seq<EnergySpike>, transcript: seq<Segment>) returns (p: seq<nat>)
    ensures var r := RankedMoments(viral, transcript);
      |r| == |viral| && IsPermutation(p, |viral|)
      && (forall j :: 0 <= j < |viral| ==> r[j] == EnergyMoment(transcript, viral[p[j]]))
      && (forall i, j :: 0 <= i < j < |viral| ==> ScoreKey(r[i]) >= ScoreKey(r[j]))
      && (forall i, j :: 0 <= i < j < |viral| && ScoreKey(r[i]) == ScoreKey(r[j]) ==> p[i] < p[j])
  {
    var ms := MapAll(viral, EnergyMomentOf(transcript));
    var keys := MapAll(ms, ScoreKey);
    SortDescendingSpec(ms, keys);
    MapAllAt(viral, EnergyMomentOf(transcript));
    MapAllAt(ms, ScoreKey);
    p := StableOrder(keys);
    var r := RankedMoments(viral, transcript);
    assert r == SortDescending(ms, keys);
    forall j | 0 <= j < |viral|
      ensures r[j] == EnergyMoment(transcript, viral[p[j]]) && ScoreKey(r[j]) == keys[p[j]]
    {
      assert r[j] == ms[p[j]];
    }
  }

  /**
   * What the energy path promises about the moments ms built from the
   * selection `viral` of the fused spikes: at most `targetClips` of them when
   * it is not negative, the moment of each selected spike exactly once
   * (spike p[j] at position j), of duration within the limits, scored in
   * [1.4, 7.3], tagged as coming from energy analysis, highest score first
   * and equal scores in selection order.
   */
  predicate RankedShape(ms: seq<Moment>, viral: seq<EnergySpike>, p: seq<nat>, spikes: seq<EnergySpike>,
                        transcript: seq<Segment>, targetClips: int, minLength: real, maxLength: real)
  {
    |ms| == |viral| && IsPermutation(p, |viral|)
    && (targetClips >= 0 ==> |ms| <= targetClips)
    && (forall k :: 0 <= k < |viral| ==> viral[k] in spikes)
    && (forall j :: 0 <= j < |ms| ==>
          ms[j] == EnergyMoment(transcript, viral[p[j]])
          && EnergyMomentShape(ms[j]) && minLength <= ms[j].duration <= maxLength)
    && (forall i, j :: 0 <= i < j < |ms| ==> ScoreKey(ms[i]) >= ScoreKey(ms[j]))
    && (forall i, j :: 0 <= i < j < |ms| && ScoreKey(ms[i]) == ScoreKey(ms[j]) ==> p[i] < p[j])
  }

  /** The selection and ranking of fused spikes whose levels and viral scores are in range. */
  lemma SelectedRanked(spikes: seq<EnergySpike>, transcript: seq<Segment>, targetClips: int, minLength: real, maxLength: real)
    returns (p: seq<nat>)
    requires forall s :: s in spikes ==> 0.0 <= s.energyLevel <= 100.0 && 0.0 <= s.viralScore <= 10.0
    ensures RankedShape(RankedMoments(TopViralMoments(spikes, targetClips, minLength, maxLength), transcript),
                        TopViralMoments(spikes, targetClips, minLength, maxLength), p,
                        spikes, transcript, targetClips, minLength, maxLength)
  {
    var viral := TopViralMoments(spikes, targetClips, minLength, maxLength);
    TopViralMomentsSpec(spikes, targetClips, minLength, maxLength);
    assert forall k :: 0 <= k < |viral| ==> viral[k] in viral;
    p := RankedMomentsSpec(viral, transcript, minLength, maxLength);
  }

  /**
   * What extract_auto_moments returns: the rule-based candidates when no spike
   * is found; otherwise the moments of exactly the spikes get_top_viral_moments
   * selects from the fused spikes, each once, ranked as RankedShape says.
   */
  lemma AutoMomentsSpec(energies: seq<real>, transcript: seq<Segment>, minLength: real, maxLength: real, targetClips: int)
    returns (p: seq<nat>)
    requires NonNegative(energies)
    ensures |EnergySpikes(energies, AutoSegmentSize, AutoThresholdMultiplier, AutoWindowSize)| == 0 ==>
      AutoMoments(energies, transcript, minLength, maxLength, targetClips) == CandidateMoments(transcript, minLength, maxLength)
    ensures |EnergySpikes(energies, AutoSegmentSize, AutoThresholdMultiplier, AutoWindowSize)| > 0 ==>
      var fused := Combined(EnergySpikes(energies, AutoSegmentSize, AutoThresholdMultiplier, AutoWindowSize), transcript);
      RankedShape(AutoMoments(energies, transcript, minLength, maxLength, targetClips),
                  TopViralMoments(fused, targetClips, minLength, maxLength), p,
                  fused, transcript, targetClips, minLength, maxLength)
  {
    var detected := EnergySpikes(energies, AutoSegmentSize, AutoThresholdMultiplier, AutoWindowSize);
    p := [];
    if |detected| > 0 {
      DetectedLevelsWithin(energies);
      CombinedWithin(detected, transcript);
      var fused := Combined(detected, transcript);
      p := SelectedRanked(fused, transcript, targetClips, minLength, maxLength);
      assert AutoMoments(energies, transcript, minLength, maxLength, targetClips)
          == RankedMoments(TopViralMoments(fused, targetClips, minLength, maxLength), transcript);
    }
  }
}
