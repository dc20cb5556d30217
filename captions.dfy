/**
 * Template captions, written without a language model: for every moment a
 * caption (the text cut to 150 characters), a caption file holding the
 * caption and the original text, and a timestamp file with the start, end,
 * duration and score.
 *
 * Each file write is modelled as the path and the text it writes; the list
 * of writes comes back beside the caption records.
 */
module Captions {
  import opened Wrappers
  import opened Strings
  import opened Numbers
  import opened Selection
  import opened Transcript
  import Extractor

  // ---------------------------------------------------------------------------
  // Caption text and MM:SS
  // ---------------------------------------------------------------------------

  const CaptionLimit: nat := 150

  /** text[:150] + ("..." if len(text) > 150 else ""). */
  function CaptionText(text: string): string
  {
    Prefix(text, CaptionLimit) + (if |text| > CaptionLimit then "..." else "")
  }

  /**
   * A text of at most 150 characters is its own caption; a longer one is cut
   * to its first 150 characters followed by "...", so no caption exceeds 153.
   */
  lemma CaptionTextSpec(text: string)
    ensures |CaptionText(text)| <= CaptionLimit + 3
    ensures |text| <= CaptionLimit ==> CaptionText(text) == text
    ensures |text| > CaptionLimit ==>
      |CaptionText(text)| == CaptionLimit + 3
      && CaptionText(text)[..CaptionLimit] == text[..CaptionLimit]
      && CaptionText(text)[CaptionLimit..] == "..."
  {
  }

  /** Captioning a caption changes nothing. */
  lemma CaptionTextIdempotent(text: string)
    ensures CaptionText(CaptionText(text)) == CaptionText(text)
  {
    CaptionTextSpec(text);
    var c := CaptionText(text);
    if |text| > CaptionLimit {
      assert Prefix(c, CaptionLimit) == text[..CaptionLimit];
      assert c == text[..CaptionLimit] + "...";
    }
  }

  /** format_timestamp: the same MM:SS text as the extractor's format_time. */
  function FormatTimestamp(seconds: real): string
  {
    Extractor.FormatTime(seconds)
  }

  /**
   * The timestamp is the zero-padded whole minutes, a colon and the
   * zero-padded whole seconds, the seconds in [0, 60), together the time
   * with its fraction dropped; for a time that is not negative the minutes
   * field reads back as the minutes.
   */
  lemma FormatTimestampSpec(seconds: real) returns (minutes: int, secs: nat)
    ensures FormatTimestamp(seconds) == PadInt(minutes, 2) + ":" + PadInt(secs, 2)
    ensures secs < 60
    ensures (minutes * 60 + secs) as real <= seconds < (minutes * 60 + secs + 1) as real
    ensures seconds >= 0.0 ==> minutes >= 0 && DigitsValue(PadInt(minutes, 2)) == minutes
    ensures DigitsValue(PadInt(secs, 2)) == secs && |PadInt(secs, 2)| == 2
  {
    minutes := (seconds / 60.0).Floor;
    var m := PyMod(seconds, 60.0);
    secs := Trunc(m);
    assert m == seconds - 60.0 * minutes as real;
    if seconds >= 0.0 {
      assert seconds / 60.0 >= 0.0;
      PadIntRoundTrip(minutes, 2);
    }
    PadIntRoundTrip(secs, 2);
    PadTwoDigits(secs);
  }

  // ---------------------------------------------------------------------------
  // Files and records
  // ---------------------------------------------------------------------------

  /** What generate_captions returns for one moment. */
  datatype CaptionRecord = CaptionRecord(clipId: nat, caption: string, captionFile: string, timestampFile: string)

  /** One file written: its path and its whole text. */
  datatype FileWrite = FileWrite(path: string, contents: string)

  /** dir / f"clip_{i:02d}.txt". */
  function ClipFile(dir: string, i: nat): string
  {
    dir + "/clip_" + PadInt(i, 2) + ".txt"
  }

  /** The caption file: the caption, a blank line, then the original text. */
  function CaptionFileText(caption: string, text: string): string
  {
    "=== CAPTION ===\n" + caption + "\n\n" + "=== ORIGINAL ===\n" + text
  }

  /** The four lines of the timestamp file; a moment without a score shows 0. */
  function TimestampLines(m: Moment): seq<string>
  {
    ["Start: " + FormatTimestamp(m.start),
     "End: " + FormatTimestamp(m.end),
     "Duration: " + FormatFixed(m.duration, 1) + "s",
     "Score: " + FormatFixed(m.score.GetOr(0.0), 2) + "/10"]
  }

  /** The timestamp file: each of its lines ended by a newline. */
  function TimestampFileText(m: Moment): string
  {
    Join("\n", TimestampLines(m)) + "\n"
  }

  /** The two files written for one moment: its caption file, then its timestamp file. */
  datatype ClipWrites = ClipWrites(captionFile: FileWrite, timestampFile: FileWrite)

  /** [f(1, xs[0]), f(2, xs[1]), ...]: what `enumerate(xs, 1)` feeds a loop body that appends f(i, x). */
  function Numbered<T, U>(xs: seq<T>, f: (nat, T) -> U): seq<U>
  {
    if |xs| == 0 then [] else Numbered(xs[..|xs| - 1], f) + [f(|xs|, xs[|xs| - 1])]
  }

  lemma NumberedPrefix<T, U>(xs: seq<T>, k: nat, f: (nat, T) -> U)
    requires k < |xs|
    ensures Numbered(xs[..k + 1], f) == Numbered(xs[..k], f) + [f(k + 1, xs[k])]
  {
    assert xs[..k + 1][..k] == xs[..k];
  }

  /** The element at position k is f applied to number k + 1 and xs[k], for every k. */
  lemma {:induction false} NumberedSpec<T, U>(xs: seq<T>, f: (nat, T) -> U)
    ensures |Numbered(xs, f)| == |xs|
    ensures forall k :: 0 <= k < |xs| ==> Numbered(xs, f)[k] == f(k + 1, xs[k])
  {
    if |xs| > 0 {
      var init := xs[..|xs| - 1];
      NumberedSpec(init, f);
      forall k | 0 <= k < |init| ensures Numbered(xs, f)[k] == f(k + 1, xs[k]) {
        assert init[k] == xs[k];
      }
    }
  }

  /** The record of clip i. */
  function RecordOf(i: nat, m: Moment, captionsDir: string, timestampsDir: string): CaptionRecord
  {
    CaptionRecord(i, CaptionText(m.text), ClipFile(captionsDir, i), ClipFile(timestampsDir, i))
  }

  /** The files of clip i: the caption and the original text, then the timestamps, each named after i. */
  function WritesOf(i: nat, m: Moment, captionsDir: string, timestampsDir: string): ClipWrites
  {
    ClipWrites(FileWrite(ClipFile(captionsDir, i), CaptionFileText(CaptionText(m.text), m.text)),
               FileWrite(ClipFile(timestampsDir, i), TimestampFileText(m)))
  }

  function Recorder(captionsDir: string, timestampsDir: string): (nat, Moment) -> CaptionRecord
  {
    (i: nat, m: Moment) => RecordOf(i, m, captionsDir, timestampsDir)
  }

  function Writer(captionsDir: string, timestampsDir: string): (nat, Moment) -> ClipWrites
  {
    (i: nat, m: Moment) => WritesOf(i, m, captionsDir, timestampsDir)
  }

  /** The loop of generate_captions over the moments, numbered from 1. */
  method CaptionLoop(moments: seq<Moment>, captionsDir: string, timestampsDir: string)
    returns (captionData: seq<CaptionRecord>, written: seq<ClipWrites>)
    ensures captionData == Numbered(moments, Recorder(captionsDir, timestampsDir))
    ensures written == Numbered(moments, Writer(captionsDir, timestampsDir))
  {
    var record := Recorder(captionsDir, timestampsDir);
    var writer := Writer(captionsDir, timestampsDir);
    captionData := [];
    written := [];
    for k := 0 to |moments|
      invariant captionData == Numbered(moments[..k], record)
      invariant written == Numbered(moments[..k], writer)
    {
      var i := k + 1;
      var moment := moments[k];
      var text := moment.text;
      var captionText := CaptionText(text);
      var captionPath := ClipFile(captionsDir, i);
      var timestampPath := ClipFile(timestampsDir, i);
      NumberedPrefix(moments, k, record);
      NumberedPrefix(moments, k, writer);
      written := written + [ClipWrites(FileWrite(captionPath, CaptionFileText(captionText, text)),
                                       FileWrite(timestampPath, TimestampFileText(moment)))];
      captionData := captionData + [CaptionRecord(i, captionText, captionPath, timestampPath)];
    }
    assert moments[..|moments|] == moments;
  }

  /**
   * generate_captions: one record per moment, in order, numbered from 1,
   * with the moment's caption and the paths of its two files, and for each
   * moment its caption file and its timestamp file written under that number.
   */
  method GenerateCaptions(moments: seq<Moment>, captionsDir: string, timestampsDir: string)
    returns (captionData: seq<CaptionRecord>, written: seq<ClipWrites>)
    ensures |captionData| == |moments| && |written| == |moments|
    ensures forall k :: 0 <= k < |moments| ==> captionData[k] == RecordOf(k + 1, moments[k], captionsDir, timestampsDir)
    ensures forall k :: 0 <= k < |moments| ==> written[k] == WritesOf(k + 1, moments[k], captionsDir, timestampsDir)
  {
    captionData, written := CaptionLoop(moments, captionsDir, timestampsDir);
    NumberedSpec(moments, Recorder(captionsDir, timestampsDir));
    NumberedSpec(moments, Writer(captionsDir, timestampsDir));
  }

  /** Within one directory, different clip numbers name different files, so no clip overwrites another. */
  lemma ClipFileInjective(dir: string, i: nat, j: nat)
    ensures ClipFile(dir, i) == ClipFile(dir, j) <==> i == j
  {
    if ClipFile(dir, i) == ClipFile(dir, j) {
      var a, b := PadInt(i, 2), PadInt(j, 2);
      var pre := dir + "/clip_";
      assert |a| == |b|;
      assert a == ClipFile(dir, i)[|pre|..|pre| + |a|];
      assert b == ClipFile(dir, j)[|pre|..|pre| + |b|];
      PadIntRoundTrip(i, 2);
      PadIntRoundTrip(j, 2);
    }
  }

  /** A moment without a score is shown with score 0.00. */
  lemma MissingScoreShowsZero(m: Moment)
    requires m.score.None?
    ensures TimestampLines(m)[3] == "Score: 0.00/10"
  {
    assert RoundToInt(0.0) == 0;
    assert FormatFixed(0.0, 2) == FixedText(false, 0, 2);
    assert NatToString(0) == "0";
    assert Zeros(2) == "00";
    assert FixedText(false, 0, 2) == "0.00";
  }

  /** Only digits, minus signs, decimal points and colons appear in the numbers and times written. */
  predicate NumberChars(s: string)
  {
    forall i :: 0 <= i < |s| ==> IsDigit(s[i]) || s[i] == '-' || s[i] == '.' || s[i] == ':'
  }

  lemma TimestampChars(seconds: real)
    ensures NumberChars(FormatTimestamp(seconds))
  {
    var a, b := PadInt((seconds / 60.0).Floor, 2), PadInt(Trunc(PyMod(seconds, 60.0)), 2);
    PadIntChars((seconds / 60.0).Floor, 2);
    PadIntChars(Trunc(PyMod(seconds, 60.0)), 2);
    var t := a + ":" + b;
    assert FormatTimestamp(seconds) == t;
    forall i | 0 <= i < |t| ensures IsDigit(t[i]) || t[i] == '-' || t[i] == '.' || t[i] == ':' {
      if i < |a| {
        assert t[i] == a[i];
      } else if i > |a| {
        assert t[i] == b[i - |a| - 1];
      }
    }
  }

  lemma ZerosDigits(k: nat)
    ensures forall i :: 0 <= i < k ==> IsDigit(Zeros(k)[i])
  {
    ZerosAllZero(k);
  }

  lemma PadIntChars(n: int, width: nat)
    ensures NumberChars(PadInt(n, width))
  {
    var digits := NatToString(if n < 0 then -n else n);
    var fill := if (if n < 0 then 1 else 0) + |digits| < width then width - (if n < 0 then 1 else 0) - |digits| else 0;
    ZerosDigits(fill);
  }

  lemma FixedChars(x: real, places: nat)
    ensures NumberChars(FormatFixed(x, places))
  {
    var m := RoundToInt((if x < 0.0 then -x else x) * Pow10(places) as real);
    FixedTextChars(x < 0.0, if m < 0 then 0 else m, places);
  }

  lemma FixedTextChars(negative: bool, m: nat, places: nat)
    ensures NumberChars(FixedText(negative, m, places))
  {
    var digits := NatToString(m);
    var padded := if |digits| <= places then Zeros(places + 1 - |digits|) + digits else digits;
    if |digits| <= places {
      ZerosDigits(places + 1 - |digits|);
    }
    assert forall i :: 0 <= i < |padded| ==> IsDigit(padded[i]);
    FixedPieces(if negative then "-" else "", padded, places);
  }

  lemma FixedPieces(sign: string, padded: string, places: nat)
    requires sign == "" || sign == "-"
    requires |padded| > places && forall i :: 0 <= i < |padded| ==> IsDigit(padded[i])
    ensures NumberChars(if places == 0 then sign + padded
                        else sign + padded[..|padded| - places] + "." + padded[|padded| - places..])
  {
    var t := if places == 0 then sign + padded
             else sign + padded[..|padded| - places] + "." + padded[|padded| - places..];
    forall i | 0 <= i < |t| ensures IsDigit(t[i]) || t[i] == '-' || t[i] == '.' || t[i] == ':' {
      var cut := |padded| - places;
      if i < |sign| {
        assert t[i] == '-';
      } else if places == 0 || i < |sign| + cut {
        assert t[i] == padded[i - |sign|];
      } else if i > |sign| + cut {
        assert t[i] == padded[i - |sign| - 1];
      }
    }
  }

  lemma NoNewline(tag: string, s: string, tail: string)
    requires '\n' !in tag && '\n' !in tail && NumberChars(s)
    ensures '\n' !in tag + s + tail
  {
    var t := tag + s + tail;
    forall i | 0 <= i < |t| ensures t[i] != '\n' {
      if i < |tag| {
        assert t[i] == tag[i];
      } else if i < |tag| + |s| {
        assert t[i] == s[i - |tag|];
      } else {
        assert t[i] == tail[i - |tag| - |s|];
      }
    }
  }

  /** Lines without a newline, each ended by one, split back into the lines and an empty remainder. */
  lemma LinesSplit(lines: seq<string>)
    requires |lines| > 0 && forall i :: 0 <= i < |lines| ==> '\n' !in lines[i]
    ensures SplitOn(Join("\n", lines) + "\n", "\n") == lines + [""]
  {
    JoinSnoc("\n", lines, "");
    var all := lines + [""];
    assert forall i :: 0 <= i < |all| ==> '\n' !in all[i];
    SplitJoinChar(all, '\n');
    assert Join("\n", lines) + "\n" == Join("\n", all);
  }

  /** The timestamp file splits on newlines into exactly its four lines and an empty remainder. */
  lemma TimestampFileLines(m: Moment)
    ensures SplitOn(TimestampFileText(m), "\n") == TimestampLines(m) + [""]
  {
    TimestampChars(m.start);
    TimestampChars(m.end);
    FixedChars(m.duration, 1);
    FixedChars(m.score.GetOr(0.0), 2);
    NoNewline("Start: ", FormatTimestamp(m.start), "");
    NoNewline("End: ", FormatTimestamp(m.end), "");
    NoNewline("Duration: ", FormatFixed(m.duration, 1), "s");
    NoNewline("Score: ", FormatFixed(m.score.GetOr(0.0), 2), "/10");
    LinesSplit(TimestampLines(m));
  }
}
