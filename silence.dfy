/**
 * Silence regions of a clip's audio: the region record, the reader of the
 * detector's text report, merging of overlapping regions, the speech
 * regions between silences, threshold recommendation and search, and the
 * trimming of long silences at clip boundaries.
 */
module SilenceDetector {
  import opened Wrappers
  import opened Strings
  import opened Numbers
  import opened Selection
  import opened Sorting

  /** A silent stretch of audio, in seconds, with a detection confidence. */
  datatype SilenceRegion = SilenceRegion(start: real, end: real, duration: real, confidence: real)
  {
    /** Strict overlap: regions that only touch do not overlap. */
    predicate Overlaps(other: SilenceRegion)
    {
      !(end <= other.start || start >= other.end)
    }

    /** The hull of two regions, keeping the lower confidence. */
    function Merge(other: SilenceRegion): SilenceRegion
    {
      SilenceRegion(Min(start, other.start), Max(end, other.end),
                    Max(end, other.end) - Min(start, other.start), Min(confidence, other.confidence))
    }

    /** Containment of a timestamp, inclusive at both ends. */
    predicate Contains(t: real)
    {
      start <= t <= end
    }
  }

  /** Overlap is strict, symmetric, and never holds for regions that only touch. */
  lemma OverlapsSpec(a: SilenceRegion, b: SilenceRegion)
    ensures a.Overlaps(b) <==> a.start < b.end && b.start < a.end
    ensures a.Overlaps(b) <==> b.Overlaps(a)
    ensures a.end == b.start ==> !a.Overlaps(b)
  {
  }

  /**
   * Merging is commutative, its duration is its length, its confidence is
   * the lower one, and for overlapping regions it covers exactly the
   * timestamps the two regions cover.
   */
  lemma MergeSpec(a: SilenceRegion, b: SilenceRegion)
    ensures a.Merge(b) == b.Merge(a)
    ensures a.Merge(b).duration == a.Merge(b).end - a.Merge(b).start
    ensures a.Merge(b).confidence <= a.confidence && a.Merge(b).confidence <= b.confidence
    ensures a.Merge(b).confidence == a.confidence || a.Merge(b).confidence == b.confidence
    ensures forall t :: a.Contains(t) || b.Contains(t) ==> a.Merge(b).Contains(t)
    ensures a.Overlaps(b) ==> forall t :: a.Merge(b).Contains(t) ==> a.Contains(t) || b.Contains(t)
  {
  }

  /*
   * Reading the detector's report: lines holding the start marker set the
   * pending start, and a line holding the end marker closes the pending
   * start into a region. The reading is stated for any pair of markers and
   * any number reader; the detector's own format is SilenceReport.
   */

  /** The markers of a report and the reader of the numbers after them. */
  datatype ReportFormat = ReportFormat(startMarker: string, endMarker: string, number: string -> Option<real>)
  {
    predicate Valid() { |startMarker| > 0 && |endMarker| > 0 }
  }

  /** The audio detector's report format. */
  const SilenceReport: ReportFormat := ReportFormat("silence_start:", "silence_end:", FiniteValue)

  /** The number after the start marker. */
  function StartReading(fmt: ReportFormat, line: string): Option<real>
    requires fmt.Valid() && Contains(line, fmt.startMarker)
  {
    SplitOnFound(line, fmt.startMarker);
    fmt.number(Strip(SplitOn(line, fmt.startMarker)[1]))
  }

  /** The number after the end marker and before the next '|'. */
  function EndReading(fmt: ReportFormat, line: string): Option<real>
    requires fmt.Valid() && Contains(line, fmt.endMarker)
  {
    SplitOnFound(line, fmt.endMarker);
    fmt.number(Strip(SplitOn(SplitOn(line, fmt.endMarker)[1], "|")[0]))
  }

  /** A line that sets the pending start. */
  predicate StartLine(fmt: ReportFormat, line: string)
    requires fmt.Valid()
  {
    Contains(line, fmt.startMarker) && StartReading(fmt, line).Some?
  }

  /** A line that closes a pending start (the start marker takes precedence). */
  predicate EndLine(fmt: ReportFormat, line: string)
    requires fmt.Valid()
  {
    !Contains(line, fmt.startMarker) && Contains(line, fmt.endMarker) && EndReading(fmt, line).Some?
  }

  /** The regions read so far and the start still waiting for its end. */
  datatype ParseState = ParseState(regions: seq<SilenceRegion>, pending: Option<real>)

  /** The effect of one line of the report. */
  function ParseLine(fmt: ReportFormat, st: ParseState, line: string): ParseState
    requires fmt.Valid()
  {
    if Contains(line, fmt.startMarker) then
      match StartReading(fmt, line)
      case Some(v) => st.(pending := Some(v))
      case None => st
    else if Contains(line, fmt.endMarker) && st.pending.Some? then
      match EndReading(fmt, line)
      case Some(e) => ParseState(st.regions + [SilenceRegion(st.pending.value, e, e - st.pending.value, 1.0)], None)
      case None => st
    else
      st
  }

  /** The state after reading all lines in order. */
  function ParseLines(fmt: ReportFormat, lines: seq<string>): ParseState
    requires fmt.Valid()
  {
    if |lines| == 0 then ParseState([], None)
    else ParseLine(fmt, ParseLines(fmt, lines[..|lines| - 1]), lines[|lines| - 1])
  }

  /** The regions of a report; a start still pending at the end is dropped. */
  function ParseSilenceOutput(report: string): seq<SilenceRegion>
  {
    ParseLines(SilenceReport, SplitOn(report, "\n")).regions
  }

  lemma ParseLinesPrefix(fmt: ReportFormat, lines: seq<string>, i: nat)
    requires fmt.Valid() && i < |lines|
    ensures ParseLines(fmt, lines[..i + 1]) == ParseLine(fmt, ParseLines(fmt, lines[..i]), lines[i])
  {
    assert lines[..i + 1][..i] == lines[..i];
  }

  /** One line of the report, as the reading loop handles it. */
  method ReadReportLine(fmt: ReportFormat, regions: seq<SilenceRegion>, silenceStart: Option<real>, line: string)
    returns (regions': seq<SilenceRegion>, silenceStart': Option<real>)
    requires fmt.Valid()
    ensures ParseState(regions', silenceStart') == ParseLine(fmt, ParseState(regions, silenceStart), line)
  {
    ParseLineCases(fmt, ParseState(regions, silenceStart), line);
    regions', silenceStart' := regions, silenceStart;
    if Contains(line, fmt.startMarker) {
      var value := StartReading(fmt, line);
      if value.Some? {
        silenceStart' := value;
      }
    } else if Contains(line, fmt.endMarker) && silenceStart.Some? {
      var value := EndReading(fmt, line);
      if value.Some? {
        var silenceEnd := value.value;
        regions' := regions + [SilenceRegion(silenceStart.value, silenceEnd, silenceEnd - silenceStart.value, 1.0)];
        silenceStart' := None;
      }
    }
  }

  /** The reading loop over the lines of a report. */
  method ParseReportLines(fmt: ReportFormat, lines: seq<string>) returns (regions: seq<SilenceRegion>)
    requires fmt.Valid()
    ensures regions == ParseLines(fmt, lines).regions
  {
    regions := [];
    var silenceStart: Option<real> := None;
    for i := 0 to |lines|
      invariant ParseState(regions, silenceStart) == ParseLines(fmt, lines[..i])
    {
      ParseLinesPrefix(fmt, lines, i);
      regions, silenceStart := ReadReportLine(fmt, regions, silenceStart, lines[i]);
    }
    assert lines[..|lines|] == lines;
  }

  /** The regions of the detector's report, read line by line. */
  method ParseReport(report: string) returns (regions: seq<SilenceRegion>)
    ensures regions == ParseSilenceOutput(report)
  {
    regions := ParseReportLines(SilenceReport, SplitOn(report, "\n"));
  }

  /** Every region read has its length as duration and full confidence. */
  lemma {:induction false} ParsedRegionsExact(fmt: ReportFormat, lines: seq<string>)
    requires fmt.Valid()
    ensures forall k :: 0 <= k < |ParseLines(fmt, lines).regions| ==>
      ParseLines(fmt, lines).regions[k].duration == ParseLines(fmt, lines).regions[k].end - ParseLines(fmt, lines).regions[k].start
      && ParseLines(fmt, lines).regions[k].confidence == 1.0
  {
    if |lines| > 0 {
      ParsedRegionsExact(fmt, lines[..|lines| - 1]);
    }
  }

  /** Lines that set a pending start. */
  function StartLines(fmt: ReportFormat, lines: seq<string>): nat
    requires fmt.Valid()
  {
    if |lines| == 0 then 0
    else StartLines(fmt, lines[..|lines| - 1]) + (if StartLine(fmt, lines[|lines| - 1]) then 1 else 0)
  }

  /** Lines that can close a pending start. */
  function EndLines(fmt: ReportFormat, lines: seq<string>): nat
    requires fmt.Valid()
  {
    if |lines| == 0 then 0
    else EndLines(fmt, lines[..|lines| - 1]) + (if EndLine(fmt, lines[|lines| - 1]) then 1 else 0)
  }

  /**
   * Each region uses up one start line and one end line, and a pending
   * start holds one more start line; so a report without start lines gives
   * no regions.
   */
  lemma {:induction false} ParseCounts(fmt: ReportFormat, lines: seq<string>)
    requires fmt.Valid()
    ensures |ParseLines(fmt, lines).regions| + (if ParseLines(fmt, lines).pending.Some? then 1 else 0) <= StartLines(fmt, lines)
    ensures |ParseLines(fmt, lines).regions| <= EndLines(fmt, lines)
  {
    if |lines| > 0 {
      ParseCounts(fmt, lines[..|lines| - 1]);
      ParseLineCases(fmt, ParseLines(fmt, lines[..|lines| - 1]), lines[|lines| - 1]);
    }
  }

  /**
   * How one line acts: a start line sets the pending start, an end line
   * closes a pending start into a region, and every other line (an
   * unreadable one, or an end with nothing pending) changes nothing.
   */
  lemma ParseLineCases(fmt: ReportFormat, st: ParseState, line: string)
    requires fmt.Valid()
    ensures StartLine(fmt, line) ==> ParseLine(fmt, st, line) == st.(pending := StartReading(fmt, line))
    ensures EndLine(fmt, line) && st.pending.Some? ==> ParseLine(fmt, st, line) == ParseState(
      st.regions + [SilenceRegion(st.pending.value, EndReading(fmt, line).value, EndReading(fmt, line).value - st.pending.value, 1.0)], None)
    ensures !StartLine(fmt, line) && !(EndLine(fmt, line) && st.pending.Some?) ==> ParseLine(fmt, st, line) == st
  {
  }

  /**
   * Region r was opened by the start line j1 and closed by the end line j2,
   * with no other start line between them: the end is paired with the
   * latest pending start.
   */
  predicate PairedAt(fmt: ReportFormat, lines: seq<string>, r: SilenceRegion, j1: nat, j2: nat)
    requires fmt.Valid()
  {
    j1 < j2 < |lines|
    && StartLine(fmt, lines[j1]) && StartReading(fmt, lines[j1]) == Some(r.start)
    && EndLine(fmt, lines[j2]) && EndReading(fmt, lines[j2]) == Some(r.end)
    && (forall j :: j1 < j < j2 ==> !StartLine(fmt, lines[j]))
  }

  /** The latest start line is j, and it set value v. */
  predicate PendingFrom(fmt: ReportFormat, lines: seq<string>, v: real, j: nat)
    requires fmt.Valid()
  {
    j < |lines| && StartLine(fmt, lines[j]) && StartReading(fmt, lines[j]) == Some(v)
    && (forall i :: j < i < |lines| ==> !StartLine(fmt, lines[i]))
  }

  /** Every region rs[k] was opened and closed by the lines w[k]. */
  predicate AllPaired(fmt: ReportFormat, lines: seq<string>, rs: seq<SilenceRegion>, w: seq<(nat, nat)>)
    requires fmt.Valid()
  {
    |w| == |rs| && forall k :: 0 <= k < |w| ==> PairedAt(fmt, lines, rs[k], w[k].0, w[k].1)
  }

  lemma PairedAtExtends(fmt: ReportFormat, lines: seq<string>, line: string, r: SilenceRegion, j1: nat, j2: nat)
    requires fmt.Valid() && PairedAt(fmt, lines, r, j1, j2)
    ensures PairedAt(fmt, lines + [line], r, j1, j2)
  {
    var ext := lines + [line];
    forall j | j1 < j < j2 ensures !StartLine(fmt, ext[j]) {
      assert ext[j] == lines[j];
    }
  }

  lemma AllPairedExtends(fmt: ReportFormat, lines: seq<string>, line: string, rs: seq<SilenceRegion>, w: seq<(nat, nat)>)
    requires fmt.Valid() && AllPaired(fmt, lines, rs, w)
    ensures AllPaired(fmt, lines + [line], rs, w)
  {
    forall k | 0 <= k < |w| ensures PairedAt(fmt, lines + [line], rs[k], w[k].0, w[k].1) {
      PairedAtExtends(fmt, lines, line, rs[k], w[k].0, w[k].1);
    }
  }

  lemma AllPairedSnoc(fmt: ReportFormat, lines: seq<string>, rs: seq<SilenceRegion>, w: seq<(nat, nat)>,
                      r: SilenceRegion, j1: nat, j2: nat)
    requires fmt.Valid() && AllPaired(fmt, lines, rs, w) && PairedAt(fmt, lines, r, j1, j2)
    ensures AllPaired(fmt, lines, rs + [r], w + [(j1, j2)])
  {
  }

  lemma PendingClosed(fmt: ReportFormat, init: seq<string>, line: string, v: real, j: nat)
    requires fmt.Valid() && PendingFrom(fmt, init, v, j) && EndLine(fmt, line)
    ensures PairedAt(fmt, init + [line], SilenceRegion(v, EndReading(fmt, line).value, EndReading(fmt, line).value - v, 1.0), j, |init|)
  {
    var ext := init + [line];
    forall i | j < i < |init| ensures !StartLine(fmt, ext[i]) {
      assert ext[i] == init[i];
    }
  }

  lemma PendingKept(fmt: ReportFormat, init: seq<string>, line: string, v: real, j: nat)
    requires fmt.Valid() && PendingFrom(fmt, init, v, j) && !StartLine(fmt, line)
    ensures PendingFrom(fmt, init + [line], v, j)
  {
    var ext := init + [line];
    forall i | j < i < |ext| ensures !StartLine(fmt, ext[i]) {
      if i < |init| {
        assert ext[i] == init[i];
      }
    }
  }

  /**
   * Every region read is paired: its start comes from a start line and its
   * end from a later end line, with no start line between them. A pending
   * start comes from the latest start line.
   */
  lemma {:induction false} ParsePairs(fmt: ReportFormat, lines: seq<string>) returns (w: seq<(nat, nat)>, from: nat)
    requires fmt.Valid()
    ensures AllPaired(fmt, lines, ParseLines(fmt, lines).regions, w)
    ensures ParseLines(fmt, lines).pending.Some? ==> PendingFrom(fmt, lines, ParseLines(fmt, lines).pending.value, from)
  {
    if |lines| == 0 {
      w, from := [], 0;
    } else {
      var init := lines[..|lines| - 1];
      var line := lines[|lines| - 1];
      assert lines == init + [line];
      var w0, from0 := ParsePairs(fmt, init);
      var st := ParseLines(fmt, init);
      assert ParseLines(fmt, lines) == ParseLine(fmt, st, line);
      ParseLineCases(fmt, st, line);
      AllPairedExtends(fmt, init, line, st.regions, w0);
      var n: nat := |init|;
      if StartLine(fmt, line) {
        w, from := w0, n;
      } else if EndLine(fmt, line) && st.pending.Some? {
        PendingClosed(fmt, init, line, st.pending.value, from0);
        var r := SilenceRegion(st.pending.value, EndReading(fmt, line).value, EndReading(fmt, line).value - st.pending.value, 1.0);
        AllPairedSnoc(fmt, lines, st.regions, w0, r, from0, n);
        w, from := w0 + [(from0, n)], 0;
      } else {
        if st.pending.Some? {
          PendingKept(fmt, init, line, st.pending.value, from0);
        }
        w, from := w0, from0;
      }
    }
  }

  /*
   * Merging start-sorted regions.
   */

  /** Add one region to the merged list: fold it into the last one when they overlap. */
  function MergeInto(merged: seq<SilenceRegion>, current: SilenceRegion): (r: seq<SilenceRegion>)
    ensures 0 < |r| <= |merged| + 1
  {
    if |merged| > 0 && merged[|merged| - 1].Overlaps(current)
    then merged[..|merged| - 1] + [merged[|merged| - 1].Merge(current)]
    else merged + [current]
  }

  /** The regions merged left to right. */
  function MergeOverlapping(regions: seq<SilenceRegion>): (r: seq<SilenceRegion>)
    ensures |r| <= |regions|
    ensures |regions| > 0 <==> |r| > 0
  {
    if |regions| == 0 then []
    else MergeInto(MergeOverlapping(regions[..|regions| - 1]), regions[|regions| - 1])
  }

  lemma MergePrefix(regions: seq<SilenceRegion>, i: nat)
    requires i < |regions|
    ensures MergeOverlapping(regions[..i + 1]) == MergeInto(MergeOverlapping(regions[..i]), regions[i])
  {
    assert regions[..i + 1][..i] == regions[..i];
  }

  /** The merging loop, which overwrites the last merged region in place. */
  method MergeOverlappingRegions(regions: seq<SilenceRegion>) returns (merged: seq<SilenceRegion>)
    ensures merged == MergeOverlapping(regions)
  {
    if |regions| == 0 {
      return [];
    }
    merged := [regions[0]];
    MergePrefix(regions, 0);
    for i := 1 to |regions|
      invariant merged == MergeOverlapping(regions[..i])
    {
      MergePrefix(regions, i);
      var current := regions[i];
      var last := merged[|merged| - 1];
      if last.Overlaps(current) {
        merged := merged[|merged| - 1 := last.Merge(current)];
        assert merged == MergeInto(MergeOverlapping(regions[..i]), current);
      } else {
        merged := merged + [current];
      }
    }
    assert regions[..|regions|] == regions;
  }

  predicate StartSorted(rs: seq<SilenceRegion>)
  {
    forall i, j :: 0 <= i < j < |rs| ==> rs[i].start <= rs[j].start
  }

  /** Every region has positive length. */
  predicate Proper(rs: seq<SilenceRegion>)
  {
    forall i :: 0 <= i < |rs| ==> rs[i].start < rs[i].end
  }

  /** Every region ends no later than any later region starts. */
  predicate Apart(rs: seq<SilenceRegion>)
  {
    forall i, j :: 0 <= i < j < |rs| ==> rs[i].end <= rs[j].start
  }

  /** Every region's duration is its length. */
  predicate Exact(rs: seq<SilenceRegion>)
  {
    forall i :: 0 <= i < |rs| ==> rs[i].duration == rs[i].end - rs[i].start
  }

  /** Some region contains t. */
  predicate Covered(rs: seq<SilenceRegion>, t: real)
  {
    exists i :: 0 <= i < |rs| && rs[i].Contains(t)
  }

  /**
   * Merging start-sorted regions of positive length gives regions of
   * positive length that lie apart, in start order, none starting after the
   * last input region.
   */
  lemma {:induction false} MergeSorted(regions: seq<SilenceRegion>)
    requires StartSorted(regions) && Proper(regions)
    ensures Proper(MergeOverlapping(regions)) && Apart(MergeOverlapping(regions))
    ensures |regions| > 0 ==> forall k :: 0 <= k < |MergeOverlapping(regions)| ==>
      MergeOverlapping(regions)[k].start <= regions[|regions| - 1].start
  {
    if |regions| > 1 {
      var init := regions[..|regions| - 1];
      var c := regions[|regions| - 1];
      assert StartSorted(init) && Proper(init);
      MergeSorted(init);
      var m := MergeOverlapping(init);
      assert init[|init| - 1].start <= c.start;
      MergeIntoApart(m, c);
    }
  }

  lemma MergeIntoApart(m: seq<SilenceRegion>, c: SilenceRegion)
    requires Proper(m) && Apart(m) && |m| > 0 && c.start < c.end
    requires forall k :: 0 <= k < |m| ==> m[k].start <= c.start
    ensures Proper(MergeInto(m, c)) && Apart(MergeInto(m, c))
    ensures forall k :: 0 <= k < |MergeInto(m, c)| ==> MergeInto(m, c)[k].start <= c.start
  {
    var last := m[|m| - 1];
    if last.Overlaps(c) {
      var r := MergeInto(m, c);
      assert r[..|m| - 1] == m[..|m| - 1];
      assert r[|m| - 1].start == last.start;
      forall i, j | 0 <= i < j < |r| ensures r[i].end <= r[j].start {
        assert m[i].end <= m[j].start;
      }
    } else {
      assert last.end <= c.start;
      var r := MergeInto(m, c);
      forall i, j | 0 <= i < j < |r| ensures r[i].end <= r[j].start {
        if j < |m| {
          assert m[i].end <= m[j].start;
        } else if i < |m| - 1 {
          assert m[i].end <= last.start;
        }
      }
    }
  }

  /** Regions that lie apart and have positive length pairwise do not overlap, and their starts increase. */
  lemma ApartDisjoint(rs: seq<SilenceRegion>)
    requires Proper(rs) && Apart(rs)
    ensures forall i, j :: 0 <= i < |rs| && 0 <= j < |rs| && i != j ==> !rs[i].Overlaps(rs[j])
    ensures forall i, j :: 0 <= i < j < |rs| ==> rs[i].start < rs[j].start
  {
    forall i, j | 0 <= i < |rs| && 0 <= j < |rs| && i != j ensures !rs[i].Overlaps(rs[j]) {
      if i < j {
        assert rs[i].end <= rs[j].start;
      } else {
        assert rs[j].end <= rs[i].start;
      }
    }
  }

  /** Merging keeps durations equal to lengths. */
  lemma {:induction false} MergeExact(regions: seq<SilenceRegion>)
    requires Exact(regions)
    ensures Exact(MergeOverlapping(regions))
  {
    if |regions| > 0 {
      var init := regions[..|regions| - 1];
      assert Exact(init);
      MergeExact(init);
      var m := MergeOverlapping(init);
      var r := MergeOverlapping(regions);
      if |m| > 0 && m[|m| - 1].Overlaps(regions[|regions| - 1]) {
        assert r[..|m| - 1] == m[..|m| - 1];
      }
    }
  }

  /** Merging loses and adds no covered timestamp. */
  lemma {:induction false} MergeCovers(regions: seq<SilenceRegion>, t: real)
    ensures Covered(MergeOverlapping(regions), t) <==> Covered(regions, t)
  {
    if |regions| > 0 {
      var init := regions[..|regions| - 1];
      var c := regions[|regions| - 1];
      MergeCovers(init, t);
      var m := MergeOverlapping(init);
      var r := MergeInto(m, c);
      assert Covered(regions, t) <==> Covered(init, t) || c.Contains(t) by {
        if Covered(regions, t) {
          var i :| 0 <= i < |regions| && regions[i].Contains(t);
          if i < |init| {
            assert init[i] == regions[i];
          }
        }
        if Covered(init, t) {
          var i :| 0 <= i < |init| && init[i].Contains(t);
          assert regions[i] == init[i];
        }
        if c.Contains(t) {
          assert regions[|regions| - 1] == c;
        }
      }
      MergeIntoCovers(m, c, t);
    }
  }

  lemma MergeIntoCovers(m: seq<SilenceRegion>, c: SilenceRegion, t: real)
    ensures Covered(MergeInto(m, c), t) <==> Covered(m, t) || c.Contains(t)
  {
    var r := MergeInto(m, c);
    if |m| > 0 && m[|m| - 1].Overlaps(c) {
      var last := m[|m| - 1];
      MergeSpec(last, c);
      if Covered(r, t) {
        var i :| 0 <= i < |r| && r[i].Contains(t);
        if i < |m| - 1 {
          assert m[i] == r[i];
        }
      }
      if Covered(m, t) {
        var i :| 0 <= i < |m| && m[i].Contains(t);
        if i < |m| - 1 {
          assert r[i] == m[i];
        } else {
          assert r[|m| - 1].Contains(t);
        }
      }
      if c.Contains(t) {
        assert r[|m| - 1].Contains(t);
      }
    } else {
      if Covered(r, t) {
        var i :| 0 <= i < |r| && r[i].Contains(t);
        if i < |m| {
          assert m[i] == r[i];
        }
      }
      if Covered(m, t) {
        var i :| 0 <= i < |m| && m[i].Contains(t);
        assert r[i] == m[i];
      }
      if c.Contains(t) {
        assert r[|m|] == c;
      }
    }
  }

  /**
   * Without positive lengths the merged regions need not be disjoint: a
   * point region after a long one is not folded into it, and the region
   * after the point then overlaps the long one.
   */
  lemma PointRegionKeepsOverlap()
    ensures var a := SilenceRegion(0.0, 10.0, 10.0, 1.0);
      var point := SilenceRegion(0.0, 0.0, 0.0, 1.0);
      var d := SilenceRegion(5.0, 6.0, 1.0, 1.0);
      StartSorted([a, point, d]) && MergeOverlapping([a, point, d]) == [a, point, d] && a.Overlaps(d)
  {
    var a := SilenceRegion(0.0, 10.0, 10.0, 1.0);
    var point := SilenceRegion(0.0, 0.0, 0.0, 1.0);
    var d := SilenceRegion(5.0, 6.0, 1.0, 1.0);
    assert [a][..0] == [];
    assert MergeOverlapping([a]) == [a];
    assert [a, point][..1] == [a];
    assert MergeOverlapping([a, point]) == [a, point];
    assert [a, point, d][..2] == [a, point];
  }

  /*
   * Detection: parameter checks, then reading, sorting by start and merging.
   */

  /** The parameter checks, in the order they are made. */
  function CheckSilenceParameters(silenceThreshold: real, minSilenceDuration: real): (e: Option<string>)
    ensures e.None? <==> minSilenceDuration >= 0.1 && silenceThreshold <= -10.0
    ensures minSilenceDuration < 0.1 ==> e == Some("min_silence_duration must be >= 0.1 seconds")
  {
    if minSilenceDuration < 0.1 then Some("min_silence_duration must be >= 0.1 seconds")
    else if silenceThreshold > -10.0 then Some("silence_threshold must be <= -10 dB")
    else None
  }

  function NegatedStart(r: SilenceRegion): real { -r.start }

  /** The stable ascending sort by start, as a descending sort on negated starts. */
  function SortByStart(regions: seq<SilenceRegion>): seq<SilenceRegion>
  {
    SortDescending(regions, MapAll(regions, NegatedStart))
  }

  /** Sorting by start permutes the regions into start order, equal starts keeping their input order. */
  lemma SortByStartSpec(regions: seq<SilenceRegion>) returns (p: seq<nat>)
    ensures IsPermutation(p, |regions|) && |SortByStart(regions)| == |regions|
    ensures forall i :: 0 <= i < |regions| ==> SortByStart(regions)[i] == regions[p[i]]
    ensures StartSorted(SortByStart(regions))
    ensures forall i, j :: 0 <= i < j < |regions| && regions[p[i]].start == regions[p[j]].start ==> p[i] < p[j]
  {
    var keys := MapAll(regions, NegatedStart);
    MapAllAt(regions, NegatedStart);
    SortDescendingSpec(regions, keys);
    p := StableOrder(keys);
    var s := SortByStart(regions);
    forall i, j | 0 <= i < j < |s| ensures s[i].start <= s[j].start {
      assert keys[p[i]] >= keys[p[j]];
    }
  }

  /** The regions detected in a report, or the error for bad parameters. */
  function DetectSilence(report: string, silenceThreshold: real, minSilenceDuration: real): Result<seq<SilenceRegion>>
  {
    match CheckSilenceParameters(silenceThreshold, minSilenceDuration)
    case Some(e) => Failure(e)
    case None => Success(MergeOverlapping(SortByStart(ParseSilenceOutput(report))))
  }

  /** The detection steps that follow the audio analysis run. */
  method DetectSilenceRegions(report: string, silenceThreshold: real, minSilenceDuration: real)
    returns (outcome: Result<seq<SilenceRegion>>)
    ensures outcome == DetectSilence(report, silenceThreshold, minSilenceDuration)
  {
    var problem := CheckSilenceParameters(silenceThreshold, minSilenceDuration);
    if problem.Some? {
      return Failure(problem.value);
    }
    var regions := ParseReport(report);
    var merged := MergeOverlappingRegions(SortByStart(regions));
    outcome := Success(merged);
  }

  /**
   * Detection fails exactly on bad parameters; otherwise its regions are no
   * more than those read, cover the same timestamps, have durations equal
   * to their lengths, and, when every region read has positive length, lie
   * apart in start order.
   */
  lemma DetectSilenceSpec(report: string, silenceThreshold: real, minSilenceDuration: real)
    ensures DetectSilence(report, silenceThreshold, minSilenceDuration).Success?
      <==> minSilenceDuration >= 0.1 && silenceThreshold <= -10.0
    ensures DetectSilence(report, silenceThreshold, minSilenceDuration).Success? ==>
      var found := DetectSilence(report, silenceThreshold, minSilenceDuration).value;
      |found| <= |ParseSilenceOutput(report)|
      && Exact(found)
      && (forall t :: Covered(found, t) <==> Covered(ParseSilenceOutput(report), t))
      && (Proper(ParseSilenceOutput(report)) ==> Apart(found) && Proper(found))
  {
    var parsed := ParseSilenceOutput(report);
    var sorted := SortByStart(parsed);
    var p := SortByStartSpec(parsed);
    ParsedRegionsExact(SilenceReport, SplitOn(report, "\n"));
    assert Exact(sorted);
    MergeExact(sorted);
    forall t ensures Covered(MergeOverlapping(sorted), t) <==> Covered(parsed, t) {
      MergeCovers(sorted, t);
      PermutedCovers(parsed, sorted, p, t);
    }
    if Proper(parsed) {
      assert Proper(sorted);
      MergeSorted(sorted);
    }
  }

  lemma PermutedCovers(xs: seq<SilenceRegion>, ys: seq<SilenceRegion>, p: seq<nat>, t: real)
    requires IsPermutation(p, |xs|) && |ys| == |xs|
    requires forall i :: 0 <= i < |xs| ==> ys[i] == xs[p[i]]
    ensures Covered(ys, t) <==> Covered(xs, t)
  {
    if Covered(xs, t) {
      var i :| 0 <= i < |xs| && xs[i].Contains(t);
      assert i in p;
      var j :| 0 <= j < |p| && p[j] == i;
      assert ys[j] == xs[i];
    }
  }

  /*
   * Speech regions: the gaps between silences.
   */

  type Span = (real, real)

  /** The gap before silence k: from the end of the previous one (or 0) to its start. */
  function GapBefore(silences: seq<SilenceRegion>, k: nat): Span
    requires k < |silences|
  {
    (if k == 0 then 0.0 else silences[k - 1].end, silences[k].start)
  }

  /** The gaps before each silence, in order. */
  function InnerGaps(silences: seq<SilenceRegion>): (g: seq<Span>)
    ensures |g| == |silences|
  {
    seq(|silences|, k requires 0 <= k < |silences| => GapBefore(silences, k))
  }

  /** The gap after the last silence, up to the end of the video. */
  function FinalGap(silences: seq<SilenceRegion>, videoDuration: real): Span
    requires |silences| > 0
  {
    (silences[|silences| - 1].end, videoDuration)
  }

  /** A gap worth keeping as speech: non-empty and at least the minimum length. */
  predicate LongEnough(gap: Span, minSpeechDuration: real)
  {
    gap.0 < gap.1 && gap.1 - gap.0 >= minSpeechDuration
  }

  function KeepGap(minSpeechDuration: real): Span -> bool
  {
    (gap: Span) => LongEnough(gap, minSpeechDuration)
  }

  /** The speech loop's state after the given silences: the regions so far and the current position. */
  function SpeechScan(silences: seq<SilenceRegion>, minSpeechDuration: real): (seq<Span>, real)
  {
    if |silences| == 0 then ([], 0.0)
    else SpeechStep(SpeechScan(silences[..|silences| - 1], minSpeechDuration), silences[|silences| - 1], minSpeechDuration)
  }

  /** One silence: keep the gap up to it when long enough, then move past it. */
  function SpeechStep(prior: (seq<Span>, real), silence: SilenceRegion, minSpeechDuration: real): (seq<Span>, real)
  {
    var kept := silence.start > prior.1 && silence.start - prior.1 >= minSpeechDuration;
    (if kept then prior.0 + [(prior.1, silence.start)] else prior.0, silence.end)
  }

  /** The speech regions for the silences of a video: all of it when there are none. */
  function SpeechRegions(silences: seq<SilenceRegion>, videoDuration: real, minSpeechDuration: real): seq<Span>
  {
    if |silences| == 0 then [(0.0, videoDuration)]
    else
      var (regions, position) := SpeechScan(silences, minSpeechDuration);
      if position < videoDuration && videoDuration - position >= minSpeechDuration
      then regions + [(position, videoDuration)]
      else regions
  }

  lemma SpeechScanPrefix(silences: seq<SilenceRegion>, i: nat, minSpeechDuration: real)
    requires i < |silences|
    ensures SpeechScan(silences[..i + 1], minSpeechDuration)
      == SpeechStep(SpeechScan(silences[..i], minSpeechDuration), silences[i], minSpeechDuration)
  {
    assert silences[..i + 1][..i] == silences[..i];
  }

  /** The loop that walks the silences and keeps the long enough gaps. */
  method GetSpeechRegions(silences: seq<SilenceRegion>, videoDuration: real, minSpeechDuration: real)
    returns (speechRegions: seq<Span>)
    ensures speechRegions == SpeechRegions(silences, videoDuration, minSpeechDuration)
  {
    if |silences| == 0 {
      return [(0.0, videoDuration)];
    }
    speechRegions := [];
    var currentPos := 0.0;
    for i := 0 to |silences|
      invariant (speechRegions, currentPos) == SpeechScan(silences[..i], minSpeechDuration)
    {
      SpeechScanPrefix(silences, i, minSpeechDuration);
      ghost var prior := (speechRegions, currentPos);
      var silence := silences[i];
      if silence.start > currentPos {
        var speechDuration := silence.start - currentPos;
        if speechDuration >= minSpeechDuration {
          speechRegions := speechRegions + [(currentPos, silence.start)];
        }
      }
      currentPos := silence.end;
      assert (speechRegions, currentPos) == SpeechStep(prior, silence, minSpeechDuration);
    }
    assert silences[..|silences|] == silences;
    if currentPos < videoDuration {
      var finalDuration := videoDuration - currentPos;
      if finalDuration >= minSpeechDuration {
        speechRegions := speechRegions + [(currentPos, videoDuration)];
      }
    }
  }

  /** The loop keeps exactly the long enough gaps before the silences and ends at the last silence's end. */
  lemma {:induction false} SpeechScanGaps(silences: seq<SilenceRegion>, minSpeechDuration: real)
    ensures SpeechScan(silences, minSpeechDuration).0 == Select(InnerGaps(silences), KeepGap(minSpeechDuration))
    ensures |silences| > 0 ==> SpeechScan(silences, minSpeechDuration).1 == silences[|silences| - 1].end
  {
    if |silences| > 0 {
      var init := silences[..|silences| - 1];
      SpeechScanGaps(init, minSpeechDuration);
      var g := InnerGaps(silences);
      assert g[..|g| - 1] == InnerGaps(init);
      assert g[|g| - 1] == (SpeechScan(init, minSpeechDuration).1, silences[|silences| - 1].start);
    }
  }

  /**
   * With silences, the speech regions are exactly the gaps — before each
   * silence and after the last — that are non-empty and long enough;
   * without silences the whole video is speech.
   */
  lemma SpeechRegionsSpec(silences: seq<SilenceRegion>, videoDuration: real, minSpeechDuration: real)
    ensures |silences| == 0 ==> SpeechRegions(silences, videoDuration, minSpeechDuration) == [(0.0, videoDuration)]
    ensures |silences| > 0 ==> (SpeechRegions(silences, videoDuration, minSpeechDuration)
      == Select(InnerGaps(silences) + [FinalGap(silences, videoDuration)], KeepGap(minSpeechDuration)))
    ensures |silences| > 0 ==> forall j :: 0 <= j < |SpeechRegions(silences, videoDuration, minSpeechDuration)| ==>
      LongEnough(SpeechRegions(silences, videoDuration, minSpeechDuration)[j], minSpeechDuration)
  {
    if |silences| > 0 {
      SpeechScanGaps(silences, minSpeechDuration);
      var gaps := InnerGaps(silences) + [FinalGap(silences, videoDuration)];
      assert gaps[..|gaps| - 1] == InnerGaps(silences);
      var r := SpeechRegions(silences, videoDuration, minSpeechDuration);
      assert r == Select(gaps, KeepGap(minSpeechDuration));
      forall j | 0 <= j < |r| ensures LongEnough(r[j], minSpeechDuration) {
        assert r[j] in r;
      }
    }
  }

  /** For silences that lie apart and have positive length, no speech region overlaps a silence. */
  lemma SpeechAvoidsSilence(silences: seq<SilenceRegion>, videoDuration: real, minSpeechDuration: real)
    requires Proper(silences) && Apart(silences)
    ensures forall j, k :: 0 <= j < |SpeechRegions(silences, videoDuration, minSpeechDuration)| && 0 <= k < |silences| ==>
      SpeechRegions(silences, videoDuration, minSpeechDuration)[j].1 <= silences[k].start
      || silences[k].end <= SpeechRegions(silences, videoDuration, minSpeechDuration)[j].0
  {
    SpeechRegionsSpec(silences, videoDuration, minSpeechDuration);
    if |silences| > 0 {
      var r := SpeechRegions(silences, videoDuration, minSpeechDuration);
      var gaps := InnerGaps(silences) + [FinalGap(silences, videoDuration)];
      forall j, k | 0 <= j < |r| && 0 <= k < |silences| ensures r[j].1 <= silences[k].start || silences[k].end <= r[j].0 {
        assert r[j] in gaps;
        GapAvoidsSilence(silences, videoDuration, r[j], k);
      }
    }
  }

  lemma GapAvoidsSilence(silences: seq<SilenceRegion>, videoDuration: real, gap: Span, k: nat)
    requires Proper(silences) && Apart(silences) && k < |silences|
    requires gap in InnerGaps(silences) + [FinalGap(silences, videoDuration)]
    ensures gap.1 <= silences[k].start || silences[k].end <= gap.0
  {
    var n := |silences|;
    if gap in InnerGaps(silences) {
      var g :| 0 <= g < n && InnerGaps(silences)[g] == gap;
      if k < g {
        assert silences[k].end <= silences[g - 1].start || k == g - 1;
      } else if k > g {
        assert silences[g].end <= silences[k].start;
      }
    } else {
      if k < n - 1 {
        assert silences[k].end <= silences[n - 1].start;
      }
    }
  }

  /** Speech regions of a video from its detector report, or the detection error. */
  function SpeechFromReport(report: string, silenceThreshold: real, minSilenceDuration: real,
                            videoDuration: real, minSpeechDuration: real): Result<seq<Span>>
  {
    match DetectSilence(report, silenceThreshold, minSilenceDuration)
    case Failure(e) => Failure(e)
    case Success(found) => Success(SpeechRegions(found, videoDuration, minSpeechDuration))
  }

  /**
   * Speech detection fails exactly when silence detection does; when every
   * region read has positive length, no speech region overlaps a detected
   * silence.
   */
  lemma SpeechFromReportSpec(report: string, silenceThreshold: real, minSilenceDuration: real,
                             videoDuration: real, minSpeechDuration: real)
    ensures SpeechFromReport(report, silenceThreshold, minSilenceDuration, videoDuration, minSpeechDuration).Success?
      <==> minSilenceDuration >= 0.1 && silenceThreshold <= -10.0
    ensures (Proper(ParseSilenceOutput(report))
      && SpeechFromReport(report, silenceThreshold, minSilenceDuration, videoDuration, minSpeechDuration).Success?) ==>
      var speech := SpeechFromReport(report, silenceThreshold, minSilenceDuration, videoDuration, minSpeechDuration).value;
      var found := DetectSilence(report, silenceThreshold, minSilenceDuration).value;
      forall j, k :: 0 <= j < |speech| && 0 <= k < |found| ==> speech[j].1 <= found[k].start || found[k].end <= speech[j].0
  {
    DetectSilenceSpec(report, silenceThreshold, minSilenceDuration);
    if DetectSilence(report, silenceThreshold, minSilenceDuration).Success? && Proper(ParseSilenceOutput(report)) {
      SpeechAvoidsSilence(DetectSilence(report, silenceThreshold, minSilenceDuration).value, videoDuration, minSpeechDuration);
    }
  }

  /*
   * Threshold recommendation over detections at several thresholds.
   */

  function TotalSilence(regions: seq<SilenceRegion>): real
  {
    if |regions| == 0 then 0.0 else TotalSilence(regions[..|regions| - 1]) + regions[|regions| - 1].duration
  }

  /** The share of the video that is silent; 0 for a video without duration. */
  function SilenceRatio(regions: seq<SilenceRegion>, videoDuration: real): real
  {
    if videoDuration > 0.0 then TotalSilence(regions) / videoDuration else 0.0
  }

  function Abs(x: real): real { if x < 0.0 then -x else x }

  /** How far the silence share is from the target. */
  function Distance(regions: seq<SilenceRegion>, videoDuration: real, target: real): real
  {
    Abs(SilenceRatio(regions, videoDuration) - target)
  }

  function AchievesReason(ratio: real, target: real): string
  {
    "Achieves " + FormatPercent(ratio, 1) + " silence (target: " + FormatPercent(target, 1) + ")"
  }

  /**
   * t is the recommended threshold: its detection is nearest the target,
   * and every smaller threshold is strictly farther.
   */
  predicate BestThreshold(results: map<real, seq<SilenceRegion>>, videoDuration: real, target: real, t: real)
  {
    t in results
    && forall k :: k in results ==>
      Distance(results[t], videoDuration, target) <= Distance(results[k], videoDuration, target)
      && (k < t ==> Distance(results[t], videoDuration, target) < Distance(results[k], videoDuration, target))
  }

  /** At most one threshold is the recommended one. */
  lemma BestThresholdUnique(results: map<real, seq<SilenceRegion>>, videoDuration: real, target: real, t1: real, t2: real)
    requires BestThreshold(results, videoDuration, target, t1) && BestThreshold(results, videoDuration, target, t2)
    ensures t1 == t2
  {
  }

  /** A non-empty set of thresholds has a smallest one. */
  lemma {:induction false} HasSmallest(s: set<real>) returns (m: real)
    requires s != {}
    ensures m in s && forall x :: x in s ==> m <= x
    decreases |s|
  {
    var y := Member(s);
    var rest := s - {y};
    if rest == {} {
      forall z | z in s ensures z == y {
        assert z !in rest;
      }
      m := y;
    } else {
      var m' := HasSmallest(rest);
      m := if y < m' then y else m';
      forall z | z in s ensures m <= z {
        if z != y {
          assert z in rest;
        }
      }
    }
  }

  lemma Member(s: set<real>) returns (y: real)
    requires s != {}
    ensures y in s
  {
    if forall z :: z !in s {
      assert false;
    }
    y :| y in s;
  }

  /** b is, among the thresholds seen, nearest the target, and every smaller one seen is strictly farther. */
  predicate BestAmong(results: map<real, seq<SilenceRegion>>, videoDuration: real, target: real, seen: set<real>, b: real)
  {
    b in seen && b in results
    && forall k :: k in seen && k in results ==>
      Distance(results[b], videoDuration, target) <= Distance(results[k], videoDuration, target)
      && (k < b ==> Distance(results[b], videoDuration, target) < Distance(results[k], videoDuration, target))
  }

  /** Seeing a threshold larger than all seen so far: it becomes the best only when strictly nearer. */
  lemma BestAmongStep(results: map<real, seq<SilenceRegion>>, videoDuration: real, target: real,
                      seen: set<real>, best: Option<real>, t: real)
    requires t in results && forall v :: v in seen ==> v < t
    requires best.None? ==> seen == {}
    requires best.Some? ==> BestAmong(results, videoDuration, target, seen, best.value)
    ensures best.None? || Distance(results[t], videoDuration, target) < Distance(results[best.value], videoDuration, target)
      ==> BestAmong(results, videoDuration, target, seen + {t}, t)
    ensures best.Some? && Distance(results[best.value], videoDuration, target) <= Distance(results[t], videoDuration, target)
      ==> BestAmong(results, videoDuration, target, seen + {t}, best.value)
  {
  }

  /** The loop's record of the best threshold among those seen, with its distance and reason. */
  predicate Tracked(results: map<real, seq<SilenceRegion>>, videoDuration: real, target: real,
                    seen: set<real>, best: real, bestDiff: real, reason: string)
  {
    BestAmong(results, videoDuration, target, seen, best)
    && bestDiff == Distance(results[best], videoDuration, target)
    && reason == AchievesReason(SilenceRatio(results[best], videoDuration), target)
  }

  /** One threshold of the loop: it replaces the best one only when strictly nearer the target. */
  method ConsiderThreshold(results: map<real, seq<SilenceRegion>>, videoDuration: real, target: real, ghost seen: set<real>,
                           best: Option<real>, bestDiff: real, reason: string, t: real)
    returns (best': Option<real>, bestDiff': real, reason': string)
    requires t in results && forall v :: v in seen ==> v < t
    requires best.None? ==> seen == {}
    requires best.Some? ==> Tracked(results, videoDuration, target, seen, best.value, bestDiff, reason)
    ensures best'.Some? && Tracked(results, videoDuration, target, seen + {t}, best'.value, bestDiff', reason')
  {
    best', bestDiff', reason' := best, bestDiff, reason;
    var actualRatio := SilenceRatio(results[t], videoDuration);
    var diff := Abs(actualRatio - target);
    BestAmongStep(results, videoDuration, target, seen, best, t);
    if best.None? || diff < bestDiff {
      bestDiff' := diff;
      best' := Some(t);
      reason' := AchievesReason(actualRatio, target);
    }
  }

  /** Moving the smallest remaining threshold to the visited ones keeps the visit in increasing order. */
  lemma VisitSmallest(keys: set<real>, remaining: set<real>, visited: set<real>, t: real)
    requires remaining + visited == keys && remaining !! visited
    requires forall v, r :: v in visited && r in remaining ==> v < r
    requires t in remaining && forall r :: r in remaining ==> t <= r
    ensures (remaining - {t}) + (visited + {t}) == keys && (remaining - {t}) !! (visited + {t})
    ensures forall v, r :: v in visited + {t} && r in remaining - {t} ==> v < r
    ensures |remaining - {t}| < |remaining|
  {
    forall v, r | v in visited + {t} && r in remaining - {t} ensures v < r {
      if v == t {
        assert t <= r && r != t;
      }
    }
  }

  /** Once every threshold is seen, the tracked one is the recommended one. */
  lemma TrackedAll(results: map<real, seq<SilenceRegion>>, videoDuration: real, target: real,
                   seen: set<real>, best: real, bestDiff: real, reason: string)
    requires seen == results.Keys && Tracked(results, videoDuration, target, seen, best, bestDiff, reason)
    ensures BestThreshold(results, videoDuration, target, best)
    ensures reason == AchievesReason(SilenceRatio(results[best], videoDuration), target)
  {
  }

  /** Visits the thresholds in increasing order and keeps the first one nearest the target. */
  method RecommendThreshold(results: map<real, seq<SilenceRegion>>, videoDuration: real, target: real)
    returns (threshold: real, reason: string)
    ensures results == map[] ==> threshold == -40.0 && reason == "Default threshold"
    ensures results != map[] ==> (BestThreshold(results, videoDuration, target, threshold)
      && reason == AchievesReason(SilenceRatio(results[threshold], videoDuration), target))
  {
    var best: Option<real> := None;
    var bestDiff := 0.0;
    reason := "";
    var remaining := results.Keys;
    ghost var visited: set<real> := {};
    while remaining != {}
      invariant remaining + visited == results.Keys && remaining !! visited
      invariant forall v, r :: v in visited && r in remaining ==> v < r
      invariant best.None? ==> visited == {}
      invariant best.Some? ==> Tracked(results, videoDuration, target, visited, best.value, bestDiff, reason)
      decreases |remaining|
    {
      ghost var smallest := HasSmallest(remaining);
      var t :| t in remaining && forall r :: r in remaining ==> t <= r;
      best, bestDiff, reason := ConsiderThreshold(results, videoDuration, target, visited, best, bestDiff, reason, t);
      VisitSmallest(results.Keys, remaining, visited, t);
      remaining := remaining - {t};
      visited := visited + {t};
    }
    if best.None? {
      threshold, reason := -40.0, "Default threshold";
    } else {
      threshold := best.value;
      TrackedAll(results, videoDuration, target, visited, threshold, bestDiff, reason);
    }
  }

  /*
   * Threshold search: halving the threshold range at most five times.
   * The detection at a threshold is given as a function.
   */

  /** The middle of a threshold range. */
  function Midpoint(low: real, high: real): (m: real)
    ensures Min(low, high) <= m <= Max(low, high)
  {
    (low + high) / 2.0
  }

  /** The threshold chosen with the given number of probes left in the range [low, high]. */
  function SearchThreshold(detect: real -> seq<SilenceRegion>, duration: real, target: real,
                           low: real, high: real, probes: nat): real
    decreases probes
  {
    var best := Midpoint(low, high);
    if probes == 0 then best
    else
      var ratio := SilenceRatio(detect(best), duration);
      if Abs(ratio - target) < 0.05 then best
      else if ratio < target then SearchThreshold(detect, duration, target, best, high, probes - 1)
      else SearchThreshold(detect, duration, target, low, best, probes - 1)
  }

  const SearchProbes: nat := 5

  function FindOptimalThreshold(detect: real -> seq<SilenceRegion>, duration: real, target: real,
                                searchRange: Span): real
  {
    SearchThreshold(detect, duration, target, searchRange.0, searchRange.1, SearchProbes)
  }

  /** The search never leaves the range it started with. */
  lemma {:induction false} SearchWithin(detect: real -> seq<SilenceRegion>, duration: real, target: real,
                                        low: real, high: real, probes: nat)
    ensures Min(low, high) <= SearchThreshold(detect, duration, target, low, high, probes) <= Max(low, high)
    decreases probes
  {
    var best := Midpoint(low, high);
    if probes > 0 {
      var ratio := SilenceRatio(detect(best), duration);
      if Abs(ratio - target) >= 0.05 {
        if ratio < target {
          SearchWithin(detect, duration, target, best, high, probes - 1);
        } else {
          SearchWithin(detect, duration, target, low, best, probes - 1);
        }
      }
    }
  }

  /** The optimal threshold lies within the search range. */
  lemma FindOptimalWithin(detect: real -> seq<SilenceRegion>, duration: real, target: real, searchRange: Span)
    ensures Min(searchRange.0, searchRange.1) <= FindOptimalThreshold(detect, duration, target, searchRange)
      <= Max(searchRange.0, searchRange.1)
  {
    SearchWithin(detect, duration, target, searchRange.0, searchRange.1, SearchProbes);
  }

  /** The search loop, probing at most five thresholds and stopping early once near enough. */
  method SearchOptimalThreshold(detect: real -> seq<SilenceRegion>, duration: real, target: real, searchRange: Span)
    returns (bestThreshold: real, probes: nat)
    ensures bestThreshold == FindOptimalThreshold(detect, duration, target, searchRange)
    ensures probes <= SearchProbes
  {
    var low, high := searchRange.0, searchRange.1;
    bestThreshold := Midpoint(low, high);
    probes := 0;
    while probes < SearchProbes
      invariant probes <= SearchProbes && bestThreshold == Midpoint(low, high)
      invariant SearchThreshold(detect, duration, target, low, high, SearchProbes - probes)
        == FindOptimalThreshold(detect, duration, target, searchRange)
    {
      var regions := detect(bestThreshold);
      var silenceRatio := SilenceRatio(regions, duration);
      probes := probes + 1;
      if Abs(silenceRatio - target) < 0.05 {
        break;
      }
      if silenceRatio < target {
        low := bestThreshold;
      } else {
        high := bestThreshold;
      }
      bestThreshold := Midpoint(low, high);
    }
  }

  /*
   * Trimming long silences from clip boundaries.
   */

  /** A silence that moves a clip boundary at t: it contains t and is longer than the maximum kept. */
  predicate Trims(silence: SilenceRegion, t: real, maxSilenceDuration: real)
  {
    silence.Contains(t) && silence.duration > maxSilenceDuration
  }

  /** The first silence, in order, that trims at t. */
  function FirstTrim(silences: seq<SilenceRegion>, t: real, maxSilenceDuration: real): Option<SilenceRegion>
  {
    if |silences| == 0 then None
    else if Trims(silences[0], t, maxSilenceDuration) then Some(silences[0])
    else FirstTrim(silences[1..], t, maxSilenceDuration)
  }

  /** The last silence, in order, that trims at t. */
  function LastTrim(silences: seq<SilenceRegion>, t: real, maxSilenceDuration: real): Option<SilenceRegion>
  {
    if |silences| == 0 then None
    else if Trims(silences[|silences| - 1], t, maxSilenceDuration) then Some(silences[|silences| - 1])
    else LastTrim(silences[..|silences| - 1], t, maxSilenceDuration)
  }

  /** FirstTrim finds a trimming silence exactly when there is one, and it is the earliest, at position k. */
  lemma {:induction false} FirstTrimSpec(silences: seq<SilenceRegion>, t: real, maxSilenceDuration: real) returns (k: nat)
    ensures FirstTrim(silences, t, maxSilenceDuration).None? <==>
      forall i :: 0 <= i < |silences| ==> !Trims(silences[i], t, maxSilenceDuration)
    ensures FirstTrim(silences, t, maxSilenceDuration).Some? ==>
      k < |silences| && silences[k] == FirstTrim(silences, t, maxSilenceDuration).value
      && Trims(silences[k], t, maxSilenceDuration)
      && forall i :: 0 <= i < k ==> !Trims(silences[i], t, maxSilenceDuration)
  {
    k := 0;
    if |silences| > 0 && !Trims(silences[0], t, maxSilenceDuration) {
      var rest := silences[1..];
      var k' := FirstTrimSpec(rest, t, maxSilenceDuration);
      k := k' + 1;
      forall i | 0 < i < |silences| ensures silences[i] == rest[i - 1] {
      }
    }
  }

  /** LastTrim finds a trimming silence exactly when there is one, and it is the latest, at position k. */
  lemma {:induction false} LastTrimSpec(silences: seq<SilenceRegion>, t: real, maxSilenceDuration: real) returns (k: nat)
    ensures LastTrim(silences, t, maxSilenceDuration).None? <==>
      forall i :: 0 <= i < |silences| ==> !Trims(silences[i], t, maxSilenceDuration)
    ensures LastTrim(silences, t, maxSilenceDuration).Some? ==>
      k < |silences| && silences[k] == LastTrim(silences, t, maxSilenceDuration).value
      && Trims(silences[k], t, maxSilenceDuration)
      && forall i :: k < i < |silences| ==> !Trims(silences[i], t, maxSilenceDuration)
  {
    k := if |silences| > 0 then |silences| - 1 else 0;
    if |silences| > 0 && !Trims(silences[|silences| - 1], t, maxSilenceDuration) {
      var init := silences[..|silences| - 1];
      k := LastTrimSpec(init, t, maxSilenceDuration);
      forall i | 0 <= i < |init| ensures silences[i] == init[i] {
      }
    }
  }

  /** One clip after trimming, or None when nothing is left of it. */
  function TrimClip(clip: Span, silences: seq<SilenceRegion>, maxSilenceDuration: real): Option<Span>
  {
    var newStart := match FirstTrim(silences, clip.0, maxSilenceDuration)
      case Some(s) => Min(s.end, clip.1)
      case None => clip.0;
    var newEnd := match LastTrim(silences, clip.1, maxSilenceDuration)
      case Some(s) => Max(s.start, newStart)
      case None => clip.1;
    if newEnd > newStart then Some((newStart, newEnd)) else None
  }

  function TrimWith(silences: seq<SilenceRegion>, maxSilenceDuration: real): Span -> Option<Span>
  {
    (clip: Span) => TrimClip(clip, silences, maxSilenceDuration)
  }

  /** The clips after trimming, dropping those that collapse. */
  function TrimSilenceFromClips(clips: seq<Span>, silences: seq<SilenceRegion>, maxSilenceDuration: real): seq<Span>
  {
    Collect(clips, TrimWith(silences, maxSilenceDuration))
  }

  /**
   * A trimmed clip lies within its clip and is non-empty; a clip whose
   * boundaries no long silence contains keeps both boundaries; and a clip
   * is dropped only when its boundaries collapse.
   */
  lemma TrimClipSpec(clip: Span, silences: seq<SilenceRegion>, maxSilenceDuration: real)
    ensures TrimClip(clip, silences, maxSilenceDuration).Some? ==>
      var r := TrimClip(clip, silences, maxSilenceDuration).value;
      clip.0 <= r.0 < r.1 <= clip.1
    ensures (forall k :: 0 <= k < |silences| ==> !Trims(silences[k], clip.0, maxSilenceDuration) && !Trims(silences[k], clip.1, maxSilenceDuration))
      ==> TrimClip(clip, silences, maxSilenceDuration) == if clip.0 < clip.1 then Some(clip) else None
  {
    var first := FirstTrimSpec(silences, clip.0, maxSilenceDuration);
    var last := LastTrimSpec(silences, clip.1, maxSilenceDuration);
  }

  /**
   * The trimmed clips are, in order, the trimmed values of exactly the
   * clips that keep something, each within its clip.
   */
  lemma TrimSilenceSpec(clips: seq<Span>, silences: seq<SilenceRegion>, maxSilenceDuration: real) returns (p: seq<nat>)
    ensures |p| == |TrimSilenceFromClips(clips, silences, maxSilenceDuration)|
    ensures forall j :: 0 <= j < |p| ==> (p[j] < |clips|
      && TrimClip(clips[p[j]], silences, maxSilenceDuration) == Some(TrimSilenceFromClips(clips, silences, maxSilenceDuration)[j])
      && clips[p[j]].0 <= TrimSilenceFromClips(clips, silences, maxSilenceDuration)[j].0
      && TrimSilenceFromClips(clips, silences, maxSilenceDuration)[j].0 < TrimSilenceFromClips(clips, silences, maxSilenceDuration)[j].1
      && TrimSilenceFromClips(clips, silences, maxSilenceDuration)[j].1 <= clips[p[j]].1)
    ensures forall i, j :: 0 <= i < j < |p| ==> p[i] < p[j]
    ensures forall k :: 0 <= k < |clips| && TrimClip(clips[k], silences, maxSilenceDuration).Some? ==> k in p
  {
    var f := TrimWith(silences, maxSilenceDuration);
    p := CollectSpec(clips, f);
    forall j | 0 <= j < |p| ensures
      clips[p[j]].0 <= TrimSilenceFromClips(clips, silences, maxSilenceDuration)[j].0
      && TrimSilenceFromClips(clips, silences, maxSilenceDuration)[j].0 < TrimSilenceFromClips(clips, silences, maxSilenceDuration)[j].1
      && TrimSilenceFromClips(clips, silences, maxSilenceDuration)[j].1 <= clips[p[j]].1
    {
      TrimClipSpec(clips[p[j]], silences, maxSilenceDuration);
    }
  }

  /** The forward scan for the first trimming silence. */
  method FindFirstTrim(silences: seq<SilenceRegion>, t: real, maxSilenceDuration: real) returns (found: Option<SilenceRegion>)
    ensures found == FirstTrim(silences, t, maxSilenceDuration)
  {
    found := None;
    var i := 0;
    while i < |silences|
      invariant 0 <= i <= |silences|
      invariant FirstTrim(silences, t, maxSilenceDuration) == FirstTrim(silences[i..], t, maxSilenceDuration)
    {
      if Trims(silences[i], t, maxSilenceDuration) {
        found := Some(silences[i]);
        return;
      }
      assert silences[i..][1..] == silences[i + 1..];
      i := i + 1;
    }
  }

  /** The backward scan for the last trimming silence. */
  method FindLastTrim(silences: seq<SilenceRegion>, t: real, maxSilenceDuration: real) returns (found: Option<SilenceRegion>)
    ensures found == LastTrim(silences, t, maxSilenceDuration)
  {
    found := None;
    var i := |silences|;
    assert silences[..i] == silences;
    while i > 0
      invariant 0 <= i <= |silences|
      invariant LastTrim(silences, t, maxSilenceDuration) == LastTrim(silences[..i], t, maxSilenceDuration)
    {
      if Trims(silences[i - 1], t, maxSilenceDuration) {
        found := Some(silences[i - 1]);
        return;
      }
      assert silences[..i][..i - 1] == silences[..i - 1];
      i := i - 1;
    }
  }

  /** The trimming loop over the clips. */
  method TrimClips(clips: seq<Span>, silences: seq<SilenceRegion>, maxSilenceDuration: real) returns (adjusted: seq<Span>)
    ensures adjusted == TrimSilenceFromClips(clips, silences, maxSilenceDuration)
  {
    adjusted := [];
    for i := 0 to |clips|
      invariant adjusted == Collect(clips[..i], TrimWith(silences, maxSilenceDuration))
    {
      CollectPrefix(clips, i, TrimWith(silences, maxSilenceDuration));
      var start, end := clips[i].0, clips[i].1;
      var newStart, newEnd := start, end;
      var first := FindFirstTrim(silences, start, maxSilenceDuration);
      if first.Some? {
        newStart := Min(first.value.end, end);
      }
      var last := FindLastTrim(silences, end, maxSilenceDuration);
      if last.Some? {
        newEnd := Max(last.value.start, newStart);
      }
      if newEnd > newStart {
        adjusted := adjusted + [(newStart, newEnd)];
      }
    }
    assert clips[..|clips|] == clips;
  }
}
