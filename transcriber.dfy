/**
 * The pure parts of transcription: the text spoken in a time range, the
 * summary statistics of a transcript, and the arithmetic of chunked
 * transcription (how many five-minute chunks a long recording is cut into,
 * which range each covers, and how the chunks' segment times are shifted).
 *
 * The audio tools and the speech service are not modelled: whether a chunk
 * could be cut, and what the service returned for it, come in as functions
 * of the chunk number.
 */
module Transcriber {
  import opened Wrappers
  import opened Strings
  import opened Numbers
  import opened Transcript

  // ---------------------------------------------------------------------------
  // Text in a time range
  // ---------------------------------------------------------------------------

  /**
   * get_text_at_time: the texts of the segments overlapping [startTime,
   * endTime], in transcript order, joined by spaces and stripped.
   */
  method TextAtTime(transcript: seq<Segment>, startTime: real, endTime: real) returns (text: string)
    ensures text == JoinedText(WindowTexts(transcript, Overlapping, startTime, endTime))
  {
    var parts: seq<string> := [];
    for k := 0 to |transcript|
      invariant parts == WindowTexts(transcript[..k], Overlapping, startTime, endTime)
    {
      var seg := transcript[k];
      WindowTextsSnoc(transcript[..k], seg, Overlapping, startTime, endTime);
      assert transcript[..k + 1] == transcript[..k] + [seg];
      if seg.start < endTime && seg.end > startTime {
        parts := parts + [seg.text];
      }
    }
    assert transcript[..|transcript|] == transcript;
    text := JoinedText(parts);
  }

  // ---------------------------------------------------------------------------
  // Transcript summary
  // ---------------------------------------------------------------------------

  /**
   * The summary dictionary. An empty transcript's summary has no
   * start_time / end_time keys, hence the options.
   */
  datatype Summary = Summary(
    totalSegments: nat,
    totalDuration: real,
    totalWords: nat,
    avgSegmentLength: real,
    startTime: Option<real>,
    endTime: Option<real>)

  function TranscriptSummary(transcript: seq<Segment>): Summary
  {
    if |transcript| == 0 then Summary(0, 0.0, 0, 0.0, None, None)
    else
      var first := transcript[0];
      var last := transcript[|transcript| - 1];
      var words := TotalWords(transcript);
      Summary(|transcript|, last.end - first.start, words, Average(words, |transcript|), Some(first.start), Some(last.end))
  }

  /**
   * What the summary reports: all zeros and no time range for an empty
   * transcript; otherwise the segment count, the word count, the average
   * words per segment (which times the count gives the word count back), and
   * the range from the first segment's start to the last one's end, whose
   * length is the reported duration.
   */
  lemma SummarySpec(transcript: seq<Segment>)
    ensures var s := TranscriptSummary(transcript);
      |transcript| == 0 ==>
        s.totalSegments == 0 && s.totalDuration == 0.0 && s.totalWords == 0 && s.avgSegmentLength == 0.0
        && s.startTime.None? && s.endTime.None?
    ensures var s := TranscriptSummary(transcript);
      |transcript| > 0 ==>
        s.totalSegments == |transcript| && s.totalWords == TotalWords(transcript)
        && s.avgSegmentLength * |transcript| as real == TotalWords(transcript) as real
        && s.startTime == Some(transcript[0].start) && s.endTime == Some(transcript[|transcript| - 1].end)
        && s.totalDuration == s.endTime.value - s.startTime.value
  {
    if |transcript| > 0 {
      AverageTimesCount(TotalWords(transcript), |transcript|);
    }
  }

  /**
   * A transcript whose first segment starts no later than its last one, and
   * whose last segment does not end before it starts, has a non-negative
   * duration.
   */
  lemma SummaryDurationNonNegative(transcript: seq<Segment>)
    requires |transcript| > 0
    requires transcript[0].start <= transcript[|transcript| - 1].start <= transcript[|transcript| - 1].end
    ensures TranscriptSummary(transcript).totalDuration >= 0.0
  {
  }

  // ---------------------------------------------------------------------------
  // Chunk arithmetic
  // ---------------------------------------------------------------------------

  /** Five minutes of audio per chunk. */
  const ChunkSeconds: nat := 300

  /** The probed duration, or one hour when the probe fails. */
  function TotalDuration(probed: Option<real>): real
  {
    probed.GetOr(3600.0)
  }

  /** int(total / 300) + (1 if total % 300 else 0), with Python's truncation and modulo. */
  function ChunkCount(total: real): int
  {
    Trunc(total / ChunkSeconds as real) + (if PyMod(total, ChunkSeconds as real) != 0.0 then 1 else 0)
  }

  /** Chunk i starts at i * 300 seconds. */
  function ChunkStart(i: nat): real
  {
    (i * ChunkSeconds) as real
  }

  /** Chunk i ends at (i + 1) * 300 seconds, or at the end of the audio for the last chunk. */
  function ChunkEnd(i: nat, total: real): real
  {
    Min(((i + 1) * ChunkSeconds) as real, total)
  }

  /**
   * The chunk count is the ceiling of the duration over 300 seconds: no
   * chunks for silence of length 0, and otherwise the last chunk starts
   * before the end of the audio and the chunks reach past it.
   */
  lemma ChunkCountCeiling(total: real)
    requires total >= 0.0
    ensures ChunkCount(total) >= 0
    ensures total == 0.0 ==> ChunkCount(total) == 0
    ensures total > 0.0 ==>
      ChunkCount(total) >= 1
      && ((ChunkCount(total) - 1) * ChunkSeconds) as real < total
      && total <= (ChunkCount(total) * ChunkSeconds) as real
  {
    var q := (total / 300.0).Floor;
    var r := total - 300.0 * q as real;
    assert 0.0 <= r < 300.0 by { PyModBounds(total, 300.0); }
    assert q >= 0;
    assert total == 300.0 * q as real + r;
  }

  /**
   * The chunks tile the audio: the first starts at 0, each is non-empty,
   * each ends where the next begins, and the last ends at the end of the
   * audio.
   */
  lemma ChunksTile(total: real, i: nat)
    requires total > 0.0
    requires i < ChunkCount(total)
    ensures ChunkStart(0) == 0.0
    ensures ChunkStart(i) < ChunkEnd(i, total)
    ensures i + 1 < ChunkCount(total) ==> ChunkEnd(i, total) == ChunkStart(i + 1)
    ensures i + 1 == ChunkCount(total) ==> ChunkEnd(i, total) == total
  {
    ChunkCountCeiling(total);
    var n := ChunkCount(total);
    assert (i * 300) as real <= ((n - 1) * 300) as real;
    if i + 1 < n {
      assert ((i + 1) * 300) as real <= ((n - 1) * 300) as real;
    } else {
      assert i + 1 == n;
    }
  }

  // ---------------------------------------------------------------------------
  // Chunked transcription
  // ---------------------------------------------------------------------------

  /** A segment the service returned for a chunk, moved by offset seconds, its text stripped. */
  function Shift(seg: Segment, offset: real): Segment
  {
    Segment(seg.start + offset, seg.end + offset, Strip(seg.text))
  }

  function Shifted(segs: seq<Segment>, offset: real): (r: seq<Segment>)
    ensures |r| == |segs|
  {
    seq(|segs|, i requires 0 <= i < |segs| => Shift(segs[i], offset))
  }

  /**
   * Chunk i made it into the transcript: its audio was cut and the service
   * answered. The answer's segments are in chunk-local time.
   */
  predicate Succeeded(cut: nat -> bool, answer: nat -> Option<seq<Segment>>, i: nat)
  {
    cut(i) && answer(i).Some?
  }

  /** The collected segments and the running offset after some chunks. */
  datatype ChunkScan = ChunkScan(segments: seq<Segment>, offset: real)

  /**
   * The state after the first k chunks, as the loop computes it: a chunk
   * that fails to cut or to transcribe is skipped and leaves the offset
   * alone; a successful one appends its segments moved by the current offset
   * and sets the offset to its own end.
   */
  function ScanChunks(total: real, cut: nat -> bool, answer: nat -> Option<seq<Segment>>, k: nat): ChunkScan
  {
    if k == 0 then ChunkScan([], 0.0)
    else
      var prior := ScanChunks(total, cut, answer, k - 1);
      if Succeeded(cut, answer, k - 1) then
        ChunkScan(prior.segments + Shifted(answer(k - 1).value, prior.offset), ChunkEnd(k - 1, total))
      else prior
  }

  /** The chunk loop of _transcribe_openai_chunked over the chunks of the audio. */
  method TranscribeChunks(total: real, cut: nat -> bool, answer: nat -> Option<seq<Segment>>)
    returns (allSegments: seq<Segment>)
    ensures allSegments == ScanChunks(total, cut, answer, if ChunkCount(total) > 0 then ChunkCount(total) else 0).segments
  {
    var numChunks := ChunkCount(total);
    var n := if numChunks > 0 then numChunks else 0;
    allSegments := [];
    var chunkOffset := 0.0;
    for i := 0 to n
      invariant ChunkScan(allSegments, chunkOffset) == ScanChunks(total, cut, answer, i)
    {
      var endTime := ChunkEnd(i, total);
      if !cut(i) {
        continue;
      }
      var transcript := answer(i);
      if transcript.None? {
        continue;
      }
      var segs := transcript.value;
      for j := 0 to |segs|
        invariant allSegments == ScanChunks(total, cut, answer, i).segments + Shifted(segs, chunkOffset)[..j]
      {
        assert Shifted(segs, chunkOffset)[..j + 1] == Shifted(segs, chunkOffset)[..j] + [Shift(segs[j], chunkOffset)];
        allSegments := allSegments + [Shift(segs[j], chunkOffset)];
      }
      assert Shifted(segs, chunkOffset)[..|segs|] == Shifted(segs, chunkOffset);
      chunkOffset := endTime;
    }
  }

  /** The last successful chunk below k, if any. */
  function LastSuccess(cut: nat -> bool, answer: nat -> Option<seq<Segment>>, k: nat): (r: Option<nat>)
    ensures r.Some? ==> r.value < k && Succeeded(cut, answer, r.value)
  {
    if k == 0 then None
    else if Succeeded(cut, answer, k - 1) then Some(k - 1)
    else LastSuccess(cut, answer, k - 1)
  }

  /** LastSuccess is the last one: no chunk after it, and none at all when it is absent. */
  lemma {:induction false} LastSuccessIsLast(cut: nat -> bool, answer: nat -> Option<seq<Segment>>, k: nat, j: nat)
    requires j < k && Succeeded(cut, answer, j)
    ensures LastSuccess(cut, answer, k).Some?
    ensures j <= LastSuccess(cut, answer, k).value
  {
    if j < k - 1 && !Succeeded(cut, answer, k - 1) {
      LastSuccessIsLast(cut, answer, k - 1, j);
    }
  }

  /** The offset after k chunks is the end of the last successful chunk among them, or 0 when none succeeded. */
  lemma {:induction false} OffsetIsLastSuccessEnd(total: real, cut: nat -> bool, answer: nat -> Option<seq<Segment>>, k: nat)
    ensures ScanChunks(total, cut, answer, k).offset
      == match LastSuccess(cut, answer, k) { case None => 0.0 case Some(j) => ChunkEnd(j, total) }
  {
    if k > 0 && !Succeeded(cut, answer, k - 1) {
      OffsetIsLastSuccessEnd(total, cut, answer, k - 1);
    }
  }

  /**
   * Where each collected segment comes from, as written: it is a segment of
   * some successful chunk i, moved by the end of the last successful chunk
   * before i (0 when there is none).
   */
  lemma {:induction false} ScanSegmentOrigin(total: real, cut: nat -> bool, answer: nat -> Option<seq<Segment>>, k: nat, j: nat)
    returns (i: nat, l: nat)
    requires j < |ScanChunks(total, cut, answer, k).segments|
    ensures i < k && Succeeded(cut, answer, i) && l < |answer(i).value|
    ensures ScanChunks(total, cut, answer, k).segments[j]
      == Shift(answer(i).value[l], ScanChunks(total, cut, answer, i).offset)
  {
    var prior := ScanChunks(total, cut, answer, k - 1);
    if Succeeded(cut, answer, k - 1) && j >= |prior.segments| {
      i, l := k - 1, j - |prior.segments|;
    } else {
      i, l := ScanSegmentOrigin(total, cut, answer, k - 1, j);
    }
  }

  /**
   * Segments placed at the start time of their own chunk: what the offset
   * arithmetic evidently intends.
   */
  function PlacedChunks(cut: nat -> bool, answer: nat -> Option<seq<Segment>>, k: nat): seq<Segment>
  {
    if k == 0 then []
    else
      var prior := PlacedChunks(cut, answer, k - 1);
      if Succeeded(cut, answer, k - 1) then prior + Shifted(answer(k - 1).value, ChunkStart(k - 1))
      else prior
  }

  /** Every placed segment is a segment of some successful chunk i moved by i * 300 seconds. */
  lemma {:induction false} PlacedSegmentOrigin(cut: nat -> bool, answer: nat -> Option<seq<Segment>>, k: nat, j: nat)
    returns (i: nat, l: nat)
    requires j < |PlacedChunks(cut, answer, k)|
    ensures i < k && Succeeded(cut, answer, i) && l < |answer(i).value|
    ensures PlacedChunks(cut, answer, k)[j] == Shift(answer(i).value[l], ChunkStart(i))
  {
    var prior := PlacedChunks(cut, answer, k - 1);
    if Succeeded(cut, answer, k - 1) && j >= |prior| {
      i, l := k - 1, j - |prior|;
    } else {
      i, l := PlacedSegmentOrigin(cut, answer, k - 1, j);
    }
  }

  /**
   * When every chunk succeeds the loop places each chunk at its own start:
   * the offset before chunk i is the end of chunk i - 1, which is where
   * chunk i begins, and after the last chunk it is the end of the audio.
   */
  lemma {:induction false} AllSucceededPlacesChunks(total: real, cut: nat -> bool, answer: nat -> Option<seq<Segment>>, k: nat)
    requires total > 0.0 && k <= ChunkCount(total)
    requires forall i: nat :: i < k ==> Succeeded(cut, answer, i)
    ensures ScanChunks(total, cut, answer, k).segments == PlacedChunks(cut, answer, k)
    ensures ScanChunks(total, cut, answer, k).offset == if k == 0 then 0.0 else ChunkEnd(k - 1, total)
  {
    if k > 0 {
      AllSucceededPlacesChunks(total, cut, answer, k - 1);
      var i := k - 1;
      ChunksTile(total, i);
      if i > 0 {
        ChunksTile(total, i - 1);
      }
    }
  }

  /**
   * A failed chunk shifts every later chunk too early. With 900 seconds of
   * audio, chunk 1 failing to cut, and chunks 0 and 2 each answering one
   * segment, chunk 2's segment is moved by 300 seconds (the end of chunk 0)
   * although chunk 2 starts at 600 seconds, where its placed copy lands.
   */
  lemma SkippedChunkMisplacesLaterOnes(seg: Segment)
    ensures var cut := (i: nat) => i != 1;
      var answer := (i: nat) => Some([seg]);
      var scanned := ScanChunks(900.0, cut, answer, 3).segments;
      var placed := PlacedChunks(cut, answer, 3);
      |scanned| == 2 && |placed| == 2
      && scanned[1].start == seg.start + 300.0
      && placed[1].start == seg.start + ChunkStart(2) == seg.start + 600.0
  {
    var cut := (i: nat) => i != 1;
    var answer := (i: nat) => Some([seg]);
    var s1 := ScanChunks(900.0, cut, answer, 1);
    assert s1.segments == Shifted([seg], 0.0);
    assert s1.offset == 300.0;
    var s2 := ScanChunks(900.0, cut, answer, 2);
    assert s2 == s1;
    var s3 := ScanChunks(900.0, cut, answer, 3);
    assert s3.segments == s1.segments + Shifted([seg], 300.0);
    assert s3.segments[1] == Shift(seg, 300.0);
    var p3 := PlacedChunks(cut, answer, 3);
    assert p3 == Shifted([seg], 0.0) + Shifted([seg], 600.0);
    assert p3[1] == Shift(seg, 600.0);
  }
}
