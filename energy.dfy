/**
 * Energy analysis: spikes in a trace of audio loudness values, the viral
 * keywords of the speech under a spike, their fusion into a viral score, the
 * selection of the top spikes by duration, and the parser of the loudness
 * readings printed by the volume detector.
 *
 * The trace is a sequence of non-negative values, one per fixed-size audio
 * chunk (the readings are clamped to [0, 100] before they get here). A value
 * numpy would compute as NaN, the mean of an empty slice, is None here.
 */
module EnergyAnalyzer {
  import opened Wrappers
  import opened Strings
  import opened Numbers
  import opened Selection
  import opened Sorting
  import opened Transcript
  import opened HookDetector

  datatype EnergySpike = EnergySpike(
    start: real, end: real, duration: real,
    energyLevel: real,    // 0-100, relative to the loudest chunk
    energyDelta: real,    // mean energy of the spike minus the baseline where it starts
    keywords: set<string>,
    keywordScore: real,
    viralScore: real,
    confidence: real)

  // ---------------------------------------------------------------------------
  // Arithmetic over a trace
  // ---------------------------------------------------------------------------

  function Sum(xs: seq<real>): real
  {
    if |xs| == 0 then 0.0 else Sum(xs[..|xs| - 1]) + xs[|xs| - 1]
  }

  /** numpy.mean of a non-empty list. */
  function Mean(xs: seq<real>): real
    requires |xs| > 0
  {
    Sum(xs) / |xs| as real
  }

  /** numpy.max of a non-empty list: no element is larger (and MaxOfAt finds it in the list). */
  function MaxOf(xs: seq<real>): (m: real)
    requires |xs| > 0
    ensures forall k :: 0 <= k < |xs| ==> xs[k] <= m
  {
    if |xs| == 1 then xs[0]
    else
      var init := MaxOf(xs[..|xs| - 1]);
      assert forall k :: 0 <= k < |xs| - 1 ==> xs[..|xs| - 1][k] == xs[k];
      Max(init, xs[|xs| - 1])
  }

  /** The maximum is one of the elements. */
  lemma {:induction false} MaxOfAt(xs: seq<real>) returns (k: nat)
    requires |xs| > 0
    ensures k < |xs| && xs[k] == MaxOf(xs)
  {
    if |xs| == 1 {
      k := 0;
    } else {
      var init := xs[..|xs| - 1];
      var j := MaxOfAt(init);
      k := if xs[|xs| - 1] > MaxOf(init) then |xs| - 1 else j;
    }
  }

  predicate NonNegative(xs: seq<real>)
  {
    forall k :: 0 <= k < |xs| ==> xs[k] >= 0.0
  }

  lemma {:induction false} SumAtLeast(xs: seq<real>, lo: real)
    requires forall k :: 0 <= k < |xs| ==> lo <= xs[k]
    ensures lo * |xs| as real <= Sum(xs)
  {
    if |xs| > 0 {
      SumAtLeast(xs[..|xs| - 1], lo);
    }
  }

  lemma {:induction false} SumAtMost(xs: seq<real>, hi: real)
    requires forall k :: 0 <= k < |xs| ==> xs[k] <= hi
    ensures Sum(xs) <= hi * |xs| as real
  {
    if |xs| > 0 {
      SumAtMost(xs[..|xs| - 1], hi);
    }
  }

  /** The mean of a list is at least any lower bound of its elements. */
  lemma MeanAbove(xs: seq<real>, lo: real)
    requires |xs| > 0
    requires forall k :: 0 <= k < |xs| ==> lo <= xs[k]
    ensures lo <= Mean(xs)
  {
    SumAtLeast(xs, lo);
    DivAtLeast(Sum(xs), |xs| as real, lo);
  }

  /** The mean of a non-empty list is at most its largest element. */
  lemma MeanBelowMax(xs: seq<real>)
    requires |xs| > 0
    ensures Mean(xs) <= MaxOf(xs)
  {
    SumAtMost(xs, MaxOf(xs));
    DivAtMost(Sum(xs), |xs| as real, MaxOf(xs));
  }

  /** The mean of a list lies between its smallest bound and its largest element. */
  lemma MeanWithinMax(xs: seq<real>, lo: real)
    requires |xs| > 0
    requires forall k :: 0 <= k < |xs| ==> lo <= xs[k]
    ensures lo <= Mean(xs) <= MaxOf(xs)
  {
    MeanAbove(xs, lo);
    MeanBelowMax(xs);
  }

  // ---------------------------------------------------------------------------
  // Rolling baseline
  // ---------------------------------------------------------------------------

  /**
   * The bounds Python resolves for values[max(0, i - w // 2) : min(n, i + w // 2)]:
   * a negative end counts from the back, and both ends are clamped into [0, n].
   */
  function BaselineSlice(n: nat, w: int, i: nat): (r: (nat, nat))
    ensures r.0 <= n && r.1 <= n
  {
    var half := w / 2;  // floor division, as the divisor is positive
    var lo := if i - half > 0 then i - half else 0;
    var hi := if n < i + half then n else i + half;
    var hi' := if hi < 0 then (if hi + n > 0 then hi + n else 0) else hi;
    (if lo < n then lo else n, hi')
  }

  /** The baseline at sample i: the mean of its slice, None (NaN) for an empty slice. */
  function Baseline(e: seq<real>, w: int, i: nat): Option<real>
  {
    var (lo, hi) := BaselineSlice(|e|, w, i);
    if lo < hi then Some(Mean(e[lo..hi])) else None
  }

  /**
   * For a window that is not negative, the slice is max(0, i - w // 2) up to
   * min(n, i + w // 2), and it is empty (so the baseline is NaN) exactly when
   * the window is shorter than 2.
   */
  lemma BaselineDefined(e: seq<real>, w: int, i: nat)
    requires w >= 0 && i < |e|
    ensures BaselineSlice(|e|, w, i) == (Max0(i - w / 2), if |e| < i + w / 2 then |e| else i + w / 2)
    ensures Baseline(e, w, i).Some? <==> w >= 2
  {
  }

  function Max0(x: int): nat { if x > 0 then x else 0 }

  /** A baseline over non-negative values is non-negative. */
  lemma BaselineNonNegative(e: seq<real>, w: int, i: nat)
    requires NonNegative(e)
    ensures Baseline(e, w, i).Some? ==> Baseline(e, w, i).value >= 0.0
  {
    var (lo, hi) := BaselineSlice(|e|, w, i);
    if lo < hi {
      MeanWithinMax(e[lo..hi], 0.0);
    }
  }

  /** The baselines of samples 0..k-1. */
  function BaselinesUpTo(e: seq<real>, w: int, k: nat): (r: seq<Option<real>>)
    ensures |r| == k
  {
    if k == 0 then [] else BaselinesUpTo(e, w, k - 1) + [Baseline(e, w, k - 1)]
  }

  function Baselines(e: seq<real>, w: int): (r: seq<Option<real>>)
    ensures |r| == |e|
  {
    BaselinesUpTo(e, w, |e|)
  }

  lemma {:induction false} BaselinesUpToAt(e: seq<real>, w: int, k: nat, i: nat)
    requires i < k
    ensures BaselinesUpTo(e, w, k)[i] == Baseline(e, w, i)
  {
    if i < k - 1 {
      BaselinesUpToAt(e, w, k - 1, i);
    }
  }

  /** Entry i of the list of baselines is the baseline at sample i. */
  lemma BaselinesAt(e: seq<real>, w: int, i: nat)
    requires i < |e|
    ensures Baselines(e, w)[i] == Baseline(e, w, i)
  {
    BaselinesUpToAt(e, w, |e|, i);
  }

  lemma SliceSnoc(e: seq<real>, a: nat, i: nat)
    requires a <= i < |e|
    ensures e[a..i + 1] == e[a..i] + [e[i]]
  {
  }

  /** The loop that builds the list `baseline`. */
  method RollingBaseline(energies: seq<real>, windowSize: int) returns (baseline: seq<Option<real>>)
    ensures baseline == Baselines(energies, windowSize)
  {
    baseline := [];
    for i := 0 to |energies|
      invariant baseline == BaselinesUpTo(energies, windowSize, i)
    {
      var (start, end) := BaselineSlice(|energies|, windowSize, i);
      if start < end {
        baseline := baseline + [Some(Mean(energies[start..end]))];
      } else {
        baseline := baseline + [None];
      }
    }
  }

  // ---------------------------------------------------------------------------
  // Flagged samples and their runs
  // ---------------------------------------------------------------------------

  /** A sample is flagged when it is strictly above its baseline times the multiplier; NaN never is. */
  predicate IsFlagged(x: real, baseline: Option<real>, multiplier: real)
  {
    baseline.Some? && x > baseline.value * multiplier
  }

  /** The flags of samples 0..k-1. */
  function FlagsUpTo(e: seq<real>, baselines: seq<Option<real>>, multiplier: real, k: nat): (f: seq<bool>)
    requires |baselines| == |e| && k <= |e|
    ensures |f| == k
  {
    if k == 0 then [] else FlagsUpTo(e, baselines, multiplier, k - 1) + [IsFlagged(e[k - 1], baselines[k - 1], multiplier)]
  }

  function Flags(e: seq<real>, baselines: seq<Option<real>>, multiplier: real): (f: seq<bool>)
    requires |baselines| == |e|
    ensures |f| == |e|
  {
    FlagsUpTo(e, baselines, multiplier, |e|)
  }

  lemma {:induction false} FlagsUpToAt(e: seq<real>, baselines: seq<Option<real>>, multiplier: real, k: nat, i: nat)
    requires |baselines| == |e| && i < k <= |e|
    ensures FlagsUpTo(e, baselines, multiplier, k)[i] == IsFlagged(e[i], baselines[i], multiplier)
  {
    if i < k - 1 {
      FlagsUpToAt(e, baselines, multiplier, k - 1, i);
    }
  }

  /** Flag i says whether sample i is flagged. */
  lemma FlagsAt(e: seq<real>, baselines: seq<Option<real>>, multiplier: real, i: nat)
    requires |baselines| == |e| && i < |e|
    ensures Flags(e, baselines, multiplier)[i] == IsFlagged(e[i], baselines[i], multiplier)
  {
    FlagsUpToAt(e, baselines, multiplier, |e|, i);
  }

  /** The samples first..stop-1. */
  datatype Run = Run(first: nat, stop: nat)

  /** The end of the run of flagged samples starting at a: the first unflagged sample at or after a, or n. */
  function RunEnd(flags: seq<bool>, a: nat): (b: nat)
    requires a <= |flags|
    ensures a <= b <= |flags|
    ensures forall k :: a <= k < b ==> flags[k]
    ensures b == |flags| || !flags[b]
    decreases |flags| - a
  {
    if a < |flags| && flags[a] then RunEnd(flags, a + 1) else a
  }

  /** A run that ends where the flags stop is where RunEnd puts it. */
  lemma {:induction false} RunEndAt(flags: seq<bool>, a: nat, b: nat)
    requires a <= b <= |flags|
    requires forall k :: a <= k < b ==> flags[k]
    requires b == |flags| || !flags[b]
    ensures RunEnd(flags, a) == b
    decreases b - a
  {
    if a < b {
      RunEndAt(flags, a + 1, b);
    }
  }

  /** The maximal runs of flagged samples at or after k, in order. */
  function RunsFrom(flags: seq<bool>, k: nat): seq<Run>
    requires k <= |flags|
    decreases |flags| - k
  {
    if k == |flags| then []
    else if !flags[k] then RunsFrom(flags, k + 1)
    else
      var b := RunEnd(flags, k + 1);
      [Run(k, b)] + RunsFrom(flags, b)
  }

  function Runs(flags: seq<bool>): seq<Run>
  {
    RunsFrom(flags, 0)
  }

  /** A run of flagged samples that cannot be extended on either side. */
  predicate MaximalRun(flags: seq<bool>, r: Run)
  {
    r.first < r.stop <= |flags|
    && (forall k :: r.first <= k < r.stop ==> flags[k])
    && (r.first == 0 || !flags[r.first - 1])
    && (r.stop == |flags| || !flags[r.stop])
  }

  /**
   * The runs from k are flagged, cannot be extended on the right, cannot be
   * extended on the left except at k, and are separated by unflagged samples.
   */
  lemma {:induction false} RunsFromShape(flags: seq<bool>, k: nat)
    requires k <= |flags|
    ensures forall j :: 0 <= j < |RunsFrom(flags, k)| ==>
      k <= RunsFrom(flags, k)[j].first < RunsFrom(flags, k)[j].stop <= |flags|
      && (forall i :: RunsFrom(flags, k)[j].first <= i < RunsFrom(flags, k)[j].stop ==> flags[i])
      && (RunsFrom(flags, k)[j].first == k || !flags[RunsFrom(flags, k)[j].first - 1])
      && (RunsFrom(flags, k)[j].stop == |flags| || !flags[RunsFrom(flags, k)[j].stop])
    ensures forall a, b :: 0 <= a < b < |RunsFrom(flags, k)| ==> RunsFrom(flags, k)[a].stop < RunsFrom(flags, k)[b].first
    decreases |flags| - k
  {
    if k < |flags| {
      if !flags[k] {
        RunsFromShape(flags, k + 1);
      } else {
        var b := RunEnd(flags, k + 1);
        RunsFromShape(flags, b);
        assert RunsFrom(flags, k) == [Run(k, b)] + RunsFrom(flags, b);
      }
    }
  }

  /** Every flagged sample at or after k lies in one of the runs from k. */
  lemma {:induction false} RunsFromCover(flags: seq<bool>, k: nat, i: nat) returns (j: nat)
    requires k <= i < |flags| && flags[i]
    ensures j < |RunsFrom(flags, k)| && RunsFrom(flags, k)[j].first <= i < RunsFrom(flags, k)[j].stop
    decreases |flags| - k
  {
    if !flags[k] {
      j := RunsFromCover(flags, k + 1, i);
    } else {
      var b := RunEnd(flags, k + 1);
      if i < b {
        j := 0;
      } else {
        var j' := RunsFromCover(flags, b, i);
        j := j' + 1;
      }
    }
  }

  /**
   * The runs are exactly the maximal runs of flagged samples: each is maximal,
   * they come in ascending order with a gap between any two, and every flagged
   * sample lies in one of them.
   */
  lemma RunsSpec(flags: seq<bool>)
    ensures forall j :: 0 <= j < |Runs(flags)| ==> MaximalRun(flags, Runs(flags)[j])
    ensures forall a, b :: 0 <= a < b < |Runs(flags)| ==> Runs(flags)[a].stop < Runs(flags)[b].first
    ensures forall i :: 0 <= i < |flags| && flags[i] ==>
      exists j :: 0 <= j < |Runs(flags)| && Runs(flags)[j].first <= i < Runs(flags)[j].stop
  {
    RunsFromShape(flags, 0);
    var runs := Runs(flags);
    assert runs == RunsFrom(flags, 0);
    forall i | 0 <= i < |flags| && flags[i]
      ensures exists j :: 0 <= j < |runs| && runs[j].first <= i < runs[j].stop
    {
      var j := RunsFromCover(flags, 0, i);
      assert runs[j].first <= i < runs[j].stop;
    }
  }

  /** An unflagged sample starts no run. */
  lemma SkipUnflagged(flags: seq<bool>, i: nat)
    requires i < |flags| && !flags[i]
    ensures RunsFrom(flags, i) == RunsFrom(flags, i + 1)
  {
  }

  /** A run of flagged samples from a that stops at b is the first of the runs from a. */
  lemma CloseRun(flags: seq<bool>, a: nat, b: nat)
    requires a < b <= |flags| && flags[a]
    requires forall k :: a <= k < b ==> flags[k]
    requires b == |flags| || !flags[b]
    ensures RunsFrom(flags, a) == [Run(a, b)] + RunsFrom(flags, b)
  {
    RunEndAt(flags, a + 1, b);
  }

  /** Recording the run that closes at b moves the unrecorded runs on to b. */
  lemma RunsAdvance(flags: seq<bool>, runs: seq<Run>, a: nat, b: nat)
    requires a < b <= |flags| && flags[a]
    requires forall k :: a <= k < b ==> flags[k]
    requires b == |flags| || !flags[b]
    ensures runs + RunsFrom(flags, a) == (runs + [Run(a, b)]) + RunsFrom(flags, b)
  {
    CloseRun(flags, a, b);
  }

  // ---------------------------------------------------------------------------
  // Spikes
  // ---------------------------------------------------------------------------

  /** The runs of a trace that a spike can be made from: non-empty, in range, with a baseline at the start. */
  predicate SpikeRuns(e: seq<real>, baselines: seq<Option<real>>, runs: seq<Run>)
  {
    |baselines| == |e|
    && forall j :: 0 <= j < |runs| ==>
      runs[j].first < runs[j].stop <= |e| && baselines[runs[j].first].Some?
  }

  /** The time at which chunk k starts. */
  function TimeAt(k: nat, segmentSize: real): real { k as real * segmentSize }

  /** A spike's level: its loudest chunk as a percentage of the loudest chunk of the trace, capped at 100. */
  function LevelFrom(mx: real, maxAll: real): real
    requires maxAll != 0.0
  {
    Min(100.0, mx / maxAll * 100.0)
  }

  /** A spike's confidence: its mean energy relative to the loudest chunk of the trace, capped at 1. */
  function ConfidenceFrom(avg: real, maxAll: real): real
    requires maxAll != 0.0
  {
    Min(1.0, avg / maxAll)
  }

  /** The spike a run yields, its energies compared with the loudest chunk of the trace. */
  function SpikeOf(e: seq<real>, baselines: seq<Option<real>>, segmentSize: real, maxAll: real, r: Run): EnergySpike
    requires r.first < r.stop <= |e| && |baselines| == |e| && baselines[r.first].Some?
    requires maxAll != 0.0
  {
    var xs := e[r.first..r.stop];
    EnergySpike(
      TimeAt(r.first, segmentSize), TimeAt(r.stop, segmentSize),
      TimeAt(r.stop, segmentSize) - TimeAt(r.first, segmentSize),
      LevelFrom(MaxOf(xs), maxAll),
      Mean(xs) - baselines[r.first].value,
      {}, 0.0, 0.0,
      ConfidenceFrom(Mean(xs), maxAll))
  }

  /** The spikes of a list of runs, in the same order. */
  function SpikesOf(e: seq<real>, baselines: seq<Option<real>>, segmentSize: real, maxAll: real, runs: seq<Run>)
    : (r: seq<EnergySpike>)
    requires SpikeRuns(e, baselines, runs)
    requires |runs| == 0 || maxAll != 0.0
    ensures |r| == |runs|
  {
    if |runs| == 0 then []
    else (SpikesOf(e, baselines, segmentSize, maxAll, runs[..|runs| - 1])
          + [SpikeOf(e, baselines, segmentSize, maxAll, runs[|runs| - 1])])
  }

  lemma SpikeRunsSnoc(e: seq<real>, baselines: seq<Option<real>>, runs: seq<Run>, r: Run)
    requires SpikeRuns(e, baselines, runs)
    requires r.first < r.stop <= |e| && baselines[r.first].Some?
    ensures SpikeRuns(e, baselines, runs + [r])
  {
  }

  lemma SpikesOfSnoc(e: seq<real>, baselines: seq<Option<real>>, segmentSize: real, maxAll: real,
                     runs: seq<Run>, r: Run)
    requires SpikeRuns(e, baselines, runs + [r]) && maxAll != 0.0
    requires r.first < r.stop <= |e| && baselines[r.first].Some?
    ensures SpikeRuns(e, baselines, runs)
    ensures SpikesOf(e, baselines, segmentSize, maxAll, runs + [r])
      == SpikesOf(e, baselines, segmentSize, maxAll, runs) + [SpikeOf(e, baselines, segmentSize, maxAll, r)]
  {
    assert (runs + [r])[..|runs|] == runs;
    assert forall j :: 0 <= j < |runs| ==> runs[j] == (runs + [r])[j];
  }

  lemma {:induction false} SpikesOfAt(e: seq<real>, baselines: seq<Option<real>>, segmentSize: real, maxAll: real,
                                      runs: seq<Run>)
    requires SpikeRuns(e, baselines, runs)
    requires |runs| == 0 || maxAll != 0.0
    ensures forall j :: 0 <= j < |runs| ==>
      SpikesOf(e, baselines, segmentSize, maxAll, runs)[j] == SpikeOf(e, baselines, segmentSize, maxAll, runs[j])
  {
    if |runs| > 0 {
      var init := runs[..|runs| - 1];
      SpikesOfAt(e, baselines, segmentSize, maxAll, init);
    }
  }

  function LevelOf(s: EnergySpike): real { s.energyLevel }

  /** A flagged sample of a non-negative trace is positive, so the loudest chunk is too. */
  lemma FlaggedPositive(e: seq<real>, w: int, multiplier: real, i: nat)
    requires NonNegative(e) && i < |e| && Flags(e, Baselines(e, w), multiplier)[i]
    ensures MaxOf(e) > 0.0
  {
    FlagsAt(e, Baselines(e, w), multiplier, i);
    var k := FlaggedWitness(e, w, multiplier, i);
    PositiveMax(e, k);
  }

  lemma PositiveMax(e: seq<real>, k: nat)
    requires k < |e| && e[k] > 0.0
    ensures MaxOf(e) > 0.0
  {
    assert e[k] <= MaxOf(e);
  }

  /** A flagged sample of a non-negative trace, or one in its window, is positive. */
  lemma FlaggedWitness(e: seq<real>, w: int, multiplier: real, i: nat) returns (k: nat)
    requires NonNegative(e) && i < |e|
    requires IsFlagged(e[i], Baselines(e, w)[i], multiplier)
    ensures k < |e| && e[k] > 0.0
  {
    BaselinesAt(e, w, i);
    BaselineNonNegative(e, w, i);
    AboveScaled(e[i], Baselines(e, w)[i].value, multiplier);
    if e[i] > 0.0 {
      k := i;
    } else {
      k := BaselineWitness(e, w, i);
    }
  }

  lemma AboveScaled(x: real, b: real, m: real)
    requires x >= 0.0 && b >= 0.0 && x > b * m
    ensures x > 0.0 || b > 0.0
  {
    if b == 0.0 {
      assert b * m == 0.0;
    }
  }

  /** A positive baseline over non-negative values has a positive sample in its window. */
  lemma BaselineWitness(e: seq<real>, w: int, i: nat) returns (k: nat)
    requires NonNegative(e)
    requires Baseline(e, w, i).Some? && Baseline(e, w, i).value > 0.0
    ensures k < |e| && e[k] > 0.0
  {
    var (lo, hi) := BaselineSlice(|e|, w, i);
    var xs := e[lo..hi];
    MeanBelowMax(xs);
    var j := MaxOfAt(xs);
    k := lo + j;
    assert e[k] == xs[j];
  }

  /** The runs of flagged samples are runs a spike can be made from, whatever the baselines. */
  lemma FlaggedRuns(e: seq<real>, baselines: seq<Option<real>>, multiplier: real)
    requires |baselines| == |e|
    ensures SpikeRuns(e, baselines, Runs(Flags(e, baselines, multiplier)))
  {
    var flags := Flags(e, baselines, multiplier);
    RunsSpec(flags);
    var runs := Runs(flags);
    forall j | 0 <= j < |runs| ensures baselines[runs[j].first].Some? {
      FlagsAt(e, baselines, multiplier, runs[j].first);
    }
  }

  /** A trace with a flagged sample has a positive loudest chunk. */
  lemma RunsLoud(e: seq<real>, w: int, multiplier: real)
    requires NonNegative(e)
    ensures |Runs(Flags(e, Baselines(e, w), multiplier))| > 0 ==> |e| > 0 && MaxOf(e) > 0.0
  {
    var flags := Flags(e, Baselines(e, w), multiplier);
    RunsSpec(flags);
    var runs := Runs(flags);
    if |runs| > 0 {
      var f := runs[0].first;
      assert flags[f];
      FlaggedPositive(e, w, multiplier, f);
    }
  }

  /** The spike runs of a trace and the facts the spike formula needs about them. */
  lemma TraceRuns(e: seq<real>, w: int, multiplier: real)
    requires NonNegative(e)
    ensures SpikeRuns(e, Baselines(e, w), Runs(Flags(e, Baselines(e, w), multiplier)))
    ensures |Runs(Flags(e, Baselines(e, w), multiplier))| > 0 ==> |e| > 0 && MaxOf(e) > 0.0
  {
    FlaggedRuns(e, Baselines(e, w), multiplier);
    RunsLoud(e, w, multiplier);
  }

  /** The spikes of a trace, in trace order. */
  function SpikesInOrder(e: seq<real>, segmentSize: real, multiplier: real, w: int): (r: seq<EnergySpike>)
    requires NonNegative(e)
  {
    if |e| == 0 then []
    else
      var baselines := Baselines(e, w);
      var runs := Runs(Flags(e, baselines, multiplier));
      TraceRuns(e, w, multiplier);
      SpikesOf(e, baselines, segmentSize, MaxOf(e), runs)
  }

  /** The pure part of detect_energy_spikes: the spikes, loudest first. */
  function EnergySpikes(e: seq<real>, segmentSize: real, multiplier: real, w: int): seq<EnergySpike>
    requires NonNegative(e)
  {
    var spikes := SpikesInOrder(e, segmentSize, multiplier, w);
    SortDescending(spikes, MapAll(spikes, LevelOf))
  }

  /**
   * detect_energy_spikes over a given trace: the baseline loop, then the scan
   * that opens a spike at a flagged sample, extends it while samples stay
   * flagged, and closes it at the first unflagged sample or at the end.
   */
  method DetectEnergySpikes(energies: seq<real>, segmentSize: real, thresholdMultiplier: real, windowSize: int)
    returns (spikes: seq<EnergySpike>)
    requires NonNegative(energies)
    ensures spikes == EnergySpikes(energies, segmentSize, thresholdMultiplier, windowSize)
  {
    if |energies| == 0 {
      return [];
    }
    var baseline := RollingBaseline(energies, windowSize);
    var maxAll := MaxOf(energies);
    var found := ScanSpikes(energies, baseline, segmentSize, thresholdMultiplier, windowSize, maxAll);
    spikes := SortDescending(found, MapAll(found, LevelOf));
  }

  /** The scan of detect_energy_spikes: the spikes in trace order. */
  method ScanSpikes(energies: seq<real>, baseline: seq<Option<real>>, segmentSize: real, thresholdMultiplier: real,
                    windowSize: int, maxAll: real)
    returns (found: seq<EnergySpike>)
    requires |energies| > 0 && NonNegative(energies)
    requires baseline == Baselines(energies, windowSize) && maxAll == MaxOf(energies)
    ensures found == SpikesInOrder(energies, segmentSize, thresholdMultiplier, windowSize)
  {
    ghost var flags := Flags(energies, baseline, thresholdMultiplier);
    ghost var runs: seq<Run> := [];
    ghost var cursor := 0;  // where the runs not yet recorded begin
    found := [];
    var inSpike := false;
    var spikeStart := 0;
    var spikeEnergy: seq<real> := [];
    for i := 0 to |energies|
      invariant cursor == (if inSpike then spikeStart else i) && spikeStart <= i
      invariant Runs(flags) == runs + RunsFrom(flags, cursor)
      invariant inSpike ==> (spikeStart < i && spikeEnergy == energies[spikeStart..i]
                             && forall k :: spikeStart <= k < i ==> flags[k])
      invariant SpikeRuns(energies, baseline, runs) && (|runs| == 0 || maxAll != 0.0)
      invariant found == SpikesOf(energies, baseline, segmentSize, maxAll, runs)
    {
      var energy := energies[i];
      var isSpike := baseline[i].Some? && energy > baseline[i].value * thresholdMultiplier;
      FlagsAt(energies, baseline, thresholdMultiplier, i);
      if isSpike && !inSpike {
        inSpike := true;
        spikeStart := i;
        spikeEnergy := [energy];
      } else if isSpike && inSpike {
        SliceSnoc(energies, spikeStart, i);
        spikeEnergy := spikeEnergy + [energy];
      } else if !isSpike && inSpike {
        inSpike := false;
        var spike := CloseSpike(energies, baseline, segmentSize, thresholdMultiplier, windowSize, maxAll,
                                spikeStart, i, spikeEnergy);
        RunsAdvance(flags, runs, spikeStart, i);
        SkipUnflagged(flags, i);
        SpikeRunsSnoc(energies, baseline, runs, Run(spikeStart, i));
        SpikesOfSnoc(energies, baseline, segmentSize, maxAll, runs, Run(spikeStart, i));
        runs := runs + [Run(spikeStart, i)];
        found := found + [spike];
      } else {
        SkipUnflagged(flags, i);
      }
      cursor := if inSpike then spikeStart else i + 1;
    }
    if inSpike {
      var spike := CloseSpike(energies, baseline, segmentSize, thresholdMultiplier, windowSize, maxAll,
                              spikeStart, |energies|, spikeEnergy);
      RunsAdvance(flags, runs, spikeStart, |energies|);
      SpikeRunsSnoc(energies, baseline, runs, Run(spikeStart, |energies|));
      SpikesOfSnoc(energies, baseline, segmentSize, maxAll, runs, Run(spikeStart, |energies|));
      runs := runs + [Run(spikeStart, |energies|)];
      found := found + [spike];
    }
    assert runs == Runs(flags);
  }

  /** The spike recorded when a run closes at `stop`, from the energies collected since it opened. */
  method CloseSpike(energies: seq<real>, baseline: seq<Option<real>>, segmentSize: real, thresholdMultiplier: real,
                    windowSize: int, maxAll: real, spikeStart: nat, stop: nat, spikeEnergy: seq<real>)
    returns (spike: EnergySpike)
    requires spikeStart < stop <= |energies| && spikeEnergy == energies[spikeStart..stop]
    requires NonNegative(energies) && baseline == Baselines(energies, windowSize) && maxAll == MaxOf(energies)
    requires forall k :: spikeStart <= k < stop ==> Flags(energies, baseline, thresholdMultiplier)[k]
    requires stop == |energies| || !Flags(energies, baseline, thresholdMultiplier)[stop]
    ensures baseline[spikeStart].Some? && maxAll != 0.0
    ensures RunEnd(Flags(energies, baseline, thresholdMultiplier), spikeStart + 1) == stop
    ensures spike == SpikeOf(energies, baseline, segmentSize, maxAll, Run(spikeStart, stop))
  {
    ghost var flags := Flags(energies, baseline, thresholdMultiplier);
    assert flags[spikeStart];
    FlagsAt(energies, baseline, thresholdMultiplier, spikeStart);
    RunEndAt(flags, spikeStart + 1, stop);
    FlaggedPositive(energies, windowSize, thresholdMultiplier, spikeStart);
    var avgEnergy := Mean(spikeEnergy);
    var maxEnergy := MaxOf(spikeEnergy);
    var startTime := TimeAt(spikeStart, segmentSize);
    var endTime := TimeAt(stop, segmentSize);
    spike := EnergySpike(
      startTime, endTime, endTime - startTime,
      LevelFrom(maxEnergy, maxAll),
      avgEnergy - baseline[spikeStart].value,
      {}, 0.0, 0.0,
      ConfidenceFrom(avgEnergy, maxAll));
  }

  /** A level and a confidence computed from a spike's mean and maximum. */
  lemma RatiosWithin(avg: real, mx: real, m: real)
    requires 0.0 <= avg <= mx <= m && m > 0.0
    ensures 0.0 <= LevelFrom(mx, m) <= 100.0
    ensures 0.0 <= ConfidenceFrom(avg, m) <= 1.0
  {
    DivLe(mx, m, m);
    DivLe(0.0, mx, m);
    DivLe(avg, m, m);
    DivLe(0.0, avg, m);
  }

  /** A spike made from a run, as its figures are promised. */
  predicate SpikeMatchesRun(s: EnergySpike, r: Run, segmentSize: real)
  {
    s.start == TimeAt(r.first, segmentSize) && s.end == TimeAt(r.stop, segmentSize)
    && s.duration == s.end - s.start
    && 0.0 <= s.energyLevel <= 100.0 && 0.0 <= s.confidence <= 1.0
    && s.keywords == {} && s.keywordScore == 0.0 && s.viralScore == 0.0
  }

  /** The bounds of a spike's figures over a non-negative trace. */
  lemma SpikeOfBounds(e: seq<real>, baselines: seq<Option<real>>, segmentSize: real, r: Run)
    requires NonNegative(e) && r.first < r.stop <= |e| && |baselines| == |e| && baselines[r.first].Some?
    requires MaxOf(e) > 0.0
    ensures SpikeMatchesRun(SpikeOf(e, baselines, segmentSize, MaxOf(e), r), r, segmentSize)
  {
    var xs := e[r.first..r.stop];
    MeanWithinMax(xs, 0.0);
    var k := MaxOfAt(xs);
    assert e[r.first + k] == xs[k];
    RatiosWithin(Mean(xs), MaxOf(xs), MaxOf(e));
  }

  /** In trace order, spike j is made from run j. */
  lemma SpikesInOrderSpec(e: seq<real>, segmentSize: real, multiplier: real, w: int)
    requires NonNegative(e)
    ensures |SpikesInOrder(e, segmentSize, multiplier, w)| == |Runs(Flags(e, Baselines(e, w), multiplier))|
    ensures forall j :: 0 <= j < |SpikesInOrder(e, segmentSize, multiplier, w)| ==>
      SpikeMatchesRun(SpikesInOrder(e, segmentSize, multiplier, w)[j], Runs(Flags(e, Baselines(e, w), multiplier))[j],
                      segmentSize)
  {
    var baselines := Baselines(e, w);
    var runs := Runs(Flags(e, baselines, multiplier));
    TraceRuns(e, w, multiplier);
    if |e| > 0 {
      SpikesOfAt(e, baselines, segmentSize, MaxOf(e), runs);
      forall j | 0 <= j < |runs|
        ensures SpikeMatchesRun(SpikesInOrder(e, segmentSize, multiplier, w)[j], runs[j], segmentSize)
      {
        SpikeOfBounds(e, baselines, segmentSize, runs[j]);
      }
    }
  }

  /** Spikes made from runs separated by gaps do not overlap. */
  lemma SeparatedSpikes(s1: EnergySpike, r1: Run, s2: EnergySpike, r2: Run, segmentSize: real)
    requires SpikeMatchesRun(s1, r1, segmentSize) && SpikeMatchesRun(s2, r2, segmentSize)
    requires r1.stop < r2.first && segmentSize > 0.0
    ensures s1.end < s2.start
  {
    MulLt(r1.stop as real, r2.first as real, segmentSize);
  }

  /**
   * What detect_energy_spikes returns for a non-negative trace: nothing for an
   * empty trace; otherwise one spike per maximal run of flagged samples,
   * reordered by a permutation p of the runs, loudest first with ties in
   * trace order, each from first * segmentSize to stop * segmentSize with its
   * level in [0, 100] and its confidence in [0, 1]; for a positive chunk size
   * no two spikes overlap.
   */
  lemma EnergySpikesSpec(e: seq<real>, segmentSize: real, multiplier: real, w: int) returns (p: seq<nat>)
    requires NonNegative(e)
    ensures |e| == 0 ==> EnergySpikes(e, segmentSize, multiplier, w) == []
    ensures IsPermutation(p, |Runs(Flags(e, Baselines(e, w), multiplier))|)
    ensures |EnergySpikes(e, segmentSize, multiplier, w)| == |p|
    ensures forall j :: 0 <= j < |p| ==>
      MaximalRun(Flags(e, Baselines(e, w), multiplier), Runs(Flags(e, Baselines(e, w), multiplier))[p[j]])
      && SpikeMatchesRun(EnergySpikes(e, segmentSize, multiplier, w)[j],
                         Runs(Flags(e, Baselines(e, w), multiplier))[p[j]], segmentSize)
    ensures forall i, j :: 0 <= i < j < |p| ==>
      EnergySpikes(e, segmentSize, multiplier, w)[i].energyLevel >= EnergySpikes(e, segmentSize, multiplier, w)[j].energyLevel
    ensures forall i, j :: 0 <= i < j < |p| ==>
      (EnergySpikes(e, segmentSize, multiplier, w)[i].energyLevel == EnergySpikes(e, segmentSize, multiplier, w)[j].energyLevel
       ==> p[i] < p[j])
    ensures segmentSize > 0.0 ==> forall i, j :: 0 <= i < |p| && 0 <= j < |p| && i != j ==>
      (EnergySpikes(e, segmentSize, multiplier, w)[i].end < EnergySpikes(e, segmentSize, multiplier, w)[j].start
       || EnergySpikes(e, segmentSize, multiplier, w)[j].end < EnergySpikes(e, segmentSize, multiplier, w)[i].start)
  {
    var flags := Flags(e, Baselines(e, w), multiplier);
    RunsSpec(flags);
    SpikesInOrderSpec(e, segmentSize, multiplier, w);
    p := SortedSpikesSpec(SpikesInOrder(e, segmentSize, multiplier, w), Runs(flags), flags, segmentSize);
  }

  /** Sorting spikes made from separated maximal runs, loudest first. */
  lemma SortedSpikesSpec(inOrder: seq<EnergySpike>, runs: seq<Run>, flags: seq<bool>, segmentSize: real)
    returns (p: seq<nat>)
    requires |inOrder| == |runs|
    requires forall j :: 0 <= j < |runs| ==> MaximalRun(flags, runs[j]) && SpikeMatchesRun(inOrder[j], runs[j], segmentSize)
    requires forall a, b :: 0 <= a < b < |runs| ==> runs[a].stop < runs[b].first
    ensures IsPermutation(p, |runs|)
    ensures |SortDescending(inOrder, MapAll(inOrder, LevelOf))| == |p|
    ensures forall j :: 0 <= j < |p| ==>
      MaximalRun(flags, runs[p[j]])
      && SpikeMatchesRun(SortDescending(inOrder, MapAll(inOrder, LevelOf))[j], runs[p[j]], segmentSize)
    ensures forall i, j :: 0 <= i < j < |p| ==>
      SortDescending(inOrder, MapAll(inOrder, LevelOf))[i].energyLevel
        >= SortDescending(inOrder, MapAll(inOrder, LevelOf))[j].energyLevel
    ensures forall i, j :: 0 <= i < j < |p| ==>
      (SortDescending(inOrder, MapAll(inOrder, LevelOf))[i].energyLevel
         == SortDescending(inOrder, MapAll(inOrder, LevelOf))[j].energyLevel
       ==> p[i] < p[j])
    ensures segmentSize > 0.0 ==> forall i, j :: 0 <= i < |p| && 0 <= j < |p| && i != j ==>
      (SortDescending(inOrder, MapAll(inOrder, LevelOf))[i].end < SortDescending(inOrder, MapAll(inOrder, LevelOf))[j].start
       || SortDescending(inOrder, MapAll(inOrder, LevelOf))[j].end < SortDescending(inOrder, MapAll(inOrder, LevelOf))[i].start)
  {
    var keys := MapAll(inOrder, LevelOf);
    var out := SortDescending(inOrder, keys);
    SortDescendingSpec(inOrder, keys);
    p := StableOrder(keys);
    MapAllAt(inOrder, LevelOf);
    if segmentSize > 0.0 {
      PermutedSpikesApart(out, runs, p, segmentSize);
    }
  }

  /** Spikes made, in any order, from runs separated by gaps do not overlap. */
  lemma PermutedSpikesApart(spikes: seq<EnergySpike>, runs: seq<Run>, p: seq<nat>, segmentSize: real)
    requires IsPermutation(p, |runs|) && |spikes| == |p| && segmentSize > 0.0
    requires forall j :: 0 <= j < |p| ==> SpikeMatchesRun(spikes[j], runs[p[j]], segmentSize)
    requires forall a, b :: 0 <= a < b < |runs| ==> runs[a].stop < runs[b].first
    ensures forall i, j :: 0 <= i < |p| && 0 <= j < |p| && i != j ==>
      (spikes[i].end < spikes[j].start || spikes[j].end < spikes[i].start)
  {
    forall i, j | 0 <= i < |p| && 0 <= j < |p| && i != j
      ensures spikes[i].end < spikes[j].start || spikes[j].end < spikes[i].start
    {
      if p[i] < p[j] {
        SeparatedSpikes(spikes[i], runs[p[i]], spikes[j], runs[p[j]], segmentSize);
      } else {
        SeparatedSpikes(spikes[j], runs[p[j]], spikes[i], runs[p[i]], segmentSize);
      }
    }
  }

  // ---------------------------------------------------------------------------
  // Viral keywords
  // ---------------------------------------------------------------------------

  /**
   * A keyword category: a word list tried in order (the first word that occurs
   * counts), or the number pattern, which counts as the keyword "data".
   */
  datatype Category = WordList(words: seq<string>, weight: real) | NumberPattern(weight: real)

  const EmotionalWords: seq<string> := ["amazing", "incredible", "shocking", "wow", "unbelievable", "crazy",
    "insane", "mind-blowing", "genius", "brilliant", "stupid", "ridiculous"]
  const ActionWords: seq<string> := ["happened", "crashed", "exploded", "collapsed", "shattered", "destroyed",
    "broke", "failed", "succeeded", "won", "lost", "killed", "beaten"]
  const RevelationWords: seq<string> := ["secret", "truth", "never knew", "didn't know", "find out", "discover",
    "reveal", "exposed", "turns out", "actually", "wait", "hold on"]
  const HookWords: seq<string> := ["what if", "imagine", "picture this", "think about", "consider this",
    "would you", "could you", "have you ever"]

  /** The categories in the order they are tried. */
  const ViralCategories: seq<Category> := [
    WordList(EmotionalWords, 0.8),
    WordList(ActionWords, 0.9),
    WordList(RevelationWords, 0.85),
    NumberPattern(0.7),
    WordList(HookWords, 0.75)]

  /**
   * The keyword a category contributes. The number pattern is one or more
   * digits with an optional suffix, so a search for it succeeds exactly when
   * the text holds a digit.
   */
  function CategoryHit(c: Category, text: string): Option<string>
  {
    match c
    case WordList(words, _) => FirstFound(words, text)
    case NumberPattern(_) => if HasDigit(text) then Some("data") else None
  }

  function HitIn(text: string): Category -> Option<string>
  {
    (c: Category) => CategoryHit(c, text)
  }

  /** The keywords found, one per category at most, in category order. */
  function Hits(cats: seq<Category>, text: string): seq<string>
  {
    Collect(cats, HitIn(text))
  }

  /** The summed weights of the categories with a hit. */
  function HitWeight(cats: seq<Category>, text: string): real
  {
    if |cats| == 0 then 0.0
    else HitWeight(cats[..|cats| - 1], text) + (if CategoryHit(cats[|cats| - 1], text).Some? then cats[|cats| - 1].weight else 0.0)
  }

  /** The summed contributions 7 * weight of the categories with a hit. */
  function HitTotal(cats: seq<Category>, text: string): real
  {
    if |cats| == 0 then 0.0
    else HitTotal(cats[..|cats| - 1], text) + (if CategoryHit(cats[|cats| - 1], text).Some? then 7.0 * cats[|cats| - 1].weight else 0.0)
  }

  lemma {:induction false} HitTotalIsSeven(cats: seq<Category>, text: string)
    ensures HitTotal(cats, text) == 7.0 * HitWeight(cats, text)
  {
    if |cats| > 0 {
      HitTotalIsSeven(cats[..|cats| - 1], text);
    }
  }

  predicate PositiveWeights(cats: seq<Category>)
  {
    forall k :: 0 <= k < |cats| ==> cats[k].weight > 0.0
  }

  /** With positive weights, the weight applied is positive exactly when some category hits. */
  lemma {:induction false} HitWeightPositive(cats: seq<Category>, text: string)
    requires PositiveWeights(cats)
    ensures HitWeight(cats, text) >= 0.0
    ensures HitWeight(cats, text) > 0.0 <==> |Hits(cats, text)| > 0
  {
    if |cats| > 0 {
      var init := cats[..|cats| - 1];
      HitWeightPositive(init, text);
      CollectSnoc(init, cats[|cats| - 1], HitIn(text));
      assert init + [cats[|cats| - 1]] == cats;
    }
  }

  lemma ViralWeightsPositive()
    ensures PositiveWeights(ViralCategories)
  {
    forall k | 0 <= k < |ViralCategories| ensures ViralCategories[k].weight > 0.0 {
      assert k == 0 || k == 1 || k == 2 || k == 3 || k == 4;
    }
  }

  /**
   * The normalised score over some categories: min(10, total / weight * 1.5)
   * when some weight was applied, the unnormalised total otherwise.
   */
  function ScoreOf(cats: seq<Category>, text: string): real
  {
    var w := HitWeight(cats, text);
    if w > 0.0 then Min(10.0, HitTotal(cats, text) / w * 1.5) else HitTotal(cats, text)
  }

  /**
   * Every hit contributes 7 times the weight it adds, so total / weight is 7
   * and the normalised score is min(10, 10.5): a text with any hit scores 10,
   * one without scores 0.
   */
  lemma ScoreBinary(cats: seq<Category>, text: string)
    requires PositiveWeights(cats)
    ensures ScoreOf(cats, text) == (if |Hits(cats, text)| > 0 then 10.0 else 0.0)
  {
    HitWeightPositive(cats, text);
    HitTotalIsSeven(cats, text);
    var w := HitWeight(cats, text);
    if w > 0.0 {
      MulDiv(7.0, w);
    }
  }

  /** The keyword score of a moment's text. */
  function KeywordScore(text: string): real
  {
    ScoreOf(ViralCategories, text)
  }

  lemma KeywordScoreBinary(text: string)
    ensures KeywordScore(text) == (if |Hits(ViralCategories, text)| > 0 then 10.0 else 0.0)
  {
    ViralWeightsPositive();
    ScoreBinary(ViralCategories, text);
  }

  function SetOf<T>(xs: seq<T>): set<T>
  {
    set x | x in xs
  }

  lemma {:induction false} SetOfSize<T>(xs: seq<T>)
    ensures |SetOf(xs)| <= |xs|
    ensures SetOf(xs) == {} <==> |xs| == 0
  {
    if |xs| > 0 {
      var init := xs[..|xs| - 1];
      SetOfSize(init);
      assert xs == init + [xs[|xs| - 1]];
      assert SetOf(xs) == SetOf(init) + {xs[|xs| - 1]};
      assert xs[0] in SetOf(xs);
    }
  }

  /** The keywords of a moment and its keyword score. */
  datatype KeywordHits = KeywordHits(keywords: set<string>, score: real)

  /** ' ' + text for every text, appended in order. */
  function SpacedConcat(texts: seq<string>): string
  {
    if |texts| == 0 then "" else SpacedConcat(texts[..|texts| - 1]) + " " + texts[|texts| - 1]
  }

  lemma SpacedConcatSnoc(texts: seq<string>, t: string)
    ensures SpacedConcat(texts + [t]) == SpacedConcat(texts) + " " + t
  {
    assert (texts + [t])[..|texts|] == texts;
  }

  /** The text of the segments overlapping the moment, stripped and lower-cased. */
  function MomentText(transcript: seq<Segment>, start: real, end: real): string
  {
    Lower(Strip(SpacedConcat(WindowTexts(transcript, Overlapping, start, end))))
  }

  /** The keywords and score of a moment's text: none and 0 for an empty text. */
  function TextKeywords(text: string): KeywordHits
  {
    if |text| == 0 then KeywordHits({}, 0.0)
    else KeywordHits(SetOf(Hits(ViralCategories, text)), KeywordScore(text))
  }

  function ViralKeywords(transcript: seq<Segment>, start: real, end: real): KeywordHits
  {
    TextKeywords(MomentText(transcript, start, end))
  }

  /**
   * What detect_viral_keywords finds in a text: a keyword is exactly what some
   * category contributes (the first of its words that occurs, or "data" for a
   * digit), an empty text has none; there is at most one per category; the
   * score is 10 when there is a keyword and 0 when there is none.
   */
  lemma TextKeywordsSpec(text: string)
    ensures forall k :: k in TextKeywords(text).keywords <==>
      (|text| > 0 && exists c :: 0 <= c < |ViralCategories| && CategoryHit(ViralCategories[c], text) == Some(k))
    ensures |TextKeywords(text).keywords| <= |ViralCategories|
    ensures TextKeywords(text).score == (if TextKeywords(text).keywords == {} then 0.0 else 10.0)
  {
    var hits := Hits(ViralCategories, text);
    var p := CollectSpec(ViralCategories, HitIn(text));
    SetOfSize(hits);
    KeywordScoreBinary(text);
    if |text| > 0 {
      forall k ensures k in hits <==> exists c :: 0 <= c < |ViralCategories| && CategoryHit(ViralCategories[c], text) == Some(k)
      {
        if k in hits {
          var j :| 0 <= j < |hits| && hits[j] == k;
          assert CategoryHit(ViralCategories[p[j]], text) == Some(k);
        }
        if c :| 0 <= c < |ViralCategories| && CategoryHit(ViralCategories[c], text) == Some(k) {
          var j :| 0 <= j < |p| && p[j] == c;
          assert hits[j] == k;
        }
      }
    }
  }

  /**
   * What a category contributes: for a word list, one of its words that occurs
   * in the text, none exactly when no word occurs, and no earlier word occurs;
   * for the number pattern, "data" exactly when the text holds a digit.
   */
  lemma CategoryHitSpec(c: Category, text: string)
    ensures c.WordList? && CategoryHit(c, text).Some? ==>
      CategoryHit(c, text).value in c.words && Contains(text, CategoryHit(c, text).value)
    ensures c.WordList? ==> (CategoryHit(c, text).None? <==> forall k :: 0 <= k < |c.words| ==> !Contains(text, c.words[k]))
    ensures c.NumberPattern? ==> (CategoryHit(c, text) == Some("data") <==> HasDigit(text))
    ensures c.NumberPattern? ==> (CategoryHit(c, text).None? <==> !HasDigit(text))
  {
    if c.WordList? {
      FirstFoundNone(c.words, text);
    }
  }

  /** The first loop of detect_viral_keywords: ' ' + text for every overlapping segment. */
  method GatherMomentText(transcript: seq<Segment>, momentStart: real, momentEnd: real) returns (momentText: string)
    ensures momentText == SpacedConcat(WindowTexts(transcript, Overlapping, momentStart, momentEnd))
  {
    momentText := "";
    ghost var texts: seq<string> := [];
    for i := 0 to |transcript|
      invariant texts == WindowTexts(transcript[..i], Overlapping, momentStart, momentEnd)
      invariant momentText == SpacedConcat(texts)
    {
      var segment := transcript[i];
      WindowTextsSnoc(transcript[..i], segment, Overlapping, momentStart, momentEnd);
      assert transcript[..i + 1] == transcript[..i] + [segment];
      if segment.start < momentEnd && segment.end > momentStart {
        SpacedConcatSnoc(texts, segment.text);
        momentText := momentText + " " + segment.text;
        texts := texts + [segment.text];
      }
    }
    assert transcript[..|transcript|] == transcript;
  }

  /**
   * The second loop of detect_viral_keywords: each category in order adds its
   * keyword, 7 * its weight to the total and its weight to the weight applied.
   */
  method ScanCategories(cats: seq<Category>, text: string) returns (found: seq<string>, total: real, weightsApplied: real)
    ensures found == Hits(cats, text)
    ensures total == HitTotal(cats, text)
    ensures weightsApplied == HitWeight(cats, text)
  {
    found := [];
    total := 0.0;
    weightsApplied := 0.0;
    for c := 0 to |cats|
      invariant found == Hits(cats[..c], text)
      invariant total == HitTotal(cats[..c], text)
      invariant weightsApplied == HitWeight(cats[..c], text)
    {
      var category := cats[c];
      var hit: Option<string>;
      match category {
        case NumberPattern(_) =>
          hit := if HasDigit(text) then Some("data") else None;
        case WordList(words, _) =>
          hit := ScanWords(words, text);
      }
      assert cats[..c + 1] == cats[..c] + [category];
      assert cats[..c + 1][..c] == cats[..c];
      CollectSnoc(cats[..c], category, HitIn(text));
      if hit.Some? {
        found := found + [hit.value];
        total := total + 7.0 * category.weight;
        weightsApplied := weightsApplied + category.weight;
      }
    }
    assert cats[..|cats|] == cats;
  }

  /**
   * detect_viral_keywords: the loop gathering the text of the overlapping
   * segments, then the loop over the categories in order.
   */
  method DetectViralKeywords(transcript: seq<Segment>, momentStart: real, momentEnd: real)
    returns (keywords: set<string>, keywordScore: real)
    ensures KeywordHits(keywords, keywordScore) == ViralKeywords(transcript, momentStart, momentEnd)
  {
    var momentText := GatherMomentText(transcript, momentStart, momentEnd);
    momentText := Lower(Strip(momentText));
    if |momentText| == 0 {
      return {}, 0.0;
    }
    var found, total, weightsApplied := ScanCategories(ViralCategories, momentText);
    keywordScore := total;
    if weightsApplied > 0.0 {
      keywordScore := Min(10.0, keywordScore / weightsApplied * 1.5);
    }
    keywords := SetOf(found);
    assert keywordScore == ScoreOf(ViralCategories, momentText);
    assert KeywordHits(keywords, keywordScore) == TextKeywords(momentText);
  }

  // ---------------------------------------------------------------------------
  // Fusion of energy and keywords
  // ---------------------------------------------------------------------------

  /** The viral score: 60% the energy level out of 10, 40% the keyword score, capped at 10. */
  function ViralScore(energyLevel: real, keywordScore: real): real
  {
    Min(10.0, energyLevel / 10.0 * 0.6 + keywordScore * 0.4)
  }

  /** A spike updated with the keywords of the speech under it and its viral score. */
  function WithKeywords(s: EnergySpike, transcript: seq<Segment>): EnergySpike
  {
    var kh := ViralKeywords(transcript, s.start, s.end);
    s.(keywords := kh.keywords, keywordScore := kh.score, viralScore := ViralScore(s.energyLevel, kh.score))
  }

  function Annotate(transcript: seq<Segment>): EnergySpike -> EnergySpike
  {
    (s: EnergySpike) => WithKeywords(s, transcript)
  }

  function ViralOf(s: EnergySpike): real { s.viralScore }

  /** The pure part of combine_energy_and_keywords: the updated spikes, highest viral score first. */
  function Combined(spikes: seq<EnergySpike>, transcript: seq<Segment>): seq<EnergySpike>
  {
    var updated := MapAll(spikes, Annotate(transcript));
    SortDescending(updated, MapAll(updated, ViralOf))
  }

  /**
   * An updated spike keeps its times, level, delta and confidence, takes the
   * keywords and score of its speech, and a level in [0, 100] gives a viral
   * score in [0, 10].
   */
  lemma WithKeywordsSpec(s: EnergySpike, transcript: seq<Segment>)
    ensures WithKeywords(s, transcript).start == s.start && WithKeywords(s, transcript).end == s.end
    ensures WithKeywords(s, transcript).duration == s.duration && WithKeywords(s, transcript).energyLevel == s.energyLevel
    ensures WithKeywords(s, transcript).energyDelta == s.energyDelta && WithKeywords(s, transcript).confidence == s.confidence
    ensures WithKeywords(s, transcript).keywords == ViralKeywords(transcript, s.start, s.end).keywords
    ensures WithKeywords(s, transcript).keywordScore == ViralKeywords(transcript, s.start, s.end).score
    ensures WithKeywords(s, transcript).viralScore <= 10.0
    ensures 0.0 <= s.energyLevel <= 100.0 ==> 0.0 <= WithKeywords(s, transcript).viralScore
    ensures WithKeywords(s, transcript).keywords == {} ==> WithKeywords(s, transcript).viralScore == Min(10.0, s.energyLevel / 10.0 * 0.6)
  {
    TextKeywordsSpec(MomentText(transcript, s.start, s.end));
  }

  /**
   * What combine_energy_and_keywords returns: the updated spikes reordered by
   * a permutation, highest viral score first, ties in input order.
   */
  lemma CombinedSpec(spikes: seq<EnergySpike>, transcript: seq<Segment>) returns (p: seq<nat>)
    ensures IsPermutation(p, |spikes|) && |Combined(spikes, transcript)| == |spikes|
    ensures forall j :: 0 <= j < |spikes| ==> Combined(spikes, transcript)[j] == WithKeywords(spikes[p[j]], transcript)
    ensures forall i, j :: 0 <= i < j < |spikes| ==>
      Combined(spikes, transcript)[i].viralScore >= Combined(spikes, transcript)[j].viralScore
    ensures forall i, j :: 0 <= i < j < |spikes| ==>
      (Combined(spikes, transcript)[i].viralScore == Combined(spikes, transcript)[j].viralScore ==> p[i] < p[j])
  {
    var updated := MapAll(spikes, Annotate(transcript));
    var keys := MapAll(updated, ViralOf);
    SortDescendingSpec(updated, keys);
    MapAllAt(spikes, Annotate(transcript));
    MapAllAt(updated, ViralOf);
    p := StableOrder(keys);
  }

  /** The body of the loop of combine_energy_and_keywords: one spike updated. */
  method AnnotateSpike(spike: EnergySpike, transcript: seq<Segment>) returns (updated: EnergySpike)
    ensures updated == WithKeywords(spike, transcript)
  {
    var keywords, keywordScore := DetectViralKeywords(transcript, spike.start, spike.end);
    var viralScore := spike.energyLevel / 10.0 * 0.6 + keywordScore * 0.4;
    updated := spike.(keywords := keywords, keywordScore := keywordScore, viralScore := Min(10.0, viralScore));
  }

  /** combine_energy_and_keywords: the loop updating each spike, then the sort. */
  method CombineEnergyAndKeywords(energySpikes: seq<EnergySpike>, transcript: seq<Segment>)
    returns (updatedSpikes: seq<EnergySpike>)
    ensures updatedSpikes == Combined(energySpikes, transcript)
  {
    var updated: seq<EnergySpike> := [];
    for i := 0 to |energySpikes|
      invariant updated == MapAll(energySpikes[..i], Annotate(transcript))
    {
      var spike := AnnotateSpike(energySpikes[i], transcript);
      MapAllPrefix(energySpikes, i, Annotate(transcript));
      updated := updated + [spike];
    }
    assert energySpikes[..|energySpikes|] == energySpikes;
    updatedSpikes := SortDescending(updated, MapAll(updated, ViralOf));
  }

  // ---------------------------------------------------------------------------
  // Top moments
  // ---------------------------------------------------------------------------

  function InDurationRange(minDuration: real, maxDuration: real): EnergySpike -> bool
  {
    (s: EnergySpike) => minDuration <= s.duration <= maxDuration
  }

  /** xs[:n] for any integer n: a negative n drops that many elements from the end. */
  function SliceTo<T>(xs: seq<T>, n: int): (r: seq<T>)
    ensures r <= xs
    ensures n >= 0 ==> |r| == Min0(n, |xs|)
    ensures n < 0 ==> |r| == (if |xs| + n > 0 then |xs| + n else 0)
  {
    if n >= 0 then Prefix(xs, n) else xs[..if |xs| + n > 0 then |xs| + n else 0]
  }

  function Min0(a: nat, b: nat): nat { if a < b then a else b }

  /** get_top_viral_moments: the spikes whose duration is in range, in order, then the first `count`. */
  function TopViralMoments(spikes: seq<EnergySpike>, count: int, minDuration: real, maxDuration: real): seq<EnergySpike>
  {
    SliceTo(Select(spikes, InDurationRange(minDuration, maxDuration)), count)
  }

  /**
   * The top moments are the first in-range spikes in input order: each has a
   * duration in range, at most `count` of them are taken, and with a count of
   * at least the number of in-range spikes every in-range spike is returned.
   */
  lemma TopViralMomentsSpec(spikes: seq<EnergySpike>, count: int, minDuration: real, maxDuration: real)
    ensures TopViralMoments(spikes, count, minDuration, maxDuration) <= Select(spikes, InDurationRange(minDuration, maxDuration))
    ensures forall s :: s in TopViralMoments(spikes, count, minDuration, maxDuration) ==>
      s in spikes && minDuration <= s.duration <= maxDuration
    ensures count >= 0 ==> |TopViralMoments(spikes, count, minDuration, maxDuration)| <= count
    ensures count >= |Select(spikes, InDurationRange(minDuration, maxDuration))| ==>
      forall s :: s in spikes && minDuration <= s.duration <= maxDuration ==> s in TopViralMoments(spikes, count, minDuration, maxDuration)
  {
    var sel := Select(spikes, InDurationRange(minDuration, maxDuration));
    SelectMembers(spikes, InDurationRange(minDuration, maxDuration));
    var r := TopViralMoments(spikes, count, minDuration, maxDuration);
    forall s | s in r ensures s in sel {
      var k :| 0 <= k < |r| && r[k] == s;
      assert sel[k] == s;
    }
  }

  // ---------------------------------------------------------------------------
  // Loudness readings
  // ---------------------------------------------------------------------------

  const VolumeMarker: string := "mean_volume:"

  /** max(0, min(100, (dB + 40) * 2.5)) with Python's min and max, NaN and infinities included. */
  function LinearOf(db: PyFloat): (v: real)
    ensures 0.0 <= v <= 100.0
    ensures db.Finite? ==> v == Clamp((db.value + 40.0) * 2.5, 0.0, 100.0)
  {
    match db
    case Finite(x) => Max(0.0, Min(100.0, (x + 40.0) * 2.5))
    case Infinity(negative) => if negative then 0.0 else 100.0
    case NaN => 100.0
  }

  /**
   * The reading of one line: the text after the first "mean_volume:" and
   * before the next "dB", stripped and parsed as a float; None when the line
   * has no marker or the text does not parse.
   */
  function VolumeOfLine(line: string): Option<real>
  {
    if !Contains(line, VolumeMarker) then None
    else
      SplitOnFound(line, VolumeMarker);
      var after := SplitOn(line, VolumeMarker)[1];
      var dbText := Strip(SplitOn(after, "dB")[0]);
      match ParseFloat(dbText)
      case None => None
      case Some(db) => Some(LinearOf(db))
  }

  /** The trace read from the detector's output. */
  function MeanVolumes(stderr: string): seq<real>
  {
    Collect(SplitOn(stderr, "\n"), VolumeOfLine)
  }

  /** The body of the parsing loop: the reading of one line, if it has one. */
  method ReadVolume(line: string) returns (reading: Option<real>)
    ensures reading == VolumeOfLine(line)
  {
    reading := None;
    if Contains(line, VolumeMarker) {
      SplitOnFound(line, VolumeMarker);
      var dbText := Strip(SplitOn(SplitOn(line, VolumeMarker)[1], "dB")[0]);
      var db := ParseFloat(dbText);
      if db.Some? {
        reading := Some(LinearOf(db.value));
      }
    }
  }

  /** The parsing loop of _extract_audio_energy. */
  method ParseMeanVolumes(stderr: string) returns (energyValues: seq<real>)
    ensures energyValues == MeanVolumes(stderr)
  {
    var lines := SplitOn(stderr, "\n");
    energyValues := [];
    for i := 0 to |lines|
      invariant energyValues == Collect(lines[..i], VolumeOfLine)
    {
      var line := lines[i];
      CollectPrefix(lines, i, VolumeOfLine);
      var reading := ReadVolume(line);
      if reading.Some? {
        energyValues := energyValues + [reading.value];
      }
    }
    assert lines[..|lines|] == lines;
  }

  /**
   * What the parser yields: one value in [0, 100] per line that holds the
   * marker and a parsable reading, in line order; other lines are skipped.
   */
  lemma MeanVolumesSpec(stderr: string) returns (p: seq<nat>)
    ensures NonNegative(MeanVolumes(stderr))
    ensures forall j :: 0 <= j < |MeanVolumes(stderr)| ==> MeanVolumes(stderr)[j] <= 100.0
    ensures |p| == |MeanVolumes(stderr)|
    ensures forall j :: 0 <= j < |p| ==>
      (p[j] < |SplitOn(stderr, "\n")|
       && Contains(SplitOn(stderr, "\n")[p[j]], VolumeMarker)
       && VolumeOfLine(SplitOn(stderr, "\n")[p[j]]) == Some(MeanVolumes(stderr)[j]))
    ensures forall i, j :: 0 <= i < j < |p| ==> p[i] < p[j]
    ensures forall k :: 0 <= k < |SplitOn(stderr, "\n")| && VolumeOfLine(SplitOn(stderr, "\n")[k]).Some? ==> k in p
  {
    var lines := SplitOn(stderr, "\n");
    p := CollectSpec(lines, VolumeOfLine);
    forall j | 0 <= j < |p| ensures 0.0 <= MeanVolumes(stderr)[j] <= 100.0 {
      assert VolumeOfLine(lines[p[j]]) == Some(MeanVolumes(stderr)[j]);
    }
  }
}
