/**
 The vocabulary of the R04 embedding-memory campaign: cells, treatment controls, reduced runs,
 and the two verdicts that decide whether a treatment is accepted.
 */
module Contract {
  import opened Basics

  const MIB: int := 1024 * 1024
  const MAX_CELL_SECONDS: real := 900.0
  const MAX_CAMPAIGN_SECONDS: real := 14400.0
  const MAX_CUDA_CELLS: int := 22
  const MAX_CPU_REFERENCE_PROCESSES: int := 1
  const MAX_TOTAL_PROCESSES: int := 23
  const PAIR_TOLERANCE_BYTES: int := 256 * MIB
  const MATERIAL_MEMORY_FLOOR_BYTES: int := 256 * MIB
  const MAX_OTHER_PEAK_REGRESSION_BYTES: int := 256 * MIB
  const MAX_LATENCY_REGRESSION_FRACTION: real := 0.10

  datatype Cell = M0 | M1 | M2 | M3Profile | M3A | M3B | M4 | M5 | CpuReference

  datatype Dtype = PostLoadHalf | DirectFp16 | CpuOnnxFp32
  datatype Backend = FlashAttention | EfficientAttention | CudnnAttention | Math
  datatype BatchStrategy = Fixed32 | M4Partitions

  /** The four treatment controls; `_controls_without_profiler` keeps exactly these. */
  datatype Treatment = Treatment(dtype: Dtype, disableCache: bool, backend: Option<Backend>, batch: BatchStrategy)

  /** The five effective controls of one cell. */
  datatype Controls = Controls(treatment: Treatment, profiler: bool)

  datatype ControlKey = DtypeKey | CacheKey | BackendKey | BatchKey | ProfilerKey

  datatype Status = Success | Oom | NonOomFailure | DeadlineStatus | CampaignLimitExceeded

  /** Passage and query vectors of one run. */
  datatype Vectors = Vectors(documents: seq<seq<real>>, queries: seq<seq<real>>)

  /** What a run must share with its partners to be comparable at all. */
  datatype RunIdentity =
    RunIdentity(subject: string, workload: string, revision: string, versions: string, device: string)

  /** One reduced evidence record: what the campaign reads of a completed cell. */
  datatype Run = Run(
    cell: Cell,
    replicate: int,
    identity: RunIdentity,
    controls: Controls,
    valid: bool,
    status: Status,
    targetPhaseComplete: bool,
    loadPhaseComplete: bool,
    fullWorkloadComplete: bool,
    correctnessOk: bool,
    initialFree: Option<int>,
    externalUsed: Option<int>,
    targetPeak: Option<int>,
    loadDevicePeak: Option<int>,
    loadPeakAllocated: Option<int>,
    loadPeakReserved: Option<int>,
    forwardPeak: Option<int>,
    forwardIncrement: Option<int>,
    forwardOom: bool,
    encodeWallMs: Option<real>,
    vectors: Option<Vectors>,
    cacheConfigKnown: bool,
    cacheConfigEnabled: bool,
    cacheWitness: bool,
    tokenCounts: Option<seq<int>>,
    operators: Option<seq<set<Backend>>>,  // per profiled operator, the backends its name marks
    sdpaCalls: seq<set<Backend>>)

  /** How often one cell may run. */
  function CellCap(cell: Cell): int {
    if cell == M3Profile || cell == CpuReference then 1 else 3
  }

  /** The single control a treatment cell is meant to change. */
  function ControlChange(cell: Cell): Option<ControlKey> {
    match cell
    case M1 => Some(CacheKey)
    case M2 => Some(DtypeKey)
    case M3A => Some(BackendKey)
    case M3B => Some(BackendKey)
    case M4 => Some(BatchKey)
    case _ => None
  }

  /** Two treatments differ in exactly one control. */
  predicate ChangesOnly(before: Treatment, after: Treatment, key: ControlKey) {
    && (before.dtype != after.dtype <==> key == DtypeKey)
    && (before.disableCache != after.disableCache <==> key == CacheKey)
    && (before.backend != after.backend <==> key == BackendKey)
    && (before.batch != after.batch <==> key == BatchKey)
  }

  function ChangedTreatment(a: Treatment, b: Treatment): set<ControlKey> {
    (if a.dtype != b.dtype then {DtypeKey} else {}) +
    (if a.disableCache != b.disableCache then {CacheKey} else {}) +
    (if a.backend != b.backend then {BackendKey} else {}) +
    (if a.batch != b.batch then {BatchKey} else {})
  }

  function ChangedControls(a: Controls, b: Controls): set<ControlKey> {
    ChangedTreatment(a.treatment, b.treatment) + (if a.profiler != b.profiler then {ProfilerKey} else {})
  }

  // ---------------------------------------------------------------- mechanism

  datatype PeakKey = TargetPeak | LoadDevicePeak

  function PeakOf(run: Run, key: PeakKey): Option<int> {
    if key == TargetPeak then run.targetPeak else run.loadDevicePeak
  }

  /** The run with another value under one peak key. */
  function WithPeak(run: Run, key: PeakKey, peak: int): Run {
    if key == TargetPeak then run.(targetPeak := Some(peak)) else run.(loadDevicePeak := Some(peak))
  }

  datatype Mechanism = Supported | Falsified | Inconclusive

  /** `max(256 MiB, int(peak * 0.05))`. */
  function MaterialThreshold(peak: int): int {
    Max(MATERIAL_MEMORY_FLOOR_BYTES, peak / 20)
  }

  /** Every per-pair condition of `evaluate_mechanism_pairs`. */
  predicate PairComparable(baseline: Run, treatment: Run, change: ControlKey, key: PeakKey) {
    && ChangedControls(baseline.controls, treatment.controls) == {change}
    && baseline.targetPhaseComplete && treatment.targetPhaseComplete
    && baseline.valid && treatment.valid
    && baseline.initialFree.Some? && treatment.initialFree.Some?
    && baseline.externalUsed.Some? && treatment.externalUsed.Some?
    && Abs(baseline.initialFree.value - treatment.initialFree.value) <= PAIR_TOLERANCE_BYTES
    && Abs(baseline.externalUsed.value - treatment.externalUsed.value) <= PAIR_TOLERANCE_BYTES
    && PeakOf(baseline, key).Some? && PeakOf(treatment, key).Some?
  }

  function Reduction(baseline: Run, treatment: Run, key: PeakKey): int
    requires PeakOf(baseline, key).Some? && PeakOf(treatment, key).Some?
  {
    PeakOf(baseline, key).value - PeakOf(treatment, key).value
  }

  /** One pair belongs to the campaign `identity` and to the treatment `cell`, and is comparable. */
  predicate PairFits(baseline: Run, treatment: Run, identity: RunIdentity, cell: Cell, key: PeakKey) {
    && baseline.identity == identity && treatment.identity == identity
    && treatment.cell == cell
    && ControlChange(cell).Some?
    && PairComparable(baseline, treatment, ControlChange(cell).value, key)
  }

  predicate PairsComparable(baseline: seq<Run>, treatment: seq<Run>, key: PeakKey) {
    && |baseline| == 3 && |treatment| == 3
    && PairFits(baseline[0], treatment[0], baseline[0].identity, treatment[0].cell, key)
    && PairFits(baseline[1], treatment[1], baseline[0].identity, treatment[0].cell, key)
    && PairFits(baseline[2], treatment[2], baseline[0].identity, treatment[0].cell, key)
  }

  function ReductionAt(baseline: seq<Run>, treatment: seq<Run>, key: PeakKey, i: int): int
    requires PairsComparable(baseline, treatment, key) && 0 <= i < 3
  {
    Reduction(baseline[i], treatment[i], key)
  }

  function ThresholdAt(baseline: seq<Run>, treatment: seq<Run>, key: PeakKey, i: int): int
    requires PairsComparable(baseline, treatment, key) && 0 <= i < 3
  {
    MaterialThreshold(PeakOf(baseline[i], key).value)
  }

  /** The median reduction reaches the median threshold, and at least two pairs reach their own. */
  predicate MaterialReduction(r0: int, r1: int, r2: int, t0: int, t1: int, t2: int) {
    && Median3(r0, r1, r2) >= Median3(t0, t1, t2)
    && (if r0 >= t0 then 1 else 0) + (if r1 >= t1 then 1 else 0) + (if r2 >= t2 then 1 else 0) >= 2
  }

  predicate PairsMaterial(baseline: seq<Run>, treatment: seq<Run>, key: PeakKey)
    requires PairsComparable(baseline, treatment, key)
  {
    MaterialReduction(
      ReductionAt(baseline, treatment, key, 0), ReductionAt(baseline, treatment, key, 1),
      ReductionAt(baseline, treatment, key, 2),
      ThresholdAt(baseline, treatment, key, 0), ThresholdAt(baseline, treatment, key, 1),
      ThresholdAt(baseline, treatment, key, 2))
  }

  /** The verdict of `evaluate_mechanism_pairs`. */
  function MechanismVerdict(baseline: seq<Run>, treatment: seq<Run>, key: PeakKey): Mechanism {
    if !PairsComparable(baseline, treatment, key) then Inconclusive
    else if PairsMaterial(baseline, treatment, key) then Supported
    else Falsified
  }

  /** The source's loop over the three pairs, with its early exits. */
  method EvaluateMechanismPairs(baseline: seq<Run>, treatment: seq<Run>, key: PeakKey) returns (verdict: Mechanism)
    ensures verdict == MechanismVerdict(baseline, treatment, key)
  {
    if |baseline| != 3 || |treatment| != 3 {
      return Inconclusive;
    }
    if treatment[1].cell != treatment[0].cell || treatment[2].cell != treatment[0].cell {
      return Inconclusive;
    }
    if ControlChange(treatment[0].cell).None? {
      return Inconclusive;
    }
    var identity := baseline[0].identity;
    var cell := treatment[0].cell;
    for i := 0 to 3
      invariant forall j | 0 <= j < i :: baseline[j].identity == identity && treatment[j].identity == identity
    {
      if baseline[i].identity != identity || treatment[i].identity != identity {
        assert !PairFits(baseline[i], treatment[i], identity, cell, key);
        return Inconclusive;
      }
    }
    var reductions: seq<int> := [];
    var thresholds: seq<int> := [];
    for i := 0 to 3
      invariant |reductions| == |thresholds| == i
      invariant forall j | 0 <= j < i ::
                  && PairFits(baseline[j], treatment[j], identity, cell, key)
                  && reductions[j] == Reduction(baseline[j], treatment[j], key)
                  && thresholds[j] == MaterialThreshold(PeakOf(baseline[j], key).value)
    {
      if !PairComparable(baseline[i], treatment[i], ControlChange(cell).value, key) {
        assert !PairFits(baseline[i], treatment[i], identity, cell, key);
        return Inconclusive;
      }
      reductions := reductions + [Reduction(baseline[i], treatment[i], key)];
      thresholds := thresholds + [MaterialThreshold(PeakOf(baseline[i], key).value)];
    }
    assert PairsComparable(baseline, treatment, key);
    var supported := MaterialReduction(reductions[0], reductions[1], reductions[2],
                                       thresholds[0], thresholds[1], thresholds[2]);
    return if supported then Supported else Falsified;
  }

  lemma SwapFirstPairs(baseline: seq<Run>, treatment: seq<Run>, key: PeakKey)
    requires |baseline| == 3 && |treatment| == 3
    ensures MechanismVerdict([baseline[1], baseline[0], baseline[2]], [treatment[1], treatment[0], treatment[2]], key)
            == MechanismVerdict(baseline, treatment, key)
  {
  }

  lemma SwapLastPairs(baseline: seq<Run>, treatment: seq<Run>, key: PeakKey)
    requires |baseline| == 3 && |treatment| == 3
    ensures MechanismVerdict([baseline[0], baseline[2], baseline[1]], [treatment[0], treatment[2], treatment[1]], key)
            == MechanismVerdict(baseline, treatment, key)
  {
  }

  function Rearranged(runs: seq<Run>, i: int, j: int, k: int): seq<Run>
    requires |runs| == 3 && 0 <= i < 3 && 0 <= j < 3 && 0 <= k < 3
  {
    [runs[i], runs[j], runs[k]]
  }

  /** The verdict does not depend on the order in which the three pairs are presented. */
  lemma MechanismPermutationInvariant(baseline: seq<Run>, treatment: seq<Run>, key: PeakKey, i: int, j: int, k: int)
    requires |baseline| == 3 && |treatment| == 3
    requires 0 <= i < 3 && 0 <= j < 3 && 0 <= k < 3 && i != j && j != k && i != k
    ensures MechanismVerdict(Rearranged(baseline, i, j, k), Rearranged(treatment, i, j, k), key)
            == MechanismVerdict(baseline, treatment, key)
    decreases i, j
  {
    if i > j {
      MechanismPermutationInvariant(baseline, treatment, key, j, i, k);
      SwapFirstPairs(Rearranged(baseline, j, i, k), Rearranged(treatment, j, i, k), key);
    } else if j > k {
      MechanismPermutationInvariant(baseline, treatment, key, i, k, j);
      SwapLastPairs(Rearranged(baseline, i, k, j), Rearranged(treatment, i, k, j), key);
    } else {
      assert Rearranged(baseline, i, j, k) == baseline && Rearranged(treatment, i, j, k) == treatment;
    }
  }

  lemma PairComparableLowered(baseline: Run, treatment: Run, change: ControlKey, key: PeakKey, peak: int)
    requires PairComparable(baseline, treatment, change, key) && peak <= PeakOf(treatment, key).value
    ensures PairComparable(baseline, WithPeak(treatment, key, peak), change, key)
    ensures Reduction(baseline, WithPeak(treatment, key, peak), key) >= Reduction(baseline, treatment, key)
    ensures WithPeak(treatment, key, peak).identity == treatment.identity
    ensures WithPeak(treatment, key, peak).cell == treatment.cell
  {
  }

  /** Lowering any of the treatment's peaks never takes back a SUPPORTED verdict. */
  lemma MechanismMonotone(baseline: seq<Run>, treatment: seq<Run>, key: PeakKey, lowered: seq<Run>, peaks: seq<int>)
    requires MechanismVerdict(baseline, treatment, key) == Supported
    requires |peaks| == |lowered| == 3
    requires forall i | 0 <= i < 3 :: peaks[i] <= PeakOf(treatment[i], key).value
    requires forall i | 0 <= i < 3 :: lowered[i] == WithPeak(treatment[i], key, peaks[i])
    ensures MechanismVerdict(baseline, lowered, key) == Supported
  {
    SupportedParts(baseline, treatment, key);
    PairLowered(baseline, treatment, key, lowered[0], peaks[0], 0);
    PairLowered(baseline, treatment, key, lowered[1], peaks[1], 1);
    PairLowered(baseline, treatment, key, lowered[2], peaks[2], 2);
    StillComparable(baseline, treatment, key, lowered);
    StillMaterial(baseline, treatment, key, lowered);
    SupportedParts(baseline, lowered, key);
  }

  lemma SupportedParts(baseline: seq<Run>, treatment: seq<Run>, key: PeakKey)
    ensures MechanismVerdict(baseline, treatment, key) == Supported <==>
              PairsComparable(baseline, treatment, key) && PairsMaterial(baseline, treatment, key)
  {
  }

  lemma PairLowered(baseline: seq<Run>, treatment: seq<Run>, key: PeakKey, lowered: Run, peak: int, i: nat)
    requires PairsComparable(baseline, treatment, key) && i < 3
    requires peak <= PeakOf(treatment[i], key).value && lowered == WithPeak(treatment[i], key, peak)
    ensures PairFits(baseline[i], lowered, baseline[0].identity, treatment[0].cell, key)
    ensures Reduction(baseline[i], lowered, key) >= Reduction(baseline[i], treatment[i], key)
    ensures lowered.cell == treatment[i].cell
  {
    PairComparableLowered(baseline[i], treatment[i], ControlChange(treatment[0].cell).value, key, peak);
  }

  lemma StillComparable(baseline: seq<Run>, treatment: seq<Run>, key: PeakKey, lowered: seq<Run>)
    requires |baseline| == |treatment| == |lowered| == 3 && lowered[0].cell == treatment[0].cell
    requires forall i | 0 <= i < 3 :: PairFits(baseline[i], lowered[i], baseline[0].identity, treatment[0].cell, key)
    ensures PairsComparable(baseline, lowered, key)
  {
  }

  lemma StillMaterial(baseline: seq<Run>, treatment: seq<Run>, key: PeakKey, lowered: seq<Run>)
    requires PairsComparable(baseline, treatment, key) && PairsComparable(baseline, lowered, key)
    requires PairsMaterial(baseline, treatment, key)
    requires forall i | 0 <= i < 3 ::
               Reduction(baseline[i], lowered[i], key) >= Reduction(baseline[i], treatment[i], key)
    ensures PairsMaterial(baseline, lowered, key)
  {
    MaterialMonotone(
      ReductionAt(baseline, treatment, key, 0), ReductionAt(baseline, treatment, key, 1),
      ReductionAt(baseline, treatment, key, 2),
      ThresholdAt(baseline, treatment, key, 0), ThresholdAt(baseline, treatment, key, 1),
      ThresholdAt(baseline, treatment, key, 2),
      ReductionAt(baseline, lowered, key, 0), ReductionAt(baseline, lowered, key, 1),
      ReductionAt(baseline, lowered, key, 2));
  }

  lemma MaterialMonotone(r0: int, r1: int, r2: int, t0: int, t1: int, t2: int, s0: int, s1: int, s2: int)
    requires MaterialReduction(r0, r1, r2, t0, t1, t2) && r0 <= s0 && r1 <= s1 && r2 <= s2
    ensures MaterialReduction(s0, s1, s2, t0, t1, t2)
  {
  }

  // ---------------------------------------------------------------- production candidate

  datatype Candidate =
    | Qualified
    | RejectedResource
    | RejectedCorrectness
    | RejectedParity
    | RejectedPerformance
    | CandidateInconclusive

  predicate PeakRegressed(before: Option<int>, after: Option<int>)
    requires before.Some? && after.Some?
  {
    after.value - before.value > MAX_OTHER_PEAK_REGRESSION_BYTES
  }

  /** The first other-peak gate that fails for a pair, if any. */
  function OtherPeaks(baseline: Run, treatment: Run): Option<Candidate> {
    if baseline.loadPeakAllocated.None? || treatment.loadPeakAllocated.None? then Some(CandidateInconclusive)
    else if PeakRegressed(baseline.loadPeakAllocated, treatment.loadPeakAllocated) then Some(RejectedResource)
    else if baseline.loadPeakReserved.None? || treatment.loadPeakReserved.None? then Some(CandidateInconclusive)
    else if PeakRegressed(baseline.loadPeakReserved, treatment.loadPeakReserved) then Some(RejectedResource)
    else None
  }

  predicate LatencyKnown(run: Run) {
    run.encodeWallMs.Some? && run.encodeWallMs.value > 0.0
  }

  /** The verdict of `evaluate_production_candidate`; `parity` holds the three parity results. */
  function CandidateVerdict(mechanism: Mechanism, baseline: seq<Run>, treatment: seq<Run>, parity: seq<bool>,
                            otherPeaks: bool): Candidate
  {
    if |baseline| != 3 || |treatment| != 3 || |parity| != 3 then CandidateInconclusive
    else if exists i | 0 <= i < 3 :: !treatment[i].fullWorkloadComplete || treatment[i].status != Success then
      RejectedResource
    else if exists i | 0 <= i < 3 :: !treatment[i].valid then CandidateInconclusive
    else if exists i | 0 <= i < 3 :: !treatment[i].correctnessOk then RejectedCorrectness
    else if exists i | 0 <= i < 3 :: !parity[i] then RejectedParity
    else if mechanism != Supported then CandidateInconclusive
    else if exists i | 0 <= i < 3 :: !baseline[i].valid || !baseline[i].targetPhaseComplete then CandidateInconclusive
    else if otherPeaks && OtherPeaks(baseline[0], treatment[0]).Some? then OtherPeaks(baseline[0], treatment[0]).value
    else if otherPeaks && OtherPeaks(baseline[1], treatment[1]).Some? then OtherPeaks(baseline[1], treatment[1]).value
    else if otherPeaks && OtherPeaks(baseline[2], treatment[2]).Some? then OtherPeaks(baseline[2], treatment[2]).value
    else if exists i | 0 <= i < 3 :: !LatencyKnown(baseline[i]) || !LatencyKnown(treatment[i]) then
      CandidateInconclusive
    else
      var before := MedianReal3(baseline[0].encodeWallMs.value, baseline[1].encodeWallMs.value,
                                baseline[2].encodeWallMs.value);
      var after := MedianReal3(treatment[0].encodeWallMs.value, treatment[1].encodeWallMs.value,
                               treatment[2].encodeWallMs.value);
      if after / before - 1.0 > MAX_LATENCY_REGRESSION_FRACTION then RejectedPerformance else Qualified
  }

  /** A baseline run a candidate can be compared with. */
  predicate BaselineUsable(run: Run) {
    run.valid && run.targetPhaseComplete
  }

  predicate TreatmentClean(run: Run) {
    run.fullWorkloadComplete && run.status == Success && run.valid && run.correctnessOk
  }

  /** Both load peaks are known and neither grew by more than the tolerance. */
  predicate PeaksHeld(baseline: Run, treatment: Run) {
    && baseline.loadPeakAllocated.Some? && treatment.loadPeakAllocated.Some?
    && baseline.loadPeakReserved.Some? && treatment.loadPeakReserved.Some?
    && treatment.loadPeakAllocated.value <= baseline.loadPeakAllocated.value + MAX_OTHER_PEAK_REGRESSION_BYTES
    && treatment.loadPeakReserved.value <= baseline.loadPeakReserved.value + MAX_OTHER_PEAK_REGRESSION_BYTES
  }

  function MedianWall(runs: seq<Run>): real
    requires |runs| == 3 && LatencyKnown(runs[0]) && LatencyKnown(runs[1]) && LatencyKnown(runs[2])
  {
    MedianReal3(runs[0].encodeWallMs.value, runs[1].encodeWallMs.value, runs[2].encodeWallMs.value)
  }

  lemma PeaksHeldIs(baseline: Run, treatment: Run)
    ensures OtherPeaks(baseline, treatment).None? <==> PeaksHeld(baseline, treatment)
  {
  }

  lemma MedianPositive(a: real, b: real, c: real)
    requires a > 0.0 && b > 0.0 && c > 0.0
    ensures MedianReal3(a, b, c) > 0.0
  {
  }

  lemma RegressionWithin(before: real, after: real)
    requires before > 0.0
    ensures after / before - 1.0 > MAX_LATENCY_REGRESSION_FRACTION <==> after > 1.1 * before
  {
    var q := after / before;
    assert q * before == after;
  }

  /** A candidate qualifies exactly if it passes every gate, in whatever order they are tried. */
  lemma QualifiedMeans(mechanism: Mechanism, baseline: seq<Run>, treatment: seq<Run>, parity: seq<bool>,
                       otherPeaks: bool)
    requires |baseline| == |treatment| == |parity| == 3
    ensures CandidateVerdict(mechanism, baseline, treatment, parity, otherPeaks) == Qualified <==>
              && mechanism == Supported
              && (forall i | 0 <= i < 3 :: TreatmentClean(treatment[i]) && parity[i] && BaselineUsable(baseline[i]))
              && (otherPeaks ==> forall i | 0 <= i < 3 :: PeaksHeld(baseline[i], treatment[i]))
              && (forall i | 0 <= i < 3 :: LatencyKnown(baseline[i]) && LatencyKnown(treatment[i]))
              && MedianWall(treatment) <= 1.1 * MedianWall(baseline)
  {
    forall i | 0 <= i < 3
      ensures OtherPeaks(baseline[i], treatment[i]).None? <==> PeaksHeld(baseline[i], treatment[i])
    {
      PeaksHeldIs(baseline[i], treatment[i]);
    }
    if forall i | 0 <= i < 3 :: LatencyKnown(baseline[i]) && LatencyKnown(treatment[i]) {
      MedianPositive(baseline[0].encodeWallMs.value, baseline[1].encodeWallMs.value, baseline[2].encodeWallMs.value);
      RegressionWithin(MedianWall(baseline), MedianWall(treatment));
    }
  }
}
