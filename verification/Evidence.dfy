/**
 The reduction of one raw evidence file to the run the campaign reads. A digest is modelled as
 the value it identifies, so a cell spec stands for its own SHA-256 and a raw record for its file.
 */
module Evidence {
  import opened Basics
  import opened Contract
  import opened VectorMath

  const VECTOR_DIMENSION: int := 1024
  const VECTOR_NORM_TOLERANCE: real := 0.0001

  /** The implementation subject and the workload every record of one campaign must name. */
  datatype Binding = Binding(subject: string, workload: string)

  datatype CellSpec = CellSpec(cell: Cell, replicate: int, controls: Controls, selected: Option<Treatment>)

  datatype StageName =
    | BeforeModelLoad
    | AfterConstruction
    | AfterPostLoadHalf
    | BeforeEncode
    | AfterEncodeSuccess
    | AfterQueryParityEncode

  datatype StageSnapshot = StageSnapshot(
    observed: bool,
    monotonic: Option<real>,
    allocatedBytes: Option<int>,
    peakAllocated: Option<int>,
    peakReserved: Option<int>,
    deviceFree: Option<int>,
    deviceUsed: Option<int>,
    reserved: Option<int>,
    wallSeconds: Option<real>)

  datatype DeviceSample = DeviceSample(monotonic: real, usedBytes: int)

  datatype FailureClass = NoFailure | CudaOom | NonOom | Deadline | Unclassified
  datatype Reported = ReportedSuccess | ReportedFailed | ReportedOther

  datatype RawEvidence = RawEvidence(
    cell: Cell,
    replicate: int,
    spec: CellSpec,
    binding: Binding,
    identity: RunIdentity,
    headerValid: bool,       // schema, design subject, model revision and ordered chunk identities
    runtimeValid: bool,      // runtime versions and device facts
    controls: Controls,
    failure: FailureClass,
    status: Reported,
    encodeStatus: Reported,
    exceptionRecorded: bool,
    stages: map<StageName, StageSnapshot>,
    samples: seq<DeviceSample>,
    vectors: Option<Vectors>,
    documentCount: int,
    queryCount: int,
    dimension: int,
    snapshotWritten: bool,
    oomEventObserved: bool,
    oomClassified: bool,
    cacheValues: seq<bool>,
    cacheWitness: bool,
    tokenCounts: Option<seq<int>>,
    operators: Option<seq<set<Backend>>>,  // per profiled operator, the backends its name marks
    sdpaCalls: seq<set<Backend>>)

  /** The only controls a spec admits; an M5 spec without selected settings raises. */
  function EffectiveControls(spec: CellSpec): Option<Controls> {
    if spec.cell == CpuReference then
      Some(Controls(Treatment(CpuOnnxFp32, false, None, Fixed32), false))
    else if spec.cell == M5 then
      if spec.selected.None? then None
      else Some(Controls(spec.selected.value, spec.controls.profiler))
    else
      Some(spec.controls)
  }

  /** `abs(sqrt(sum of squares) - 1) <= tolerance`, compared on squares. */
  predicate NormOk(v: seq<real>) {
    && |v| == VECTOR_DIMENSION
    && (1.0 - VECTOR_NORM_TOLERANCE) * (1.0 - VECTOR_NORM_TOLERANCE) <= SquareSum(v)
    && SquareSum(v) <= (1.0 + VECTOR_NORM_TOLERANCE) * (1.0 + VECTOR_NORM_TOLERANCE)
  }

  predicate VectorsCorrect(v: Vectors) {
    && |v.documents| == 32 && |v.queries| == 16
    && (forall d | d in v.documents :: NormOk(d))
    && (forall q | q in v.queries :: NormOk(q))
  }

  predicate Observed(raw: RawEvidence, stage: StageName) {
    stage in raw.stages && raw.stages[stage].observed
  }

  predicate FailureClassificationValid(raw: RawEvidence) {
    || (&& raw.failure == NoFailure && raw.status == ReportedSuccess && raw.encodeStatus == ReportedSuccess
        && !raw.exceptionRecorded)
    || (&& raw.failure in {CudaOom, NonOom, Deadline} && raw.status == ReportedFailed
        && raw.encodeStatus == ReportedFailed && raw.exceptionRecorded)
  }

  function ResultStatus(raw: RawEvidence): Status {
    if !FailureClassificationValid(raw) then NonOomFailure
    else match raw.failure
      case NoFailure => Success
      case CudaOom => Oom
      case Deadline => DeadlineStatus
      case _ => NonOomFailure
  }

  function LoadStage(raw: RawEvidence): StageName {
    if raw.controls.treatment.dtype == DirectFp16 then AfterConstruction else AfterPostLoadHalf
  }

  function TargetStage(raw: RawEvidence): StageName {
    if raw.cell == M2 then LoadStage(raw) else AfterEncodeSuccess
  }

  function PeakAllocated(raw: RawEvidence, stage: StageName): Option<int> {
    if stage in raw.stages then raw.stages[stage].peakAllocated else None
  }

  /** The largest device sample between the two instants, if there is one. */
  function PeakInWindow(samples: seq<DeviceSample>, start: real, end: real): (r: Option<int>)
    ensures r.None? <==> forall s | s in samples :: !(start <= s.monotonic <= end)
    ensures r.Some? ==> (exists s | s in samples :: start <= s.monotonic <= end && s.usedBytes == r.value)
    ensures r.Some? ==> forall s | s in samples :: start <= s.monotonic <= end ==> s.usedBytes <= r.value
  {
    if samples == [] then None
    else
      var rest := PeakInWindow(samples[1..], start, end);
      assert forall s :: s in samples <==> s == samples[0] || s in samples[1..];
      if !(start <= samples[0].monotonic <= end) then rest
      else if rest.None? then Some(samples[0].usedBytes)
      else Some(Max(samples[0].usedBytes, rest.value))
  }

  function LoadDevicePeakOf(raw: RawEvidence): Option<int> {
    if LoadStage(raw) in raw.stages && BeforeModelLoad in raw.stages
       && raw.stages[LoadStage(raw)].monotonic.Some? && raw.stages[BeforeModelLoad].monotonic.Some? then
      PeakInWindow(raw.samples, raw.stages[BeforeModelLoad].monotonic.value,
                   raw.stages[LoadStage(raw)].monotonic.value)
    else None
  }

  function ExternalUsedOf(raw: RawEvidence): Option<int> {
    if BeforeModelLoad in raw.stages && raw.stages[BeforeModelLoad].deviceUsed.Some?
       && raw.stages[BeforeModelLoad].reserved.Some? then
      Some(Max(0, raw.stages[BeforeModelLoad].deviceUsed.value - raw.stages[BeforeModelLoad].reserved.value))
    else None
  }

  function ForwardPeakOf(raw: RawEvidence): Option<int> {
    if Observed(raw, AfterEncodeSuccess) then raw.stages[AfterEncodeSuccess].peakAllocated else None
  }

  function ForwardIncrementOf(raw: RawEvidence): Option<int> {
    if Observed(raw, BeforeEncode) && raw.stages[BeforeEncode].allocatedBytes.Some? && ForwardPeakOf(raw).Some? then
      Some(Max(0, ForwardPeakOf(raw).value - raw.stages[BeforeEncode].allocatedBytes.value))
    else None
  }

  predicate TargetPhaseComplete(raw: RawEvidence) {
    Observed(raw, TargetStage(raw)) || (raw.cell == CpuReference && raw.status == ReportedSuccess)
  }

  predicate CorrectnessOk(raw: RawEvidence) {
    && raw.vectors.Some? && VectorsCorrect(raw.vectors.value)
    && raw.documentCount == 32 && raw.queryCount == 16 && raw.dimension == VECTOR_DIMENSION
  }

  predicate FullWorkloadComplete(raw: RawEvidence) {
    && ResultStatus(raw) == Success
    && TargetPhaseComplete(raw)
    && CorrectnessOk(raw)
    && (Observed(raw, AfterQueryParityEncode) || raw.cell == CpuReference)
  }

  predicate IdentityValid(raw: RawEvidence, binding: Binding, spec: CellSpec) {
    && raw.headerValid
    && raw.binding == binding
    && raw.spec == spec
    && EffectiveControls(spec) == Some(raw.controls)
  }

  predicate EvidenceValid(raw: RawEvidence, binding: Binding, spec: CellSpec) {
    && IdentityValid(raw, binding, spec)
    && raw.runtimeValid
    && FailureClassificationValid(raw)
    && ResultStatus(raw) in {Success, Oom}
    && (ResultStatus(raw) == Oom ==> raw.snapshotWritten && raw.oomEventObserved && raw.oomClassified)
    && (ResultStatus(raw) == Success ==> TargetPhaseComplete(raw) && FullWorkloadComplete(raw) && CorrectnessOk(raw))
  }

  /** `reduce_authorized_cell_evidence`, for a spec the authority allows. */
  function Reduce(raw: RawEvidence, binding: Binding, spec: CellSpec): Run {
    Run(
      raw.cell, raw.replicate, raw.identity, raw.controls,
      EvidenceValid(raw, binding, spec),
      ResultStatus(raw),
      TargetPhaseComplete(raw),
      Observed(raw, LoadStage(raw)),
      FullWorkloadComplete(raw),
      CorrectnessOk(raw),
      if BeforeModelLoad in raw.stages then raw.stages[BeforeModelLoad].deviceFree else None,
      ExternalUsedOf(raw),
      PeakAllocated(raw, TargetStage(raw)),
      LoadDevicePeakOf(raw),
      PeakAllocated(raw, LoadStage(raw)),
      if LoadStage(raw) in raw.stages then raw.stages[LoadStage(raw)].peakReserved else None,
      ForwardPeakOf(raw),
      ForwardIncrementOf(raw),
      ResultStatus(raw) == Oom && Observed(raw, LoadStage(raw)) && Observed(raw, BeforeEncode)
      && !Observed(raw, AfterEncodeSuccess),
      if AfterEncodeSuccess in raw.stages && raw.stages[AfterEncodeSuccess].wallSeconds.Some? then
        Some(raw.stages[AfterEncodeSuccess].wallSeconds.value * 1000.0) else None,
      raw.vectors,
      raw.cacheValues != [],
      true in raw.cacheValues,
      raw.cacheWitness,
      raw.tokenCounts,
      raw.operators,
      raw.sdpaCalls)
  }

  /**
   A valid run is a clean, complete, correct success or a fully diagnosed OOM; it ran exactly the
   controls its spec admits, under the campaign's own subject and workload.
   */
  lemma ReducedRunMeaning(raw: RawEvidence, binding: Binding, spec: CellSpec)
    ensures var run := Reduce(raw, binding, spec);
            run.valid ==>
              && run.status in {Success, Oom}
              && (run.status == Success <==> run.fullWorkloadComplete)
              && (run.status == Success ==> run.targetPhaseComplete && run.correctnessOk && !run.forwardOom)
              && (run.status == Oom ==> raw.snapshotWritten && raw.oomEventObserved && raw.oomClassified)
              && EffectiveControls(spec) == Some(run.controls)
              && raw.binding == binding
    ensures var run := Reduce(raw, binding, spec);
            run.correctnessOk ==> run.vectors.Some? && VectorsCorrect(run.vectors.value)
    ensures var run := Reduce(raw, binding, spec);
            run.fullWorkloadComplete ==> run.status == Success && run.targetPhaseComplete && run.correctnessOk
    ensures var run := Reduce(raw, binding, spec);
            run.cacheConfigEnabled ==> run.cacheConfigKnown
  {
  }
}
