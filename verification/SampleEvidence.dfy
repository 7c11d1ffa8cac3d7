/** Raw evidence of single claims, and the runs it reduces to. */
module SampleEvidence {
  import opened Basics
  import opened Contract
  import opened Evidence
  import opened Campaign
  import opened Ledger
  import opened LedgerInvariant

  const IDENTITY: RunIdentity := RunIdentity("subject", "workload", "revision", "versions", "device")

  function Plain(dtype: Dtype, batch: BatchStrategy): Controls {
    Controls(Treatment(dtype, false, None, batch), false)
  }

  function SpecOf(cell: Cell, replicate: int, controls: Controls): CellSpec {
    CellSpec(cell, replicate, controls, None)
  }

  /** A finished claim of the given evidence. */
  function Done(setup: Setup, spec: CellSpec, raw: RawEvidence): Claim {
    Claim(spec.cell, spec.replicate, spec, setup.binding, 0.0, MAX_CELL_SECONDS,
          Finished(0.0, ResultStatus(raw), true, raw))
  }

  predicate Allowed(setup: Setup, spec: CellSpec) {
    (spec.cell, spec.replicate) in setup.authority && spec in setup.authority[(spec.cell, spec.replicate)]
  }

  lemma DoneSettled(setup: Setup, spec: CellSpec, raw: RawEvidence, run: Run)
    requires Allowed(setup, spec) && run == Reduce(raw, setup.binding, spec)
    requires run.valid && run.cell == spec.cell && run.replicate == spec.replicate
    ensures SettledClaim(setup, Done(setup, spec, raw)) && RunOf(setup, Done(setup, spec, raw)) == run
    ensures Permitted(setup, RequestOf(Done(setup, spec, raw)))
  {
  }

  /** Thirty-one short sequences and a long one at the end. */
  function Counts(): seq<int> {
    seq(32, i => if i == 31 then 20 else 1)
  }

  function Snapshot(monotonic: real): StageSnapshot {
    StageSnapshot(true, Some(monotonic), None, None, None, None, None, None, None)
  }

  const BEFORE_LOAD: StageSnapshot :=
    Snapshot(0.0).(deviceFree := Some(8192 * MIB), deviceUsed := Some(512 * MIB), reserved := Some(0))

  // ---------------------------------------------------------------- M0

  function BaselineSpec(replicate: int): CellSpec {
    SpecOf(M0, replicate, Plain(PostLoadHalf, Fixed32))
  }

  /** A baseline process that encoded the documents and ran out of memory on the queries. */
  function BaselineEvidence(binding: Binding, replicate: int, enabled: bool, activated: bool): RawEvidence {
    RawEvidence(
      M0, replicate, BaselineSpec(replicate), binding, IDENTITY, true, true, BaselineSpec(replicate).controls,
      CudaOom, ReportedFailed, ReportedFailed, true,
      map[BeforeModelLoad := BEFORE_LOAD,
          AfterPostLoadHalf := Snapshot(2.0).(peakAllocated := Some(2200 * MIB), peakReserved := Some(2300 * MIB)),
          BeforeEncode := Snapshot(3.0).(allocatedBytes := Some(1100 * MIB)),
          AfterEncodeSuccess := Snapshot(4.0).(peakAllocated := Some(1300 * MIB), wallSeconds := Some(1.0))],
      [DeviceSample(1.0, 2400 * MIB)], None, 0, 0, 0, true, true, true, [enabled], activated, Some(Counts()), None, [])
  }

  function QueryOom(replicate: int, enabled: bool, activated: bool): Run {
    Run(M0, replicate, IDENTITY, Plain(PostLoadHalf, Fixed32), true, Oom, true, true, false, false,
        Some(8192 * MIB), Some(512 * MIB), Some(1300 * MIB), Some(2400 * MIB), Some(2200 * MIB), Some(2300 * MIB),
        Some(1300 * MIB), Some(200 * MIB), false, Some(1000.0), None, true, enabled, activated, Some(Counts()),
        None, [])
  }

  lemma BaselineReduces(binding: Binding, replicate: int, enabled: bool, activated: bool)
    ensures Reduce(BaselineEvidence(binding, replicate, enabled, activated), binding, BaselineSpec(replicate))
            == QueryOom(replicate, enabled, activated)
  {
    OneSample(1.0, 2400 * MIB, 0.0, 2.0);
    var raw := BaselineEvidence(binding, replicate, enabled, activated);
    assert raw.cacheValues[0] == enabled;
    assert ResultStatus(raw) == Oom;
    assert LoadDevicePeakOf(raw) == Some(2400 * MIB);
  }

  lemma OneSample(at: real, used: int, start: real, end: real)
    requires start <= at <= end
    ensures PeakInWindow([DeviceSample(at, used)], start, end) == Some(used)
  {
    var samples := [DeviceSample(at, used)];
    assert samples[0] in samples;
  }

  function BaselineClaim(setup: Setup, replicate: int, enabled: bool, activated: bool): Claim {
    Done(setup, BaselineSpec(replicate), BaselineEvidence(setup.binding, replicate, enabled, activated))
  }

  lemma BaselineSettled(setup: Setup, replicate: int, enabled: bool, activated: bool)
    requires Allowed(setup, BaselineSpec(replicate)) && 1 <= replicate <= 3
    ensures var claim := BaselineClaim(setup, replicate, enabled, activated);
            && SettledClaim(setup, claim) && ClaimInRange(claim) && Permitted(setup, RequestOf(claim))
            && RunOf(setup, claim) == QueryOom(replicate, enabled, activated)
  {
    BaselineReduces(setup.binding, replicate, enabled, activated);
    DoneSettled(setup, BaselineSpec(replicate), BaselineEvidence(setup.binding, replicate, enabled, activated),
                QueryOom(replicate, enabled, activated));
  }

  // ---------------------------------------------------------------- M2

  function HalfSpec(replicate: int): CellSpec {
    SpecOf(M2, replicate, Plain(DirectFp16, Fixed32))
  }

  /** A direct-fp16 process that succeeded, with a light load and a heavy forward pass. */
  function HalfEvidence(binding: Binding, replicate: int, vectors: Vectors): RawEvidence {
    RawEvidence(
      M2, replicate, HalfSpec(replicate), binding, IDENTITY, true, true, HalfSpec(replicate).controls,
      NoFailure, ReportedSuccess, ReportedSuccess, false,
      map[BeforeModelLoad := BEFORE_LOAD,
          AfterConstruction := Snapshot(2.0).(peakAllocated := Some(1100 * MIB), peakReserved := Some(1200 * MIB)),
          BeforeEncode := Snapshot(3.0).(allocatedBytes := Some(1100 * MIB)),
          AfterEncodeSuccess := Snapshot(4.0).(peakAllocated := Some(1500 * MIB), wallSeconds := Some(1.0)),
          AfterQueryParityEncode := Snapshot(5.0)],
      [DeviceSample(1.0, 1200 * MIB)], Some(vectors), 32, 16, VECTOR_DIMENSION, false, false, false,
      [false], false, Some(Counts()), None, [])
  }

  function HalfRun(replicate: int, vectors: Vectors): Run {
    Run(M2, replicate, IDENTITY, Plain(DirectFp16, Fixed32), true, Success, true, true, true, true,
        Some(8192 * MIB), Some(512 * MIB), Some(1100 * MIB), Some(1200 * MIB), Some(1100 * MIB), Some(1200 * MIB),
        Some(1500 * MIB), Some(400 * MIB), false, Some(1000.0), Some(vectors), true, false, false, Some(Counts()),
        None, [])
  }

  lemma HalfReduces(binding: Binding, replicate: int, vectors: Vectors)
    requires VectorsCorrect(vectors)
    ensures Reduce(HalfEvidence(binding, replicate, vectors), binding, HalfSpec(replicate))
            == HalfRun(replicate, vectors)
  {
    var raw := HalfEvidence(binding, replicate, vectors);
    OneSample(1.0, 1200 * MIB, 0.0, 2.0);
    assert ResultStatus(raw) == Success;
    assert LoadDevicePeakOf(raw) == Some(1200 * MIB);
  }

  function HalfClaim(setup: Setup, replicate: int, vectors: Vectors): Claim {
    Done(setup, HalfSpec(replicate), HalfEvidence(setup.binding, replicate, vectors))
  }

  lemma HalfSettled(setup: Setup, replicate: int, vectors: Vectors)
    requires Allowed(setup, HalfSpec(replicate)) && 1 <= replicate <= 3 && VectorsCorrect(vectors)
    ensures var claim := HalfClaim(setup, replicate, vectors);
            && SettledClaim(setup, claim) && ClaimInRange(claim) && Permitted(setup, RequestOf(claim))
            && RunOf(setup, claim) == HalfRun(replicate, vectors)
  {
    HalfReduces(setup.binding, replicate, vectors);
    DoneSettled(setup, HalfSpec(replicate), HalfEvidence(setup.binding, replicate, vectors),
                HalfRun(replicate, vectors));
  }

  // ---------------------------------------------------------------- the CPU reference

  const CPU_SPEC: CellSpec := SpecOf(CpuReference, 1, Plain(CpuOnnxFp32, Fixed32))

  /** A successful reference process; it takes no device snapshots. */
  function CpuEvidence(binding: Binding, vectors: Vectors): RawEvidence {
    RawEvidence(
      CpuReference, 1, CPU_SPEC, binding, IDENTITY, true, true, CPU_SPEC.controls,
      NoFailure, ReportedSuccess, ReportedSuccess, false, map[], [], Some(vectors), 32, 16, VECTOR_DIMENSION,
      false, false, false, [], false, None, None, [])
  }

  function CpuClaim(setup: Setup, vectors: Vectors): Claim {
    Done(setup, CPU_SPEC, CpuEvidence(setup.binding, vectors))
  }

  lemma CpuSettled(setup: Setup, vectors: Vectors)
    requires Allowed(setup, CPU_SPEC) && VectorsCorrect(vectors)
    ensures var claim := CpuClaim(setup, vectors);
            && SettledClaim(setup, claim) && ClaimInRange(claim) && Permitted(setup, RequestOf(claim))
            && RunOf(setup, claim).correctnessOk && RunOf(setup, claim).vectors == Some(vectors)
  {
    var raw := CpuEvidence(setup.binding, vectors);
    assert ResultStatus(raw) == Success;
    DoneSettled(setup, CPU_SPEC, raw, Reduce(raw, setup.binding, CPU_SPEC));
  }
}
