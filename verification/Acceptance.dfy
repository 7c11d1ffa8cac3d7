/** `_qualified_candidate`: every gate between a treatment cell and its acceptance. */
module Acceptance {
  import opened Basics
  import opened Contract
  import opened Evidence
  import opened Campaign

  /** `parity(reference, candidate)`: whether the parity gate passes; an error counts as no. */
  type ParityGate = (Vectors, Vectors) -> bool

  function M2Baseline(run: Run): Run {
    run.(targetPhaseComplete := run.loadPhaseComplete)
  }

  function BaselineFor(cell: Cell, runs: seq<Run>): seq<Run> {
    if cell == M2 then seq(|runs|, i requires 0 <= i < |runs| => M2Baseline(runs[i])) else runs
  }

  function PeakKeyFor(cell: Cell): PeakKey {
    if cell == M2 then LoadDevicePeak else TargetPeak
  }

  predicate ParityPassed(parity: ParityGate, reference: Run, run: Run) {
    && reference.vectors.Some? && run.vectors.Some?
    && parity(reference.vectors.value, run.vectors.value)
  }

  /** Every gate between a treatment cell and its acceptance. */
  predicate CandidateAccepted(parity: ParityGate, cell: Cell, baseline: seq<Run>, treatment: seq<Run>,
                              reference: Option<Run>)
  {
    && ThreeValidRuns(treatment, true)
    && reference.Some?
    && reference.value.vectors.Some?
    && treatment[0].vectors.Some? && treatment[1].vectors.Some? && treatment[2].vectors.Some?
    && var before := BaselineFor(cell, baseline);
       var mechanism := MechanismVerdict(before, treatment, PeakKeyFor(cell));
       var passed := [ParityPassed(parity, reference.value, treatment[0]),
                      ParityPassed(parity, reference.value, treatment[1]),
                      ParityPassed(parity, reference.value, treatment[2])];
       && mechanism == Supported
       && CandidateVerdict(mechanism, before, treatment, passed, cell == M2) == Qualified
  }

  /** The setup of a real campaign. */
  function StandardSetup(binding: Binding, authority: map<Key, set<CellSpec>>, parity: ParityGate): Setup {
    Setup(binding, authority,
          (cell, baseline, treatment, reference) => CandidateAccepted(parity, cell, baseline, treatment, reference))
  }

  lemma SingleChange(before: Controls, after: Controls, key: ControlKey)
    requires ChangedControls(before, after) == {key} && key != ProfilerKey
    ensures ChangesOnly(before.treatment, after.treatment, key)
  {
    var c := ChangedControls(before, after);
    assert DtypeKey in c <==> before.treatment.dtype != after.treatment.dtype;
    assert CacheKey in c <==> before.treatment.disableCache != after.treatment.disableCache;
    assert BackendKey in c <==> before.treatment.backend != after.treatment.backend;
    assert BatchKey in c <==> before.treatment.batch != after.treatment.batch;
  }

  /** An accepted candidate differs from its baseline in exactly its stage's control. */
  lemma AcceptedChangesOneControl(parity: ParityGate, cell: Cell, baseline: seq<Run>, runs: seq<Run>,
                                  reference: Option<Run>)
    requires CandidateAccepted(parity, cell, baseline, runs, reference)
    requires forall r | r in runs :: r.cell == cell
    ensures baseline != [] && runs != [] && ControlChange(cell).Some?
    ensures ChangesOnly(baseline[0].controls.treatment, runs[0].controls.treatment, ControlChange(cell).value)
  {
    var before := BaselineFor(cell, baseline);
    assert PairsComparable(before, runs, PeakKeyFor(cell));
    assert runs[0] in runs;
    assert before[0].controls == baseline[0].controls;
    SingleChange(before[0].controls, runs[0].controls, ControlChange(cell).value);
  }

  lemma StandardSetupSingleVariable(binding: Binding, authority: map<Key, set<CellSpec>>, parity: ParityGate)
    ensures SingleVariable(StandardSetup(binding, authority, parity))
  {
    var setup := StandardSetup(binding, authority, parity);
    forall cell: Cell, baseline: seq<Run>, runs: seq<Run>, reference: Option<Run> |
      setup.accepts(cell, baseline, runs, reference) && (forall r | r in runs :: r.cell == cell)
      ensures OneControlChanged(cell, baseline, runs)
    {
      AcceptedChangesOneControl(parity, cell, baseline, runs, reference);
    }
  }
}
